/**
 * The voltage supervisor: a 100 ms task starts an ADC conversion on channel
 * ADC1, the ADC callback accumulates the results, and every ten results
 * the rounded mean is converted to a voltage in units of 0.01 V.
 *
 * The callback's arithmetic is specified on values (`Filter`, `OnSample`,
 * `Feed`); the module's statics are the fields of `VoltageSupervisor`,
 * whose methods are proved against those functions. The ADC, the scheduler
 * and the system error service are collaborators: what they return is a
 * parameter of the method that calls them, and the calls are logged.
 */
module Supervisor {
  import opened Types
  import opened Utils

  /** The task interval in milliseconds. */
  const SUPERVISOR_TASK_INTERVAL: uint16 := 100
  /** Number of ADC results averaged into one voltage. */
  const SAMPLE_LIMIT: nat := 10
  /** The largest 12-bit ADC result. */
  const ADC_MAX: nat := 0xFFF
  /** The voltage, in units of 0.01 V, that ADC_MAX stands for. */
  const SUPERVISOR_VOLTAGE_AT_MAX_ADC: nat := 2000

  /** AdcChannel_t. */
  datatype AdcChannel = ADC0 | ADC1 | ADC2

  /** AdcResolution_t. */
  datatype AdcResolution = AdcRes12Bit | AdcRes10Bit | AdcRes8Bit

  /** AdcConfig_t without its callback pointer, which is always this module's callback. */
  datatype AdcConfig = AdcConfig(channel: AdcChannel, resolution: AdcResolution)

  /** The channel the supervisor measures. */
  const SUPERVISOR_ADC_CHANNEL: AdcChannel := ADC1

  /**
   * A call into a collaborator. The task pointer passed to the scheduler is
   * always this module's task, so it is not recorded.
   */
  datatype Call =
    | HalAdcInit(config: AdcConfig)
    | SchedulerCreateTask(interval: uint16)
    | SchedulerDeleteTask
    | HalAdcStartConversion(channel: AdcChannel)

  /**
   * Supervisor_AdcToVoltage(adc): DIVIDE_AND_ROUND(adc * 2000, 0xFFF) on
   * 32-bit operands, cast to 16 bits. The truncations of the product and of
   * the cast are written out; the sum inside DIVIDE_AND_ROUND is not, as it
   * stays below 65535 * 2000 + 2047.
   */
  function AdcToVoltage(adc: uint16): uint16 {
    var product: uint32 := (adc * SUPERVISOR_VOLTAGE_AT_MAX_ADC) % 0x1_0000_0000;
    DivideAndRound(product, ADC_MAX) % 0x1_0000
  }

  /**
   * Neither truncation ever applies: the result is the voltage nearest to
   * adc * 2000 / 4095, halves rounded up.
   */
  lemma AdcToVoltageNearest(adc: uint16)
    ensures var v := AdcToVoltage(adc);
      v * ADC_MAX <= adc * SUPERVISOR_VOLTAGE_AT_MAX_ADC + ADC_MAX / 2 < v * ADC_MAX + ADC_MAX
  {
    var product := adc * SUPERVISOR_VOLTAGE_AT_MAX_ADC;
    assert product % 0x1_0000_0000 == product;
    var q := DivideAndRound(product, ADC_MAX);
    assert q * 4095 <= 65535 * 2000 + 2047;
    assert q % 0x1_0000 == q;
  }

  /** The conversion maps the ends of the 12-bit range to 0 and 2000. */
  lemma AdcToVoltageEnds()
    ensures AdcToVoltage(0) == 0
    ensures AdcToVoltage(0xFFF) == 2000
  {
    AdcToVoltageNearest(0);
    AdcToVoltageNearest(0xFFF);
    var v := AdcToVoltage(0xFFF);
    assert (v as int) * 4095 <= 8190000 + 2047 < (v as int) * 4095 + 4095;
  }

  /** The conversion is monotone. */
  lemma AdcToVoltageMonotone(a1: uint16, a2: uint16)
    requires a1 <= a2
    ensures AdcToVoltage(a1) <= AdcToVoltage(a2)
  {
    AdcToVoltageNearest(a1);
    AdcToVoltageNearest(a2);
    DivUnique(a1 * 2000 + 2047, 4095, AdcToVoltage(a1));
    DivUnique(a2 * 2000 + 2047, 4095, AdcToVoltage(a2));
    DivMonotone(a1 * 2000 + 2047, a2 * 2000 + 2047, 4095);
  }

  /** A 12-bit result converts to at most 20.00 V. */
  lemma AdcToVoltageAtMostFullScale(adc: uint16)
    requires adc <= ADC_MAX
    ensures AdcToVoltage(adc) <= SUPERVISOR_VOLTAGE_AT_MAX_ADC
  {
    AdcToVoltageMonotone(adc, 0xFFF);
    AdcToVoltageEnds();
  }

  /** The sum of the results in a window. */
  function Sum(results: seq<uint16>): nat
    decreases |results|
  {
    if results == [] then 0 else Sum(results[..|results| - 1]) + results[|results| - 1]
  }

  /** Adding a result at the end adds it to the sum. */
  lemma SumSnoc(results: seq<uint16>, r: uint16)
    ensures Sum(results + [r]) == Sum(results) + r
  {
    assert (results + [r])[..|results|] == results;
  }

  /** A window of 12-bit results sums to at most ADC_MAX per result. */
  lemma {:induction false} SumBound(results: seq<uint16>)
    requires forall i :: 0 <= i < |results| ==> results[i] <= ADC_MAX
    ensures Sum(results) <= |results| * ADC_MAX
    decreases |results|
  {
    if results != [] {
      SumBound(results[..|results| - 1]);
    }
  }

  /** The supervisor's measurement statics: samples, sampleSum and voltage. */
  datatype Filter = Filter(samples: uint8, sampleSum: uint16, voltage: uint16)

  /** The statics after Supervisor_Start, Supervisor_Stop or a completed window. */
  const RESET: Filter := Filter(0, 0, 0)

  /**
   * Supervisor_AdcCallback(result) on the statics: sampleSum += result and
   * ++samples wrap at 16 and 8 bits; when samples reaches SAMPLE_LIMIT the
   * rounded mean (an int narrowed to the uint16_t parameter) is converted to
   * the new voltage and both counters return to 0.
   */
  function OnSample(f: Filter, result: uint16): (g: Filter)
    ensures g.samples < SAMPLE_LIMIT
    ensures g.samples == 0 || g.voltage == f.voltage
  {
    var sum: uint16 := (f.sampleSum + result) % 0x1_0000;
    var samples: uint8 := (f.samples + 1) % 0x100;
    if samples >= SAMPLE_LIMIT then
      Filter(0, 0, AdcToVoltage(DivideAndRound(sum, samples) % 0x1_0000))
    else
      Filter(samples, sum, f.voltage)
  }

  /** The statics after a sequence of callbacks, in order. */
  function Feed(f: Filter, results: seq<uint16>): Filter
    decreases |results|
  {
    if results == [] then f else OnSample(Feed(f, results[..|results| - 1]), results[|results| - 1])
  }

  /**
   * The callback invariant: fewer than SAMPLE_LIMIT samples are pending,
   * `window` holds them, and sampleSum is their sum modulo 2^16.
   */
  ghost predicate Accumulates(f: Filter, window: seq<uint16>) {
    f.samples < SAMPLE_LIMIT && |window| == f.samples && f.sampleSum == Sum(window) % 0x1_0000
  }

  /** The window the callback leaves pending after `result`. */
  function NextWindow(f: Filter, window: seq<uint16>, result: uint16): seq<uint16> {
    if OnSample(f, result).samples == 0 then [] else window + [result]
  }

  /** Every callback keeps the invariant. */
  lemma OnSampleAccumulates(f: Filter, window: seq<uint16>, result: uint16)
    requires Accumulates(f, window)
    ensures Accumulates(OnSample(f, result), NextWindow(f, window, result))
  {
    if OnSample(f, result).samples != 0 {
      SumSnoc(window, result);
      AddModulo16(Sum(window), result);
    }
  }

  /** Adding to a sum kept modulo 2^16 gives the full sum modulo 2^16. */
  lemma AddModulo16(s: nat, r: nat)
    ensures (s % 0x1_0000 + r) % 0x1_0000 == (s + r) % 0x1_0000
  {
    var q := s / 0x1_0000;
    assert s == q * 0x1_0000 + s % 0x1_0000;
    assert s + r == q * 0x1_0000 + (s % 0x1_0000 + r);
  }

  /** With 12-bit results the pending sum never wraps. */
  lemma AccumulatesExactly(f: Filter, window: seq<uint16>)
    requires Accumulates(f, window)
    requires forall i :: 0 <= i < |window| ==> window[i] <= ADC_MAX
    ensures f.sampleSum == Sum(window) <= (SAMPLE_LIMIT - 1) * ADC_MAX
  {
    SumBound(window);
  }

  /** Fewer than SAMPLE_LIMIT 12-bit results after a reset are all pending, summed exactly, and leave the voltage alone. */
  lemma {:induction false} FeedPartial(voltage: uint16, results: seq<uint16>)
    requires |results| < SAMPLE_LIMIT
    requires forall i :: 0 <= i < |results| ==> results[i] <= ADC_MAX
    ensures var f := Feed(Filter(0, 0, voltage), results);
      f.samples == |results| && f.sampleSum == Sum(results) && f.voltage == voltage
    decreases |results|
  {
    if results != [] {
      var n := |results| - 1;
      FeedPartial(voltage, results[..n]);
      SumBound(results);
      PendingSample(Feed(Filter(0, 0, voltage), results[..n]), results[n]);
    }
  }

  /** A result that neither completes the window nor wraps the sum is added to the pending ones. */
  lemma PendingSample(f: Filter, result: uint16)
    requires f.samples + 1 < SAMPLE_LIMIT && f.sampleSum + result < 0x1_0000
    ensures OnSample(f, result) == Filter(f.samples + 1, f.sampleSum + result, f.voltage)
  {
    assert (f.samples + 1) % 0x100 == f.samples + 1;
  }

  /**
   * SAMPLE_LIMIT 12-bit results after a reset produce the rounded mean's
   * voltage and reset both counters; their sum fits in sampleSum.
   */
  lemma WindowAverage(voltage: uint16, results: seq<uint16>)
    requires |results| == SAMPLE_LIMIT
    requires forall i :: 0 <= i < |results| ==> results[i] <= ADC_MAX
    ensures Sum(results) <= SAMPLE_LIMIT * ADC_MAX
    ensures Feed(Filter(0, 0, voltage), results) == Filter(0, 0, AdcToVoltage(DivideAndRound(Sum(results), SAMPLE_LIMIT)))
  {
    var prefix, last := results[..9], results[9];
    FeedPartial(voltage, prefix);
    SumBound(results);
    var sum := Sum(results);
    assert sum == Sum(prefix) + last;
    assert Feed(Filter(0, 0, voltage), prefix) == Filter(9, Sum(prefix), voltage);
    assert Feed(Filter(0, 0, voltage), results) == OnSample(Filter(9, Sum(prefix), voltage), last);
    CompleteWindow(voltage, Sum(prefix), last);
  }

  /** The tenth result of a window that has not wrapped sets the voltage from the rounded mean. */
  lemma CompleteWindow(voltage: uint16, pendingSum: uint16, result: uint16)
    requires pendingSum + result < 0x1_0000
    ensures OnSample(Filter(9, pendingSum, voltage), result) == Filter(0, 0, AdcToVoltage(DivideAndRound(pendingSum + result, SAMPLE_LIMIT)))
  {
    var sum := pendingSum + result;
    assert (pendingSum + result) % 0x1_0000 == sum;
    assert (9 + 1) % 0x100 == SAMPLE_LIMIT;
    var mean := DivideAndRound(sum, SAMPLE_LIMIT);
    assert mean % 0x1_0000 == mean;
    assert OnSample(Filter(9, pendingSum, voltage), result) == Filter(0, 0, AdcToVoltage(mean % 0x1_0000));
  }

  /** Callbacks after a completed window behave as if the window had never been. */
  lemma {:induction false} FeedAppend(f: Filter, a: seq<uint16>, b: seq<uint16>)
    ensures Feed(f, a + b) == Feed(Feed(f, a), b)
    decreases |b|
  {
    if b == [] {
      assert a + b == a;
    } else {
      assert (a + b)[..|a + b| - 1] == a + b[..|b| - 1];
      FeedAppend(f, a, b[..|b| - 1]);
    }
  }

  /**
   * After a complete window of 12-bit results, later results act on reset
   * statics that hold that window's voltage: each window starts afresh.
   */
  lemma WindowThenRest(voltage: uint16, window: seq<uint16>, rest: seq<uint16>)
    requires |window| == SAMPLE_LIMIT
    requires forall i :: 0 <= i < |window| ==> window[i] <= ADC_MAX
    ensures Sum(window) <= SAMPLE_LIMIT * ADC_MAX
    ensures Feed(Filter(0, 0, voltage), window + rest)
         == Feed(Filter(0, 0, AdcToVoltage(DivideAndRound(Sum(window), SAMPLE_LIMIT))), rest)
  {
    WindowAverage(voltage, window);
    FeedAppend(Filter(0, 0, voltage), window, rest);
  }

  /** Two consecutive windows leave the voltage of the second one, whatever the first held. */
  lemma ConsecutiveWindows(voltage: uint16, first: seq<uint16>, second: seq<uint16>)
    requires |first| == SAMPLE_LIMIT && |second| == SAMPLE_LIMIT
    requires forall i :: 0 <= i < |first| ==> first[i] <= ADC_MAX
    requires forall i :: 0 <= i < |second| ==> second[i] <= ADC_MAX
    ensures Sum(second) <= SAMPLE_LIMIT * ADC_MAX
    ensures Feed(Filter(0, 0, voltage), first + second) == Filter(0, 0, AdcToVoltage(DivideAndRound(Sum(second), SAMPLE_LIMIT)))
  {
    WindowThenRest(voltage, first, second);
    WindowAverage(AdcToVoltage(DivideAndRound(Sum(first), SAMPLE_LIMIT)), second);
  }

  /** Ten results of 0x999 read 12.00 V. */
  lemma Example0x999(voltage: uint16)
    ensures Feed(Filter(0, 0, voltage), seq(10, _ => 0x999)).voltage == 1200
  {
    var results: seq<uint16> := seq(10, _ => 0x999);
    SumConstant(10, 0x999);
    WindowAverage(voltage, results);
    WorkedConversions();
  }

  /** Ten results of 0x805 read 10.03 V. */
  lemma Example0x805(voltage: uint16)
    ensures Feed(Filter(0, 0, voltage), seq(10, _ => 0x805)).voltage == 1003
  {
    var results: seq<uint16> := seq(10, _ => 0x805);
    SumConstant(10, 0x805);
    WindowAverage(voltage, results);
    WorkedConversions();
  }

  /** The roundings and conversions of the two worked examples. */
  lemma WorkedConversions()
    ensures DivideAndRound(24570, 10) == 2457 && AdcToVoltage(2457) == 1200
    ensures DivideAndRound(20530, 10) == 2053 && AdcToVoltage(2053) == 1003
  {
    DivUnique(24575, 10, 2457);
    DivUnique(20535, 10, 2053);
    DivUnique(4916047, 4095, 1200);
    DivUnique(4108047, 4095, 1003);
  }

  /** n equal results sum to n times the result. */
  lemma {:induction false} SumConstant(n: nat, r: uint16)
    ensures Sum(seq(n, _ => r)) == n * r
  {
    if n > 0 {
      assert seq(n, _ => r)[..n - 1] == seq(n - 1, _ => r);
      SumConstant(n - 1, r);
    }
  }

  /**
   * The module's statics (isInitialised, samples, sampleSum, voltage), the
   * results pending in the current window, and the collaborator calls made.
   */
  class VoltageSupervisor {
    var isInitialised: bool
    var samples: uint8
    var sampleSum: uint16
    var voltage: uint16
    ghost var window: seq<uint16>
    ghost var calls: seq<Call>

    /** The measurement statics as a value. */
    function State(): Filter
      reads this
    {
      Filter(samples, sampleSum, voltage)
    }

    /** The callback invariant holds. */
    ghost predicate Valid()
      reads this
    {
      Accumulates(State(), window)
    }

    /** The statics as the program loads them. */
    constructor ()
      ensures !isInitialised && State() == RESET && window == [] && calls == []
      ensures Valid()
    {
      isInitialised := false;
      samples, sampleSum, voltage := 0, 0, 0;
      window, calls := [], [];
    }

    /**
     * Supervisor_Init. `adcInitResult` is what HalAdc_Init returns for the
     * ADC1, 12-bit configuration; it is returned as is, and only ERROR_OK
     * marks the module initialised.
     */
    method Init(adcInitResult: ErrorCode) returns (error: ErrorCode)
      modifies this`isInitialised, this`calls
      ensures error == adcInitResult
      ensures isInitialised == (old(isInitialised) || adcInitResult == ErrorOk)
      ensures calls == old(calls) + [HalAdcInit(AdcConfig(SUPERVISOR_ADC_CHANNEL, AdcRes12Bit))]
    {
      calls := calls + [HalAdcInit(AdcConfig(SUPERVISOR_ADC_CHANNEL, AdcRes12Bit))];
      error := adcInitResult;
      if error == ErrorOk {
        isInitialised := true;
      }
    }

    /**
     * Supervisor_Start. When initialised it zeroes the statics and then
     * registers the task every SUPERVISOR_TASK_INTERVAL ms, returning what
     * Scheduler_CreateTask returns (`createTaskResult`); the reset happens
     * whatever that is. Otherwise it returns ERROR_INVALID_ACTION and
     * changes nothing.
     */
    method Start(createTaskResult: ErrorCode) returns (error: ErrorCode)
      requires Valid()
      modifies this`samples, this`sampleSum, this`voltage, this`window, this`calls
      ensures Valid()
      ensures isInitialised ==>
        error == createTaskResult && State() == RESET && window == []
        && calls == old(calls) + [SchedulerCreateTask(SUPERVISOR_TASK_INTERVAL)]
      ensures !isInitialised ==>
        error == ErrorInvalidAction && State() == old(State()) && window == old(window) && calls == old(calls)
    {
      if isInitialised {
        samples, sampleSum, voltage := 0, 0, 0;
        window := [];
        calls := calls + [SchedulerCreateTask(SUPERVISOR_TASK_INTERVAL)];
        error := createTaskResult;
      } else {
        error := ErrorInvalidAction;
      }
    }

    /**
     * Supervisor_Stop. When initialised it deletes the task, returning what
     * Scheduler_DeleteTask returns (`deleteTaskResult`), and zeroes the
     * statics whatever that is; isInitialised stays set. Otherwise it
     * returns ERROR_INVALID_ACTION and changes nothing.
     */
    method Stop(deleteTaskResult: ErrorCode) returns (error: ErrorCode)
      requires Valid()
      modifies this`samples, this`sampleSum, this`voltage, this`window, this`calls
      ensures Valid()
      ensures isInitialised ==>
        error == deleteTaskResult && State() == RESET && window == []
        && calls == old(calls) + [SchedulerDeleteTask]
      ensures !isInitialised ==>
        error == ErrorInvalidAction && State() == old(State()) && window == old(window) && calls == old(calls)
    {
      if isInitialised {
        calls := calls + [SchedulerDeleteTask];
        error := deleteTaskResult;
        samples, sampleSum, voltage := 0, 0, 0;
        window := [];
      } else {
        error := ErrorInvalidAction;
      }
    }

    /** Supervisor_GetVoltage: the latest voltage, in units of 0.01 V; nothing changes. */
    method GetVoltage() returns (v: uint16)
      ensures v == State().voltage
    {
      v := voltage;
    }

    /**
     * Supervisor_AdcCallback(result): one step of `OnSample` on the statics,
     * keeping the callback invariant.
     */
    method AdcCallback(result: uint16)
      requires Valid()
      modifies this`samples, this`sampleSum, this`voltage, this`window
      ensures State() == OnSample(old(State()), result)
      ensures window == NextWindow(old(State()), old(window), result)
      ensures Valid()
    {
      OnSampleAccumulates(State(), window, result);
      ghost var next := NextWindow(State(), window, result);
      sampleSum := (sampleSum + result) % 0x1_0000;
      samples := (samples + 1) % 0x100;
      if samples >= SAMPLE_LIMIT {
        voltage := AdcToVoltage(DivideAndRound(sampleSum, samples) % 0x1_0000);
        sampleSum := 0;
        samples := 0;
      }
      window := next;
    }

    /**
     * Supervisor_Task. `startConversionResult` is what
     * HalAdc_StartConversion(ADC1) returns; SUPERVISOR_FAILURE is raised
     * once exactly when it is not ERROR_OK. The statics do not change.
     */
    method Task(startConversionResult: ErrorCode, system: System)
      modifies this`calls, system
      ensures calls == old(calls) + [HalAdcStartConversion(SUPERVISOR_ADC_CHANNEL)]
      ensures system.raised == old(system.raised) + (if startConversionResult == ErrorOk then [] else [SupervisorFailure])
    {
      calls := calls + [HalAdcStartConversion(SUPERVISOR_ADC_CHANNEL)];
      if startConversionResult != ErrorOk {
        system.RaiseError(SupervisorFailure);
      }
    }
  }
}
