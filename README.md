# Voltage supervisor and GPIO driver of UTest_Example, in Dafny

This project models the firmware core of UTest_Example, a small STM32F429
example project. It covers four parts:

- **The voltage supervisor** (`supervisor.dfy`). A 100 ms task starts an ADC
  conversion on channel ADC1. The ADC callback adds each result to a running
  sum. Every ten results it turns the rounded mean into a voltage, in units
  of 0.01 V, where 0xFFF stands for 20.00 V.
  - The callback's arithmetic is specified on values: `Filter`, `OnSample`
    and `Feed`.
  - The module's four statics are the fields of the class
    `VoltageSupervisor`. Its methods are proved against those functions.
  - The ADC, the scheduler and the system error service are collaborators.
    Their results are method parameters, and the calls are recorded in ghost
    logs.
- **The GPIO driver** (`gpio.dfy`, with the device constants in
  `device.dfy`). It reads and writes a pin's configuration (mode, output
  type, speed, pull, alternate function) and sets or reads its state.
  - Every operation is a fixed sequence of register primitives on the pin's
    port registers.
  - The register file is the class `HalRegs.Registers`. It holds the
    register values and a ghost trace of the primitives issued, which is
    what the unit tests observe through their mocks.
- **The register primitives** (`hal_regs.dfy`): the `hal_regs.h` bit and
  bit-field macros on 32-bit bit-vectors. Two of the macros are wrong as
  written; see "## Findings".
- **The utilities** (`utils.dfy`, `types.dfy`): rounded division, and the
  `UTILS_ASSERT` guards.
  - In a debug build a guard raises a system error flag and returns early.
  - In a release build a guard expands to nothing. The `Build` parameter
    says which build is meant.
  - A release-build caller must meet the guarded conditions itself, so the
    public GPIO methods require them only when `build` is `Release`.

Integer widths are explicit. Register values are `bv32` and bit positions
`bv5`. `sampleSum` wraps at 16 bits and `samples` at 8 bits, and the casts
in `Supervisor_AdcToVoltage` are written out. Lemmas show where no
wrap-around can happen.

## Model

| member | source | states |
|---|---|---|
| `Types.System.RaiseError` | Sources/System/include/system.h:51 | raising a flag appends it, once, to the flags raised so far |
| `Utils.DivideAndRound` | Sources/Utils/include/utils.h:51 | the quotient q is the nearest integer to a / b, halves rounded up: q * b <= a + b/2 < q * b + b |
| `Utils.DivideAndRoundExact` | Sources/Utils/include/utils.h:51 | when b divides a, rounding gives the exact quotient |
| `Utils.DivideAndRoundMonotone` | Sources/Utils/include/utils.h:51 | for a fixed divisor the rounded quotient never decreases as a grows |
| `Utils.Assert` | Sources/Utils/include/utils.h:39-44 | execution continues exactly when the build is a release build or the condition holds; otherwise the given flag is raised and the given value returned |
| `Utils.AssertVoid` | Sources/Utils/include/utils.h:39-43 | the same guard without a return value |
| `Utils.CheckAssert` | Sources/Utils/include/utils.h:40-43 | the caller proceeds exactly when the guard lets it; the flag is raised once exactly when it does not |
| `HalRegs.BitSetsOnlyPosition` | Sources/HAL/include/hal_regs.h:39 | BIT_(position) has bit `position` set and no other bit |
| `HalRegs.GetBitReadsBit` | Sources/HAL/include/hal_regs.h:44 | GET_BIT_ is true exactly when the bit is set |
| `HalRegs.SetBitValueSpec` | Sources/HAL/include/hal_regs.h:42 | after SET_BIT_ the bit is 1, and the word outside BIT_(bit) is unchanged |
| `HalRegs.ClearBitValueSpec` | Sources/HAL/include/hal_regs.h:43 | after CLEAR_BIT_ the bit is 0, and the word outside BIT_(bit) is unchanged |
| `HalRegs.SetBitFrame` | Sources/HAL/include/hal_regs.h:42 | SET_BIT_ changes no other bit, stated bit by bit |
| `HalRegs.ClearBitFrame` | Sources/HAL/include/hal_regs.h:43 | CLEAR_BIT_ changes no other bit, stated bit by bit |
| `HalRegs.GetBitAfterSetAndClear` | Sources/HAL/include/hal_regs.h:42-44 | GET_BIT_ reads 1 after SET_BIT_ and 0 after CLEAR_BIT_ of the same bit |
| `HalRegs.GetBitfieldWithinMask` | Sources/HAL/include/hal.h:85-92 | the documented field read has no bit outside the mask |
| `HalRegs.GetBitfieldAfterSet` | Sources/HAL/include/hal.h:76-92 | reading back a field just written with the documented SET_BITFIELD returns the pattern, whenever the pattern fits the mask and the mask fits above the position |
| `HalRegs.DocumentedExamples` | Sources/HAL/include/hal.h:76-92 | the documented macros give the documented results: GET_BITFIELD(0xABCD, 5, 0x7) = 0x6 and SET_BITFIELD(0xFFFF, 5, 0x7, 0x2) = 0xFF5F |
| `HalRegs.GetBitfieldAsWrittenMissesExample` | Sources/HAL/include/hal_regs.h:52 | GET_BITFIELD_ as written gives 0 for the documented example, not 0x6 |
| `HalRegs.GetBitfieldAsWrittenReadsZero` | Sources/HAL/include/hal_regs.h:52 | GET_BITFIELD_ as written reads 0 for every mask that lies below the position, whatever the register holds |
| `HalRegs.SetBitfieldAsWrittenMissesExample` | Sources/HAL/include/hal_regs.h:45-51 | SET_BITFIELD_ as written gives 0xE0 for the documented example, not 0xFF5F |
| `HalRegs.ApplyOther` | Sources/HAL/include/hal_regs.h:41-51 | a register primitive changes no register other than its own |
| `HalRegs.ApplyLocal` | Sources/HAL/include/hal_regs.h:41-51 | what a primitive leaves in its register depends only on that register's old value |
| `HalRegs.ApplyAllReads` | Sources/HAL/include/hal_regs.h:40-52 | a sequence of read primitives changes no register |
| `HalRegs.ApplyAllDistinct` | Sources/HAL/include/hal_regs.h:40-52 | in a sequence of primitives on pairwise different registers, each register ends as its own primitive alone leaves it |
| `HalRegs.Registers.Read` | Sources/HAL/include/hal_regs.h:40 | REG_READ_ returns the register's value and changes nothing |
| `HalRegs.Registers.Write` | Sources/HAL/include/hal_regs.h:41 | REG_WRITE_ leaves the value in the register and touches no other register |
| `HalRegs.Registers.SetBit` | Sources/HAL/include/hal_regs.h:42 | SET_BIT_ updates the register in place as the SET_BIT_ value, and nothing else |
| `HalRegs.Registers.ClearBit` | Sources/HAL/include/hal_regs.h:43 | CLEAR_BIT_ updates the register in place as the CLEAR_BIT_ value, and nothing else |
| `HalRegs.Registers.ReadBit` | Sources/HAL/include/hal_regs.h:44 | GET_BIT_ returns the register's bit and changes nothing |
| `HalRegs.Registers.WriteBitfield` | Sources/HAL/include/hal_regs.h:45-51 | SET_BITFIELD_, with its documented effect, updates the register in place and nothing else |
| `HalRegs.Registers.ReadBitfield` | Sources/HAL/include/hal_regs.h:52 | GET_BITFIELD_, with its documented result, returns the field and changes nothing |
| `Gpio.FieldSlots` | Sources/HAL/sources/gpio.c:51-55 | for pins 0-15, a 2-bit field starts at bit 30 at the latest and a 4-bit field at bit 28; speed and pull fields sit where the mode field does; fields of different pins never overlap |
| `Gpio.OutputStateBitInjective` | Sources/HAL/sources/gpio.c:188-195 | each pin and state has its own BSRR bit: set bits are 0-15 and reset bits 16-31 |
| `Gpio.OutputStateDrivesOdr` | Sources/HAL/sources/gpio.c:187-195 | under the BSRR semantics of the reference manual, the bit SetOutputState writes drives the pin's ODR bit to `state` |
| `Gpio.TwoBitFieldRoundTrip` | Sources/HAL/sources/gpio.c:217-228 | a 2-bit mode, speed or pull field reads back as written |
| `Gpio.FourBitFieldRoundTrip` | Sources/HAL/sources/gpio.c:274-299 | a 4-bit alternate function field reads back as written |
| `Gpio.ConfigWriteRegsDistinct` | Sources/HAL/sources/gpio.c:173-178 | the six writes of SetConfiguration go to six different registers |
| `Gpio.ConfigWriteEffect` | Sources/HAL/sources/gpio.c:168-180 | after SetConfiguration each register it touches is its one primitive applied to its old value |
| `Gpio.ConfigurationRoundTrip` | Sources/HAL/sources/gpio.c:155-180 | GetConfiguration after SetConfiguration returns the configuration that was set, from any register contents, and the port clock is enabled |
| `Gpio.TwoBitFieldFrame` | Sources/HAL/include/hal.h:76-83 | a 2-bit SET_BITFIELD at a position of at most 30 keeps every register bit outside the field |
| `Gpio.FourBitFieldFrame` | Sources/HAL/include/hal.h:76-83 | a 4-bit SET_BITFIELD at a position of at most 28 keeps every register bit outside the field |
| `Gpio.TwoBitFieldOtherPin` | Sources/HAL/sources/gpio.c:51-55 | writing one pin's mode, speed or pull field leaves the same field of every other pin as it was |
| `Gpio.FourBitFieldOtherPin` | Sources/HAL/sources/gpio.c:288-299 | writing one pin's alternate function leaves that of every other pin in the same AFR register as it was |
| `Gpio.OpenDrainOtherPin` | Sources/HAL/sources/gpio.c:235-246 | setting or clearing one pin's OTYPER bit leaves every other pin's bit as it was |
| `Gpio.ConfigurationKeepsOtherPins` | Sources/HAL/sources/gpio.c:168-180 | SetConfiguration leaves the configuration of every other pin, of the same port or another, as GetConfiguration reads it |
| `Gpio.SamePortOtherPin` | Sources/HAL/sources/gpio.c:173-178 | another pin of the same port keeps its mode, output type, speed, pull and alternate function |
| `Gpio.OtherPortUntouched` | Sources/HAL/sources/gpio.c:168-180 | a pin of another port is read from registers SetConfiguration does not write |
| `Gpio.ConfigWritesOwnPort` | Sources/HAL/sources/gpio.c:168-180 | SetConfiguration writes only RCC AHB1ENR and registers of the pin's own port |
| `Gpio.ConfigReadsChangeNothing` | Sources/HAL/sources/gpio.c:155-166 | the reads of GetConfiguration change no register |
| `Gpio.GetMode` | Sources/HAL/sources/gpio.c:217-221 | returns the pin's MODER field; no register changes |
| `Gpio.IsOpenDrain` | Sources/HAL/sources/gpio.c:230-233 | returns the pin's OTYPER bit; no register changes |
| `Gpio.GetSpeed` | Sources/HAL/sources/gpio.c:248-252 | returns the pin's OSPEEDR field; no register changes |
| `Gpio.GetPull` | Sources/HAL/sources/gpio.c:261-265 | returns the pin's PUPDR field; no register changes |
| `Gpio.GetAlternateFunction` | Sources/HAL/sources/gpio.c:274-286 | returns the pin's field of AFR[0] below pin 8 and of AFR[1] from pin 8; no register changes |
| `Gpio.EnablePortClock` | Sources/HAL/sources/gpio.c:301-305 | sets the port's clock enable bit in RCC AHB1ENR |
| `Gpio.SetMode` | Sources/HAL/sources/gpio.c:223-228 | writes the pin's MODER field |
| `Gpio.SetOpenDrain` | Sources/HAL/sources/gpio.c:235-246 | sets the pin's OTYPER bit for open drain and clears it for push-pull |
| `Gpio.SetSpeed` | Sources/HAL/sources/gpio.c:254-259 | writes the pin's OSPEEDR field |
| `Gpio.SetPull` | Sources/HAL/sources/gpio.c:267-272 | writes the pin's PUPDR field |
| `Gpio.SetAlternateFunction` | Sources/HAL/sources/gpio.c:288-299 | writes the pin's field of AFR[0] below pin 8 and of AFR[1] from pin 8 |
| `Gpio.GetConfiguration` | Sources/HAL/sources/gpio.c:155-166 | a valid argument gets the five fields read from the pin's registers, with no register changed; NULL or a pin number of 16 or more (debug build) raises HAL_GPIO_FAILURE once and reads nothing |
| `Gpio.ReadConfiguration` | Sources/HAL/sources/gpio.c:160-164 | the five reads, in order, return the pin's configuration |
| `Gpio.SetConfiguration` | Sources/HAL/sources/gpio.c:168-180 | a valid argument enables the port clock and writes the five fields, in that order; an invalid one (debug build) raises HAL_GPIO_FAILURE once and touches no register |
| `Gpio.WriteConfiguration` | Sources/HAL/sources/gpio.c:173-178 | the six writes, in order |
| `Gpio.SetOutputState` | Sources/HAL/sources/gpio.c:182-197 | sets the pin's set bit in BSRR for true and its reset bit for false; an invalid argument (debug build) raises HAL_GPIO_FAILURE and touches no register; a release build sets BSRR bit `number` (or `number + 16`) for any pin number whose bit exists, pins 16 to 31 included |
| `Gpio.OutOfRangeSetResetsLowerPin` | Sources/HAL/sources/gpio.c:188-191 | without the number guard, setting pin 16 to 31 to true writes the reset bit of pin `number - 16` and drives that pin low |
| `Gpio.GetInputState` | Sources/HAL/sources/gpio.c:199-204 | returns the pin's IDR bit; an invalid argument (debug build) raises HAL_GPIO_FAILURE and returns false; a release build reads IDR bit `number` for any number up to 31 |
| `Gpio.GetOutputState` | Sources/HAL/sources/gpio.c:206-211 | returns the pin's ODR bit; an invalid argument (debug build) raises HAL_GPIO_FAILURE and returns false; a release build reads ODR bit `number` for any number up to 31 |
| `Supervisor.AdcToVoltageNearest` | Sources/Supervisor/sources/supervisor.c:158-161 | neither the 32-bit product nor the 16-bit cast ever truncates: the voltage is the one nearest to adc * 2000 / 4095 |
| `Supervisor.AdcToVoltageEnds` | Sources/Supervisor/sources/supervisor.c:42-43 | ADC 0 converts to 0 and ADC 0xFFF to 2000 (20.00 V) |
| `Supervisor.AdcToVoltageMonotone` | Sources/Supervisor/sources/supervisor.c:158-161 | a larger ADC value never gives a smaller voltage |
| `Supervisor.AdcToVoltageAtMostFullScale` | Sources/Supervisor/sources/supervisor.c:158-161 | a 12-bit ADC value converts to at most 2000 |
| `Supervisor.OnSample` | Sources/Supervisor/sources/supervisor.c:136-146 | after a callback fewer than ten samples are pending, and the voltage changes only when a window completes |
| `Supervisor.OnSampleAccumulates` | Sources/Supervisor/sources/supervisor.c:136-146 | the callback keeps its invariant: the pending results are `samples` many and sum to `sampleSum` modulo 2^16 |
| `Supervisor.AccumulatesExactly` | Sources/Supervisor/sources/supervisor.c:52-53 | with 12-bit results `sampleSum` is exactly the pending sum, at most 9 * 0xFFF: the uint16_t never wraps |
| `Supervisor.PendingSample` | Sources/Supervisor/sources/supervisor.c:138-139 | a result that does not complete the window is added to the pending count and sum, and the voltage stays |
| `Supervisor.FeedPartial` | Sources/Supervisor/sources/supervisor.c:136-146 | after a reset, fewer than ten 12-bit results are all pending, summed exactly, and the voltage is unchanged |
| `Supervisor.CompleteWindow` | Sources/Supervisor/sources/supervisor.c:139-144 | the tenth result sets the voltage from the rounded mean and resets both counters |
| `Supervisor.WindowAverage` | Sources/Supervisor/sources/supervisor.c:136-146 | ten 12-bit results after a reset give AdcToVoltage(DIVIDE_AND_ROUND(sum, 10)) and reset both counters; their sum is at most 40950 and fits in `sampleSum` |
| `Supervisor.FeedAppend` | Sources/Supervisor/sources/supervisor.c:136-146 | callbacks compose: running two sequences of results is running their concatenation |
| `Supervisor.WindowThenRest` | Sources/Supervisor/sources/supervisor.c:142-143 | after a complete window of 12-bit results the later results start from reset counters holding that window's voltage |
| `Supervisor.ConsecutiveWindows` | Sources/Supervisor/sources/supervisor.c:136-146 | two consecutive windows of 12-bit results leave the voltage of the second window, whatever the first held |
| `Supervisor.AddModulo16` | Sources/Supervisor/sources/supervisor.c:138 | adding to a sum kept modulo 2^16 gives the full sum modulo 2^16, as the uint16_t `sampleSum +=` does |
| `Supervisor.WorkedConversions` | Sources/Supervisor/sources/supervisor.c:158-161 | the rounding and conversion steps of the two worked examples |
| `Supervisor.Example0x999` | Sources/Supervisor/sources/supervisor.c:136-161 | ten results of 0x999 read 1200 (12.00 V) |
| `Supervisor.Example0x805` | Sources/Supervisor/sources/supervisor.c:136-161 | ten results of 0x805 read 1003 (10.03 V) |
| `Supervisor.VoltageSupervisor.constructor` | Sources/Supervisor/sources/supervisor.c:51-54 | the statics start uninitialised and zero, and the invariant holds |
| `Supervisor.VoltageSupervisor.Init` | Sources/Supervisor/sources/supervisor.c:76-91 | calls HalAdc_Init with ADC1 at 12 bits and returns its code verbatim; only ERROR_OK marks the module initialised |
| `Supervisor.VoltageSupervisor.Start` | Sources/Supervisor/sources/supervisor.c:93-108 | when initialised: zeroes the statics and registers the task at 100 ms, returning the scheduler's code; the reset happens whatever that code is. Otherwise: ERROR_INVALID_ACTION, no call, nothing changed |
| `Supervisor.VoltageSupervisor.Stop` | Sources/Supervisor/sources/supervisor.c:110-125 | when initialised: deletes the task, returns the scheduler's code, zeroes the statics whatever it is, and stays initialised. Otherwise: ERROR_INVALID_ACTION, no call, nothing changed |
| `Supervisor.VoltageSupervisor.GetVoltage` | Sources/Supervisor/sources/supervisor.c:127-130 | returns the latest voltage and changes nothing |
| `Supervisor.VoltageSupervisor.AdcCallback` | Sources/Supervisor/sources/supervisor.c:136-146 | the statics after the callback are `OnSample` of the statics before, and the invariant is kept |
| `Supervisor.VoltageSupervisor.Task` | Sources/Supervisor/sources/supervisor.c:148-156 | starts a conversion on ADC1 and raises SUPERVISOR_FAILURE once exactly when that does not return ERROR_OK; the statics do not change |

## Left out

- HalRegs.SetBitfield: the frame of SET_BITFIELD is not proved for an arbitrary mask and position. That bit-vector proof exceeds the verifier's resource bound. It is proved for the two masks the GPIO driver uses (`Gpio.TwoBitFieldFrame`, `Gpio.FourBitFieldFrame`), and `Gpio.ConfigurationKeepsOtherPins` covers the other pins.
- Gpio.GetMode, Gpio.GetSpeed, Gpio.GetPull, Gpio.GetAlternateFunction, Gpio.SetMode, Gpio.SetSpeed, Gpio.SetPull, Gpio.SetAlternateFunction, Gpio.ConfigurationRoundTrip and Gpio.ConfigurationKeepsOtherPins use GET_BITFIELD and SET_BITFIELD as hal.h documents them, not hal_regs.h as written. As written, gpio.c does not compile, and every field but pin 0's would read as 0; see "## Findings".
- HalRegs.Registers: registers are plain storage. BSRR's effect on ODR is given only by the separate reference function `Gpio.OdrAfterBsrrWrite`, and IDR's contents come from the pins, which are not modelled. Volatile access and the hardware's timing are not modelled either.
- Supervisor.VoltageSupervisor.AdcCallback: the callback is modelled for whatever results it is given. The invariant keeps `sampleSum` exact only for 12-bit results; see `AccumulatesExactly`.
- The bodies of HalAdc_Init, HalAdc_StartConversion, Scheduler_CreateTask, Scheduler_DeleteTask and System_RaiseError are not part of this model. Their results are method parameters, and the calls are logged (`calls`, `System.raised`).
- The function pointers passed to the ADC driver and the scheduler (the module's callback and task) are not recorded. They are always this module's own.
- Interrupt and timer context is not modelled. Calls are a sequence of discrete events, with no concurrency and no time.
  - A callback that arrives after Supervisor_Stop is processed like any other, as the code does.
- The device header stm32f429xx.h is not part of this model. The field positions, masks and clock enable bits in `device.dfy` are the STM32F429 values.
- The GPIO type definitions (GpioPin_t, GpioConfig_t and the mode, speed, pull and alternate function enumerations) are not part of this model.
  - Ports are 0 to 10.
  - The enumerations are kept as the register values they are cast to and from.
- An out-of-range port indexes past apGpios, which is undefined behaviour in C. The model's port type excludes it.
- In a release build the guards are compiled out, and some arguments then give undefined behaviour in C. The public GPIO methods require those arguments to be absent in that build:
  - a NULL pointer, in every public function;
  - a pin number of 16 or more in GetConfiguration and SetConfiguration, whose field positions then reach 32 or more;
  - a pin number of 32 or more in GetInputState and GetOutputState, and for SetOutputState a number whose BSRR bit, `number` or `number + 16`, would be 32 or more.
- Gpio.GetInputState, Gpio.GetOutputState: for pin numbers 16 to 31 in a release build the model returns the stored register bit. On the STM32F429 those IDR and ODR bits are reserved and read as 0, which plain register storage does not capture.
- Utils.DivideAndRound: operands are unbounded, so the 32-bit wrap of `a + (b >> 1)` for uint32_t operands is not written out. In the modelled code the largest such sum is 131,070,000 + 2047, far below 2^32.
- Voltage thresholds, hysteresis, under- and over-voltage warnings and the alarm pin are not modelled. They appear only in a header comment and in unused enumeration values, and supervisor.c implements none of them.
- UTILS_ARRAY_LENGTH and System_ClearError, System_RaiseWarning and System_ClearWarning are not used by the modelled code.
- supervisor.h declares Supervisor_Init as returning void, but supervisor.c returns Error_t. The model follows supervisor.c.
- The comment on SAMPLE_LIMIT speaks of 8 samples per average, but the constant is 10. The model follows the constant.
- system.h declares only SUPERVISOR_FAILURE, yet gpio.c raises HAL_GPIO_FAILURE. The model has both flags.
- The unit tests and mocks are not modelled. They replace the macros and the device registers with mocks.

## Findings

| source | as written | input that shows it | evidently intended | confidence | as-written member | corrected member |
|---|---|---|---|---|---|---|
| Sources/HAL/include/hal_regs.h:52 | GET_BITFIELD_ shifts the register LEFT by the position before masking | GET_BITFIELD(0xABCD, 5, 0x7) gives 0, where hal.h:85-92 documents 0x6. Every field that starts above bit 0 reads 0, e.g. the mode of any pin but pin 0 | shift right, then mask: (register >> position) & mask | high; not executed | `HalRegs.GetBitfieldAsWrittenMissesExample` (also `HalRegs.GetBitfieldAsWrittenReadsZero`) | `HalRegs.GetBitfield`, with `HalRegs.DocumentedExamples` and `HalRegs.GetBitfieldAfterSet` |
| Sources/HAL/include/hal_regs.h:45-51 | SET_BITFIELD_ stores `regTemp`, which is never declared, so no use of the macro compiles. Its body also ANDs the register with the shifted mask instead of its complement | SET_BITFIELD(0xFFFF, 5, 0x7, 0x2), reading `regTemp` as `regTemp_`, gives 0xE0, where hal.h:76-83 documents 0xFF5F | clear the field, then OR in the pattern: (register & ~(mask << position)), then OR in (pattern << position), stored back | high; not executed | `HalRegs.SetBitfieldAsWrittenMissesExample` | `HalRegs.SetBitfield`, with `HalRegs.DocumentedExamples` and `HalRegs.GetBitfieldAfterSet` |
