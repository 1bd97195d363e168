/**
 * The GPIO driver: pin configuration (mode, output type, speed, pull and
 * alternate function) and pin state, each operation a fixed sequence of
 * register primitives on the port's register block.
 *
 * The driver has no state of its own: what it changes is the register file
 * `hw` and the system error service `system`, both passed in. `build` says
 * whether the argument guards are compiled in.
 */
module Gpio {
  import opened Types
  import opened Utils
  import opened HalRegs
  import opened Device

  const BITS_IN_MODE: bv5 := GPIO_MODER_MODER1_POS
  const MODE_MASK: bv32 := GPIO_MODER_MODER0_MSK
  const BITS_IN_SPEED: bv5 := GPIO_OSPEEDR_OSPEED1_POS
  const SPEED_MASK: bv32 := GPIO_OSPEEDR_OSPEED0_MSK
  const BITS_IN_PULL: bv5 := GPIO_PUPDR_PUPD1_POS
  const PULL_MASK: bv32 := GPIO_PUPDR_PUPD0_MSK
  const BITS_IN_AF: bv5 := GPIO_AFRL_AFSEL1_POS
  const AF_MASK: bv32 := GPIO_AFRL_AFSEL0_MSK
  const BIT_CLEAR_OFFSET: bv5 := GPIO_BSRR_BR0_POS
  const MAX_PINS: bv8 := 16
  const AF_LOW_REGISTER_LIMIT: bv8 := 8

  /** GpioPort_t: portA (0) to portK (10). */
  type GpioPort = p: nat | p < 11

  /** GpioPin_t: a port and a pin number within it. */
  datatype GpioPin = GpioPin(port: GpioPort, number: bv8)

  /**
   * GpioConfig_t. The enumerations are kept as the register values they
   * are cast from and to (mode, speed and pull are 2-bit fields, the
   * alternate function a 4-bit one).
   */
  datatype GpioConfig = GpioConfig(pin: GpioPin, mode: bv32, isOpenDrain: bool, speed: bv32, pull: bv32, alternateFunction: bv32)

  /** apGpios: the register block of each port. */
  const GPIOS: seq<GpioBlock> := [GPIOA, GPIOB, GPIOC, GPIOD, GPIOE, GPIOF, GPIOG, GPIOH, GPIOI, GPIOJ, GPIOK]

  /** clockEnableBits: the AHB1ENR clock enable bit of each port. */
  const CLOCK_ENABLE_BITS: seq<bv5> := [
    RCC_AHB1ENR_GPIOAEN_POS, RCC_AHB1ENR_GPIOBEN_POS, RCC_AHB1ENR_GPIOCEN_POS, RCC_AHB1ENR_GPIODEN_POS,
    RCC_AHB1ENR_GPIOEEN_POS, RCC_AHB1ENR_GPIOFEN_POS, RCC_AHB1ENR_GPIOGEN_POS, RCC_AHB1ENR_GPIOHEN_POS,
    RCC_AHB1ENR_GPIOIEN_POS, RCC_AHB1ENR_GPIOJEN_POS, RCC_AHB1ENR_GPIOKEN_POS]

  /** GPIO(pin): the register block of the pin's port. */
  function Block(pin: GpioPin): GpioBlock {
    GPIOS[pin.port]
  }

  /** The number guard the public functions apply: number < MAX_PINS. */
  predicate ValidNumber(pin: GpioPin) {
    pin.number < MAX_PINS
  }

  /**
   * Whether the pin number names a bit of a 32-bit register. A release build
   * compiles the number guard out, so the pin state functions then act on
   * any such number, the pins 16 to 31 that do not exist included.
   */
  predicate InRegister(pin: GpioPin) {
    pin.number < 32
  }

  /** The pin number as a bit position. */
  function NumberBit(pin: GpioPin): bv5
    requires InRegister(pin)
  {
    pin.number as bv5
  }

  /** MODE_POSITION(pin). */
  function ModePosition(pin: GpioPin): bv5
    requires ValidNumber(pin)
  {
    NumberBit(pin) * BITS_IN_MODE
  }

  /** SPEED_POSITION(pin). */
  function SpeedPosition(pin: GpioPin): bv5
    requires ValidNumber(pin)
  {
    NumberBit(pin) * BITS_IN_SPEED
  }

  /** PULL_POSITION(pin). */
  function PullPosition(pin: GpioPin): bv5
    requires ValidNumber(pin)
  {
    NumberBit(pin) * BITS_IN_PULL
  }

  /** The alternate function register of the pin: AFR[0] below pin 8, AFR[1] from pin 8. */
  function AfRegister(pin: GpioPin): Reg
    requires ValidNumber(pin)
  {
    if pin.number < AF_LOW_REGISTER_LIMIT then Afr(Block(pin), 0) else Afr(Block(pin), 1)
  }

  /** AFRL_POSITION(pin) below pin 8, AFRH_POSITION(pin) from pin 8. */
  function AfPosition(pin: GpioPin): bv5
    requires ValidNumber(pin)
  {
    if pin.number < AF_LOW_REGISTER_LIMIT then NumberBit(pin) * BITS_IN_AF
    else (NumberBit(pin) - AF_LOW_REGISTER_LIMIT as bv5) * BITS_IN_AF
  }

  /**
   * The fields of a pin lie inside their registers (a 2-bit field starts at
   * bit 30 at the latest, a 4-bit one at bit 28), and the fields of two
   * different pins of a port never overlap.
   */
  lemma FieldSlots(p: GpioPin, q: GpioPin)
    requires ValidNumber(p) && ValidNumber(q)
    ensures ModePosition(p) <= 30 && AfPosition(p) <= 28
    ensures SpeedPosition(p) == ModePosition(p) && PullPosition(p) == ModePosition(p)
    ensures p.number != q.number ==>
      ModePosition(p) as int + 2 <= ModePosition(q) as int || ModePosition(q) as int + 2 <= ModePosition(p) as int
    ensures p.number != q.number && AfRegister(p) == AfRegister(q) ==>
      AfPosition(p) as int + 4 <= AfPosition(q) as int || AfPosition(q) as int + 4 <= AfPosition(p) as int
  {
  }

  /** Whether the BSRR bit SetOutputState sets for `state`, number or number + 16, lies inside the register. */
  predicate OutputStateBitInRange(pin: GpioPin, state: bool) {
    pin.number as int + (if state then 0 else BIT_CLEAR_OFFSET as int) < 32
  }

  /** The bit SetOutputState sets in BSRR: the pin's set bit, or its reset bit 16 places higher. */
  function OutputStateBit(pin: GpioPin, state: bool): bv5
    requires OutputStateBitInRange(pin, state)
  {
    if state then NumberBit(pin) else NumberBit(pin) + BIT_CLEAR_OFFSET
  }

  /** Each pin and state has its own BSRR bit: set bits are 0-15, reset bits 16-31. */
  lemma OutputStateBitInjective(p: GpioPin, s: bool, q: GpioPin, t: bool)
    requires ValidNumber(p) && ValidNumber(q)
    ensures OutputStateBit(p, s) == OutputStateBit(q, t) <==> p.number == q.number && s == t
    ensures OutputStateBit(p, s) < 16 <==> s
  {
  }

  /**
   * The port's output data register after `written` is stored in BSRR, as
   * the STM32F429 reference manual defines the bit set/reset register:
   * a 1 in bit i < 16 sets ODR bit i, a 1 in bit i + 16 resets it, and a set
   * takes priority over a reset of the same bit.
   */
  function OdrAfterBsrrWrite(odr: bv32, written: bv32): bv32 {
    (odr & !((written >> 16) & 0xFFFF)) | (written & 0xFFFF)
  }

  /**
   * Writing the bit SetOutputState chooses (BSRR reads as zero, so SET_BIT
   * writes that bit alone) drives the pin's output to `state`.
   */
  lemma OutputStateDrivesOdr(odr: bv32, pin: GpioPin, state: bool)
    requires ValidNumber(pin)
    ensures GetBit(OdrAfterBsrrWrite(odr, Bit(OutputStateBit(pin, state))), NumberBit(pin)) == state
  {
  }

  /**
   * Without the number guard (a release build), SetOutputState(pin, true)
   * for a number from 16 to 31 sets the reset bit of pin number - 16 of the
   * same port: it drives that pin low.
   */
  lemma OutOfRangeSetResetsLowerPin(odr: bv32, pin: GpioPin)
    requires 16 <= pin.number < 32
    ensures var lower := GpioPin(pin.port, pin.number - 16);
      && ValidNumber(lower)
      && OutputStateBit(pin, true) == OutputStateBit(lower, false)
      && !GetBit(OdrAfterBsrrWrite(odr, Bit(OutputStateBit(pin, true))), NumberBit(lower))
  {
    var lower := GpioPin(pin.port, pin.number - 16);
    assert OutputStateBit(pin, true) == OutputStateBit(lower, false);
    OutputStateDrivesOdr(odr, lower, false);
  }

  /** Every field fits its mask, as the enumerations do. */
  predicate WellFormed(c: GpioConfig) {
    ValidNumber(c.pin)
    && c.mode & MODE_MASK == c.mode
    && c.speed & SPEED_MASK == c.speed
    && c.pull & PULL_MASK == c.pull
    && c.alternateFunction & AF_MASK == c.alternateFunction
  }

  /** HalGpio_EnablePortClock(port): SET_BIT on the port's AHB1ENR clock enable bit. */
  function ClockEnable(port: GpioPort): RegOp<Reg> {
    SetBitOp(RccAhb1enr, CLOCK_ENABLE_BITS[port])
  }

  /** HalGpio_SetMode(pin, mode): SET_BITFIELD on the pin's MODER field. */
  function ModeWrite(pin: GpioPin, mode: bv32): RegOp<Reg>
    requires ValidNumber(pin)
  {
    SetBitfieldOp(Moder(Block(pin)), ModePosition(pin), MODE_MASK, mode)
  }

  /** HalGpio_SetOpenDrain(pin, isOpenDrain): SET_BIT or CLEAR_BIT on the pin's OTYPER bit. */
  function OpenDrainWrite(pin: GpioPin, isOpenDrain: bool): RegOp<Reg>
    requires ValidNumber(pin)
  {
    if isOpenDrain then SetBitOp(Otyper(Block(pin)), NumberBit(pin)) else ClearBitOp(Otyper(Block(pin)), NumberBit(pin))
  }

  /** HalGpio_SetSpeed(pin, speed): SET_BITFIELD on the pin's OSPEEDR field. */
  function SpeedWrite(pin: GpioPin, speed: bv32): RegOp<Reg>
    requires ValidNumber(pin)
  {
    SetBitfieldOp(Ospeedr(Block(pin)), SpeedPosition(pin), SPEED_MASK, speed)
  }

  /** HalGpio_SetPull(pin, pull): SET_BITFIELD on the pin's PUPDR field. */
  function PullWrite(pin: GpioPin, pull: bv32): RegOp<Reg>
    requires ValidNumber(pin)
  {
    SetBitfieldOp(Pupdr(Block(pin)), PullPosition(pin), PULL_MASK, pull)
  }

  /** HalGpio_SetAlternateFunction(pin, af): SET_BITFIELD on the pin's field of AFR[0] or AFR[1]. */
  function AfWrite(pin: GpioPin, af: bv32): RegOp<Reg>
    requires ValidNumber(pin)
  {
    SetBitfieldOp(AfRegister(pin), AfPosition(pin), AF_MASK, af)
  }

  /** The register accesses of HalGpio_SetConfiguration, in order. */
  function ConfigWriteOps(c: GpioConfig): seq<RegOp<Reg>>
    requires ValidNumber(c.pin)
  {
    [ ClockEnable(c.pin.port), ModeWrite(c.pin, c.mode), OpenDrainWrite(c.pin, c.isOpenDrain),
      SpeedWrite(c.pin, c.speed), PullWrite(c.pin, c.pull), AfWrite(c.pin, c.alternateFunction) ]
  }

  /** HalGpio_GetMode(pin): GET_BITFIELD on the pin's MODER field. */
  function ModeRead(pin: GpioPin): RegOp<Reg>
    requires ValidNumber(pin)
  {
    GetBitfieldOp(Moder(Block(pin)), ModePosition(pin), MODE_MASK)
  }

  /** HalGpio_IsOpenDrain(pin): GET_BIT on the pin's OTYPER bit. */
  function OpenDrainRead(pin: GpioPin): RegOp<Reg>
    requires ValidNumber(pin)
  {
    GetBitOp(Otyper(Block(pin)), NumberBit(pin))
  }

  /** HalGpio_GetSpeed(pin): GET_BITFIELD on the pin's OSPEEDR field. */
  function SpeedRead(pin: GpioPin): RegOp<Reg>
    requires ValidNumber(pin)
  {
    GetBitfieldOp(Ospeedr(Block(pin)), SpeedPosition(pin), SPEED_MASK)
  }

  /** HalGpio_GetPull(pin): GET_BITFIELD on the pin's PUPDR field. */
  function PullRead(pin: GpioPin): RegOp<Reg>
    requires ValidNumber(pin)
  {
    GetBitfieldOp(Pupdr(Block(pin)), PullPosition(pin), PULL_MASK)
  }

  /** HalGpio_GetAlternateFunction(pin): GET_BITFIELD on the pin's field of AFR[0] or AFR[1]. */
  function AfRead(pin: GpioPin): RegOp<Reg>
    requires ValidNumber(pin)
  {
    GetBitfieldOp(AfRegister(pin), AfPosition(pin), AF_MASK)
  }

  /** The register accesses of HalGpio_GetConfiguration, in order. */
  function ConfigReadOps(pin: GpioPin): seq<RegOp<Reg>>
    requires ValidNumber(pin)
  {
    [ModeRead(pin), OpenDrainRead(pin), SpeedRead(pin), PullRead(pin), AfRead(pin)]
  }

  /** The configuration of `pin` as HalGpio_GetConfiguration reads it from register file `m`. */
  function ReadConfig(m: map<Reg, bv32>, pin: GpioPin): GpioConfig
    requires ValidNumber(pin)
  {
    var b := Block(pin);
    GpioConfig(
      pin,
      GetBitfield(Value(m, Moder(b)), ModePosition(pin), MODE_MASK),
      GetBit(Value(m, Otyper(b)), NumberBit(pin)),
      GetBitfield(Value(m, Ospeedr(b)), SpeedPosition(pin), SPEED_MASK),
      GetBitfield(Value(m, Pupdr(b)), PullPosition(pin), PULL_MASK),
      GetBitfield(Value(m, AfRegister(pin)), AfPosition(pin), AF_MASK))
  }

  /** A 2-bit field written at a position at most 30 reads back as written. */
  lemma TwoBitFieldRoundTrip(register: bv32, position: bv5, pattern: bv32)
    requires pattern & 0x3 == pattern && position <= 30
    ensures GetBitfield(SetBitfield(register, position, 0x3, pattern), position, 0x3) == pattern
  {
  }

  /** A 4-bit field written at a position at most 28 reads back as written. */
  lemma FourBitFieldRoundTrip(register: bv32, position: bv5, pattern: bv32)
    requires pattern & 0xF == pattern && position <= 28
    ensures GetBitfield(SetBitfield(register, position, 0xF, pattern), position, 0xF) == pattern
  {
  }

  /** A 2-bit field write at a position at most 30 keeps every register bit outside the field. */
  lemma TwoBitFieldFrame(register: bv32, position: bv5, pattern: bv32)
    requires pattern & 0x3 == pattern && position <= 30
    ensures SetBitfield(register, position, 0x3, pattern) & !(0x3 << position) == register & !(0x3 << position)
  {
  }

  /** A 4-bit field write at a position at most 28 keeps every register bit outside the field. */
  lemma FourBitFieldFrame(register: bv32, position: bv5, pattern: bv32)
    requires pattern & 0xF == pattern && position <= 28
    ensures SetBitfield(register, position, 0xF, pattern) & !(0xF << position) == register & !(0xF << position)
  {
  }

  /** Writing one pin's 2-bit field leaves the 2-bit field of every other pin as it was. */
  lemma TwoBitFieldOtherPin(register: bv32, p: GpioPin, q: GpioPin, pattern: bv32)
    requires ValidNumber(p) && ValidNumber(q) && p.number != q.number
    requires pattern & 0x3 == pattern
    ensures GetBitfield(SetBitfield(register, ModePosition(p), 0x3, pattern), ModePosition(q), 0x3)
         == GetBitfield(register, ModePosition(q), 0x3)
  {
  }

  /** Writing one pin's alternate function leaves that of every other pin in the same register as it was. */
  lemma FourBitFieldOtherPin(register: bv32, p: GpioPin, q: GpioPin, pattern: bv32)
    requires ValidNumber(p) && ValidNumber(q) && p.number != q.number && AfRegister(p) == AfRegister(q)
    requires pattern & 0xF == pattern
    ensures GetBitfield(SetBitfield(register, AfPosition(p), 0xF, pattern), AfPosition(q), 0xF)
         == GetBitfield(register, AfPosition(q), 0xF)
  {
    var i := if p.number < AF_LOW_REGISTER_LIMIT then NumberBit(p) else NumberBit(p) - 8;
    var j := if q.number < AF_LOW_REGISTER_LIMIT then NumberBit(q) else NumberBit(q) - 8;
    FourBitSlots(register, i, j, pattern);
  }

  /** The 4-bit fields of slots i and j of a register do not overlap. */
  lemma FourBitSlots(register: bv32, i: bv5, j: bv5, pattern: bv32)
    requires i < 8 && j < 8 && i != j
    requires pattern & 0xF == pattern
    ensures GetBitfield(SetBitfield(register, i * 4, 0xF, pattern), j * 4, 0xF) == GetBitfield(register, j * 4, 0xF)
  {
  }

  /**
   * SetConfiguration writes each register it touches exactly once: every
   * register afterwards is the one primitive applied to its old value.
   */
  lemma ConfigWriteEffect(m: map<Reg, bv32>, c: GpioConfig)
    requires ValidNumber(c.pin)
    ensures var m', pin, b := ApplyAll(m, ConfigWriteOps(c)), c.pin, Block(c.pin);
      && Value(m', RccAhb1enr) == SetBitValue(Value(m, RccAhb1enr), CLOCK_ENABLE_BITS[pin.port])
      && Value(m', Moder(b)) == SetBitfield(Value(m, Moder(b)), ModePosition(pin), MODE_MASK, c.mode)
      && Value(m', Otyper(b)) == (if c.isOpenDrain then SetBitValue(Value(m, Otyper(b)), NumberBit(pin))
                                  else ClearBitValue(Value(m, Otyper(b)), NumberBit(pin)))
      && Value(m', Ospeedr(b)) == SetBitfield(Value(m, Ospeedr(b)), SpeedPosition(pin), SPEED_MASK, c.speed)
      && Value(m', Pupdr(b)) == SetBitfield(Value(m, Pupdr(b)), PullPosition(pin), PULL_MASK, c.pull)
      && Value(m', AfRegister(pin)) == SetBitfield(Value(m, AfRegister(pin)), AfPosition(pin), AF_MASK, c.alternateFunction)
  {
    var ops := ConfigWriteOps(c);
    ConfigWriteRegsDistinct(c);
    ApplyAllDistinct(m, ops, 0);
    ApplyAllDistinct(m, ops, 1);
    ApplyAllDistinct(m, ops, 2);
    ApplyAllDistinct(m, ops, 3);
    ApplyAllDistinct(m, ops, 4);
    ApplyAllDistinct(m, ops, 5);
  }

  /** SetConfiguration touches six different registers. */
  lemma ConfigWriteRegsDistinct(c: GpioConfig)
    requires ValidNumber(c.pin)
    ensures DistinctRegs(ConfigWriteOps(c))
  {
    var ops := ConfigWriteOps(c);
    assert ops[0].reg == RccAhb1enr && ops[1].reg == Moder(Block(c.pin)) && ops[2].reg == Otyper(Block(c.pin));
    assert ops[3].reg == Ospeedr(Block(c.pin)) && ops[4].reg == Pupdr(Block(c.pin)) && ops[5].reg.Afr?;
  }

  /**
   * Reading the configuration back after setting it returns what was set,
   * and the port's clock is enabled, whatever the registers held before.
   */
  lemma ConfigurationRoundTrip(m: map<Reg, bv32>, c: GpioConfig)
    requires WellFormed(c)
    ensures ReadConfig(ApplyAll(m, ConfigWriteOps(c)), c.pin) == c
    ensures GetBit(Value(ApplyAll(m, ConfigWriteOps(c)), RccAhb1enr), CLOCK_ENABLE_BITS[c.pin.port])
  {
    var pin, b, m' := c.pin, Block(c.pin), ApplyAll(m, ConfigWriteOps(c));
    ConfigWriteEffect(m, c);
    FieldSlots(pin, pin);
    assert GetBitfield(Value(m', Moder(b)), ModePosition(pin), MODE_MASK) == c.mode by {
      TwoBitFieldRoundTrip(Value(m, Moder(b)), ModePosition(pin), c.mode);
    }
    assert GetBit(Value(m', Otyper(b)), NumberBit(pin)) == c.isOpenDrain by {
      GetBitAfterSetAndClear(Value(m, Otyper(b)), NumberBit(pin));
    }
    assert GetBitfield(Value(m', Ospeedr(b)), SpeedPosition(pin), SPEED_MASK) == c.speed by {
      TwoBitFieldRoundTrip(Value(m, Ospeedr(b)), SpeedPosition(pin), c.speed);
    }
    assert GetBitfield(Value(m', Pupdr(b)), PullPosition(pin), PULL_MASK) == c.pull by {
      TwoBitFieldRoundTrip(Value(m, Pupdr(b)), PullPosition(pin), c.pull);
    }
    assert GetBitfield(Value(m', AfRegister(pin)), AfPosition(pin), AF_MASK) == c.alternateFunction by {
      FourBitFieldRoundTrip(Value(m, AfRegister(pin)), AfPosition(pin), c.alternateFunction);
    }
    GetBitAfterSetAndClear(Value(m, RccAhb1enr), CLOCK_ENABLE_BITS[pin.port]);
  }

  /** SET_BIT or CLEAR_BIT on one pin's OTYPER bit leaves every other pin's bit as it was. */
  lemma OpenDrainOtherPin(register: bv32, p: GpioPin, q: GpioPin, isOpenDrain: bool)
    requires ValidNumber(p) && ValidNumber(q) && p.number != q.number
    ensures var written := if isOpenDrain then SetBitValue(register, NumberBit(p)) else ClearBitValue(register, NumberBit(p));
      GetBit(written, NumberBit(q)) == GetBit(register, NumberBit(q))
  {
  }

  /** Different ports have different register blocks. */
  lemma BlocksDistinct(p: GpioPin, q: GpioPin)
    requires p.port != q.port
    ensures Block(p) != Block(q)
  {
  }

  /**
   * Setting a pin's configuration leaves the configuration of every other
   * pin, of the same port or of another, as it was.
   */
  lemma ConfigurationKeepsOtherPins(m: map<Reg, bv32>, c: GpioConfig, q: GpioPin)
    requires WellFormed(c) && ValidNumber(q)
    requires q.port != c.pin.port || q.number != c.pin.number
    ensures ReadConfig(ApplyAll(m, ConfigWriteOps(c)), q) == ReadConfig(m, q)
  {
    if q.port != c.pin.port {
      OtherPortUntouched(m, c, q);
    } else {
      SamePortOtherPin(m, c, q);
    }
  }

  /** A pin of another port is read from registers the writes do not touch. */
  lemma OtherPortUntouched(m: map<Reg, bv32>, c: GpioConfig, q: GpioPin)
    requires ValidNumber(c.pin) && ValidNumber(q) && q.port != c.pin.port
    ensures ReadConfig(ApplyAll(m, ConfigWriteOps(c)), q) == ReadConfig(m, q)
  {
    var ops, b := ConfigWriteOps(c), Block(q);
    BlocksDistinct(c.pin, q);
    ConfigWritesOwnPort(c, Moder(b));
    ApplyAllUntouched(m, ops, Moder(b));
    ConfigWritesOwnPort(c, Otyper(b));
    ApplyAllUntouched(m, ops, Otyper(b));
    ConfigWritesOwnPort(c, Ospeedr(b));
    ApplyAllUntouched(m, ops, Ospeedr(b));
    ConfigWritesOwnPort(c, Pupdr(b));
    ApplyAllUntouched(m, ops, Pupdr(b));
    ConfigWritesOwnPort(c, AfRegister(q));
    ApplyAllUntouched(m, ops, AfRegister(q));
  }

  /** SetConfiguration writes only AHB1ENR and registers of the pin's own port. */
  lemma ConfigWritesOwnPort(c: GpioConfig, r: Reg)
    requires ValidNumber(c.pin)
    requires !r.RccAhb1enr? && r.block != Block(c.pin)
    ensures forall i :: 0 <= i < |ConfigWriteOps(c)| ==> ConfigWriteOps(c)[i].reg != r
  {
  }

  /** Another pin of the same port keeps its fields, which lie beside the written ones. */
  lemma SamePortOtherPin(m: map<Reg, bv32>, c: GpioConfig, q: GpioPin)
    requires WellFormed(c) && ValidNumber(q)
    requires q.port == c.pin.port && q.number != c.pin.number
    ensures ReadConfig(ApplyAll(m, ConfigWriteOps(c)), q) == ReadConfig(m, q)
  {
    ModeKept(m, c, q);
    OpenDrainKept(m, c, q);
    SpeedKept(m, c, q);
    PullKept(m, c, q);
    AfKept(m, c, q);
  }

  /** SetConfiguration keeps the MODER field of another pin of the same port. */
  lemma ModeKept(m: map<Reg, bv32>, c: GpioConfig, q: GpioPin)
    requires WellFormed(c) && ValidNumber(q)
    requires q.port == c.pin.port && q.number != c.pin.number
    ensures var r := Moder(Block(q));
      GetBitfield(Value(ApplyAll(m, ConfigWriteOps(c)), r), ModePosition(q), MODE_MASK) == GetBitfield(Value(m, r), ModePosition(q), MODE_MASK)
  {
    ConfigWriteEffect(m, c);
    TwoBitFieldOtherPin(Value(m, Moder(Block(q))), c.pin, q, c.mode);
  }

  /** SetConfiguration keeps the OTYPER bit of another pin of the same port. */
  lemma OpenDrainKept(m: map<Reg, bv32>, c: GpioConfig, q: GpioPin)
    requires WellFormed(c) && ValidNumber(q)
    requires q.port == c.pin.port && q.number != c.pin.number
    ensures var r := Otyper(Block(q));
      GetBit(Value(ApplyAll(m, ConfigWriteOps(c)), r), NumberBit(q)) == GetBit(Value(m, r), NumberBit(q))
  {
    ConfigWriteEffect(m, c);
    OpenDrainOtherPin(Value(m, Otyper(Block(q))), c.pin, q, c.isOpenDrain);
  }

  /** SetConfiguration keeps the OSPEEDR field of another pin of the same port. */
  lemma SpeedKept(m: map<Reg, bv32>, c: GpioConfig, q: GpioPin)
    requires WellFormed(c) && ValidNumber(q)
    requires q.port == c.pin.port && q.number != c.pin.number
    ensures var r := Ospeedr(Block(q));
      GetBitfield(Value(ApplyAll(m, ConfigWriteOps(c)), r), SpeedPosition(q), SPEED_MASK) == GetBitfield(Value(m, r), SpeedPosition(q), SPEED_MASK)
  {
    ConfigWriteEffect(m, c);
    TwoBitFieldOtherPin(Value(m, Ospeedr(Block(q))), c.pin, q, c.speed);
  }

  /** SetConfiguration keeps the PUPDR field of another pin of the same port. */
  lemma PullKept(m: map<Reg, bv32>, c: GpioConfig, q: GpioPin)
    requires WellFormed(c) && ValidNumber(q)
    requires q.port == c.pin.port && q.number != c.pin.number
    ensures var r := Pupdr(Block(q));
      GetBitfield(Value(ApplyAll(m, ConfigWriteOps(c)), r), PullPosition(q), PULL_MASK) == GetBitfield(Value(m, r), PullPosition(q), PULL_MASK)
  {
    ConfigWriteEffect(m, c);
    TwoBitFieldOtherPin(Value(m, Pupdr(Block(q))), c.pin, q, c.pull);
  }

  /** SetConfiguration keeps the alternate function field of another pin of the same port. */
  lemma AfKept(m: map<Reg, bv32>, c: GpioConfig, q: GpioPin)
    requires WellFormed(c) && ValidNumber(q)
    requires q.port == c.pin.port && q.number != c.pin.number
    ensures var r := AfRegister(q);
      GetBitfield(Value(ApplyAll(m, ConfigWriteOps(c)), r), AfPosition(q), AF_MASK) == GetBitfield(Value(m, r), AfPosition(q), AF_MASK)
  {
    if AfRegister(q) == AfRegister(c.pin) {
      ConfigWriteEffect(m, c);
      FourBitFieldOtherPin(Value(m, AfRegister(c.pin)), c.pin, q, c.alternateFunction);
    } else {
      ApplyAllUntouched(m, ConfigWriteOps(c), AfRegister(q));
    }
  }

  /** Reading the configuration changes no register. */
  lemma ConfigReadsChangeNothing(m: map<Reg, bv32>, pin: GpioPin)
    requires ValidNumber(pin)
    ensures ApplyAll(m, ConfigReadOps(pin)) == m
  {
    ApplyAllReads(m, ConfigReadOps(pin));
  }

  /** HalGpio_GetMode: reads the pin's MODER field. */
  method GetMode(hw: Registers<Reg>, pin: GpioPin) returns (mode: bv32)
    requires ValidNumber(pin)
    modifies hw`trace
    ensures hw.value == old(hw.value)
    ensures mode == GetBitfield(Value(hw.value, Moder(Block(pin))), ModePosition(pin), MODE_MASK)
    ensures hw.trace == old(hw.trace) + [ModeRead(pin)]
  {
    mode := hw.ReadBitfield(Moder(Block(pin)), ModePosition(pin), MODE_MASK);
  }

  /** HalGpio_IsOpenDrain: reads the pin's OTYPER bit. */
  method IsOpenDrain(hw: Registers<Reg>, pin: GpioPin) returns (isOpenDrain: bool)
    requires ValidNumber(pin)
    modifies hw`trace
    ensures hw.value == old(hw.value)
    ensures isOpenDrain == GetBit(Value(hw.value, Otyper(Block(pin))), NumberBit(pin))
    ensures hw.trace == old(hw.trace) + [OpenDrainRead(pin)]
  {
    isOpenDrain := hw.ReadBit(Otyper(Block(pin)), NumberBit(pin));
  }

  /** HalGpio_GetSpeed: reads the pin's OSPEEDR field. */
  method GetSpeed(hw: Registers<Reg>, pin: GpioPin) returns (speed: bv32)
    requires ValidNumber(pin)
    modifies hw`trace
    ensures hw.value == old(hw.value)
    ensures speed == GetBitfield(Value(hw.value, Ospeedr(Block(pin))), SpeedPosition(pin), SPEED_MASK)
    ensures hw.trace == old(hw.trace) + [SpeedRead(pin)]
  {
    speed := hw.ReadBitfield(Ospeedr(Block(pin)), SpeedPosition(pin), SPEED_MASK);
  }

  /** HalGpio_GetPull: reads the pin's PUPDR field. */
  method GetPull(hw: Registers<Reg>, pin: GpioPin) returns (pull: bv32)
    requires ValidNumber(pin)
    modifies hw`trace
    ensures hw.value == old(hw.value)
    ensures pull == GetBitfield(Value(hw.value, Pupdr(Block(pin))), PullPosition(pin), PULL_MASK)
    ensures hw.trace == old(hw.trace) + [PullRead(pin)]
  {
    pull := hw.ReadBitfield(Pupdr(Block(pin)), PullPosition(pin), PULL_MASK);
  }

  /** HalGpio_GetAlternateFunction: reads the pin's field of AFR[0] or AFR[1]. */
  method GetAlternateFunction(hw: Registers<Reg>, pin: GpioPin) returns (af: bv32)
    requires ValidNumber(pin)
    modifies hw`trace
    ensures hw.value == old(hw.value)
    ensures af == GetBitfield(Value(hw.value, AfRegister(pin)), AfPosition(pin), AF_MASK)
    ensures hw.trace == old(hw.trace) + [AfRead(pin)]
  {
    if pin.number < AF_LOW_REGISTER_LIMIT {
      af := hw.ReadBitfield(Afr(Block(pin), 0), NumberBit(pin) * BITS_IN_AF, AF_MASK);
    } else {
      af := hw.ReadBitfield(Afr(Block(pin), 1), (NumberBit(pin) - AF_LOW_REGISTER_LIMIT as bv5) * BITS_IN_AF, AF_MASK);
    }
  }

  /** HalGpio_EnablePortClock: sets the port's clock enable bit. */
  method EnablePortClock(hw: Registers<Reg>, port: GpioPort)
    modifies hw`value, hw`trace
    ensures hw.value == Apply(old(hw.value), ClockEnable(port))
    ensures hw.trace == old(hw.trace) + [ClockEnable(port)]
  {
    hw.SetBit(RccAhb1enr, CLOCK_ENABLE_BITS[port]);
  }

  /** HalGpio_SetMode: writes the pin's MODER field. */
  method SetMode(hw: Registers<Reg>, pin: GpioPin, mode: bv32)
    requires ValidNumber(pin)
    modifies hw`value, hw`trace
    ensures hw.value == Apply(old(hw.value), ModeWrite(pin, mode))
    ensures hw.trace == old(hw.trace) + [ModeWrite(pin, mode)]
  {
    hw.WriteBitfield(Moder(Block(pin)), ModePosition(pin), MODE_MASK, mode);
  }

  /** HalGpio_SetOpenDrain: sets the pin's OTYPER bit for open drain, clears it for push-pull. */
  method SetOpenDrain(hw: Registers<Reg>, pin: GpioPin, isOpenDrain: bool)
    requires ValidNumber(pin)
    modifies hw`value, hw`trace
    ensures hw.value == Apply(old(hw.value), OpenDrainWrite(pin, isOpenDrain))
    ensures hw.trace == old(hw.trace) + [OpenDrainWrite(pin, isOpenDrain)]
  {
    if isOpenDrain {
      hw.SetBit(Otyper(Block(pin)), NumberBit(pin));
    } else {
      hw.ClearBit(Otyper(Block(pin)), NumberBit(pin));
    }
  }

  /** HalGpio_SetSpeed: writes the pin's OSPEEDR field. */
  method SetSpeed(hw: Registers<Reg>, pin: GpioPin, speed: bv32)
    requires ValidNumber(pin)
    modifies hw`value, hw`trace
    ensures hw.value == Apply(old(hw.value), SpeedWrite(pin, speed))
    ensures hw.trace == old(hw.trace) + [SpeedWrite(pin, speed)]
  {
    hw.WriteBitfield(Ospeedr(Block(pin)), SpeedPosition(pin), SPEED_MASK, speed);
  }

  /** HalGpio_SetPull: writes the pin's PUPDR field. */
  method SetPull(hw: Registers<Reg>, pin: GpioPin, pull: bv32)
    requires ValidNumber(pin)
    modifies hw`value, hw`trace
    ensures hw.value == Apply(old(hw.value), PullWrite(pin, pull))
    ensures hw.trace == old(hw.trace) + [PullWrite(pin, pull)]
  {
    hw.WriteBitfield(Pupdr(Block(pin)), PullPosition(pin), PULL_MASK, pull);
  }

  /** HalGpio_SetAlternateFunction: writes the pin's field of AFR[0] or AFR[1]. */
  method SetAlternateFunction(hw: Registers<Reg>, pin: GpioPin, af: bv32)
    requires ValidNumber(pin)
    modifies hw`value, hw`trace
    ensures hw.value == Apply(old(hw.value), AfWrite(pin, af))
    ensures hw.trace == old(hw.trace) + [AfWrite(pin, af)]
  {
    if pin.number < AF_LOW_REGISTER_LIMIT {
      hw.WriteBitfield(Afr(Block(pin), 0), NumberBit(pin) * BITS_IN_AF, AF_MASK, af);
    } else {
      hw.WriteBitfield(Afr(Block(pin), 1), (NumberBit(pin) - AF_LOW_REGISTER_LIMIT as bv5) * BITS_IN_AF, AF_MASK, af);
    }
  }

  /**
   * HalGpio_GetConfiguration(pGpio). `gpio` is the struct pGpio points to
   * (None for NULL) and `result` the struct afterwards. With a valid
   * argument the five fields are read from the pin's registers and no
   * register changes; otherwise (debug build only) HAL_GPIO_FAILURE is
   * raised once and nothing is read.
   */
  method GetConfiguration(build: Build, hw: Registers<Reg>, system: System, gpio: Option<GpioConfig>)
    returns (result: Option<GpioConfig>)
    requires build.Release? ==> gpio.Some? && ValidNumber(gpio.value.pin)
    modifies hw`trace, system
    ensures hw.value == old(hw.value)
    ensures gpio.Some? && ValidNumber(gpio.value.pin) ==>
      result == Some(ReadConfig(hw.value, gpio.value.pin))
      && hw.trace == old(hw.trace) + ConfigReadOps(gpio.value.pin)
      && system.raised == old(system.raised)
    ensures !(gpio.Some? && ValidNumber(gpio.value.pin)) ==>
      result == gpio && hw.trace == old(hw.trace) && system.raised == old(system.raised) + [HalGpioFailure]
  {
    var proceed := CheckAssert(build, gpio.Some?, HalGpioFailure, system);
    if !proceed {
      return gpio;
    }
    proceed := CheckAssert(build, ValidNumber(gpio.value.pin), HalGpioFailure, system);
    if !proceed {
      return gpio;
    }
    var c := ReadConfiguration(hw, gpio.value.pin);
    result := Some(c);
  }

  /** The body of HalGpio_GetConfiguration past its argument checks: the five reads, in order. */
  method ReadConfiguration(hw: Registers<Reg>, pin: GpioPin) returns (c: GpioConfig)
    requires ValidNumber(pin)
    modifies hw`trace
    ensures c == ReadConfig(hw.value, pin)
    ensures hw.value == old(hw.value)
    ensures hw.trace == old(hw.trace) + ConfigReadOps(pin)
  {
    var mode := GetMode(hw, pin);
    var isOpenDrain := IsOpenDrain(hw, pin);
    var speed := GetSpeed(hw, pin);
    var pull := GetPull(hw, pin);
    var af := GetAlternateFunction(hw, pin);
    c := GpioConfig(pin, mode, isOpenDrain, speed, pull, af);
    assert hw.trace == old(hw.trace) + ConfigReadOps(pin);
  }

  /**
   * HalGpio_SetConfiguration(pGpio). With a valid argument the port clock is
   * enabled and the five fields are written, in that order; otherwise
   * (debug build only) HAL_GPIO_FAILURE is raised once and no register is
   * touched.
   */
  method SetConfiguration(build: Build, hw: Registers<Reg>, system: System, gpio: Option<GpioConfig>)
    requires build.Release? ==> gpio.Some? && ValidNumber(gpio.value.pin)
    modifies hw`value, hw`trace, system
    ensures gpio.Some? && ValidNumber(gpio.value.pin) ==>
      hw.value == ApplyAll(old(hw.value), ConfigWriteOps(gpio.value))
      && hw.trace == old(hw.trace) + ConfigWriteOps(gpio.value)
      && system.raised == old(system.raised)
    ensures !(gpio.Some? && ValidNumber(gpio.value.pin)) ==>
      hw.value == old(hw.value) && hw.trace == old(hw.trace) && system.raised == old(system.raised) + [HalGpioFailure]
  {
    var proceed := CheckAssert(build, gpio.Some?, HalGpioFailure, system);
    if !proceed {
      return;
    }
    proceed := CheckAssert(build, ValidNumber(gpio.value.pin), HalGpioFailure, system);
    if !proceed {
      return;
    }
    WriteConfiguration(hw, gpio.value);
  }

  /** The body of HalGpio_SetConfiguration past its argument checks: the six writes, in order. */
  method WriteConfiguration(hw: Registers<Reg>, c: GpioConfig)
    requires ValidNumber(c.pin)
    modifies hw`value, hw`trace
    ensures hw.value == ApplyAll(old(hw.value), ConfigWriteOps(c))
    ensures hw.trace == old(hw.trace) + ConfigWriteOps(c)
  {
    ghost var ops := ConfigWriteOps(c);
    EnablePortClock(hw, c.pin.port);
    SetMode(hw, c.pin, c.mode);
    SetOpenDrain(hw, c.pin, c.isOpenDrain);
    SetSpeed(hw, c.pin, c.speed);
    SetPull(hw, c.pin, c.pull);
    SetAlternateFunction(hw, c.pin, c.alternateFunction);
    ApplyAllSix(old(hw.value), ops);
    SixSteps(old(hw.trace), ops);
  }

  /** A sequence of six accesses appended one at a time. */
  lemma SixSteps<T>(t: seq<T>, ops: seq<T>)
    requires |ops| == 6
    ensures t + [ops[0]] + [ops[1]] + [ops[2]] + [ops[3]] + [ops[4]] + [ops[5]] == t + ops
  {
  }

  /**
   * Whether a pin state function goes past its two guards: the pointer is
   * not NULL and, in a debug build, the number is below MAX_PINS. A release
   * build has no guards, so any non-NULL pin goes on.
   */
  predicate PinGuardsPass(build: Build, pin: Option<GpioPin>) {
    pin.Some? && (build.Release? || ValidNumber(pin.value))
  }

  /**
   * HalGpio_SetOutputState(pPin, state): sets the pin's set bit in BSRR for
   * true and its reset bit for false; an invalid argument (debug build
   * only) raises HAL_GPIO_FAILURE instead. A release build requires a pin
   * whose chosen BSRR bit lies inside the register: for numbers 16 to 31
   * with state true the C is defined and sets a reset bit of a lower pin
   * (see `OutOfRangeSetResetsLowerPin`).
   */
  method SetOutputState(build: Build, hw: Registers<Reg>, system: System, pin: Option<GpioPin>, state: bool)
    requires build.Release? ==> pin.Some? && OutputStateBitInRange(pin.value, state)
    modifies hw`value, hw`trace, system
    ensures PinGuardsPass(build, pin) ==>
      && OutputStateBitInRange(pin.value, state)
      && var op := SetBitOp(Bsrr(Block(pin.value)), OutputStateBit(pin.value, state));
      hw.value == Apply(old(hw.value), op) && hw.trace == old(hw.trace) + [op] && system.raised == old(system.raised)
    ensures !PinGuardsPass(build, pin) ==>
      hw.value == old(hw.value) && hw.trace == old(hw.trace) && system.raised == old(system.raised) + [HalGpioFailure]
  {
    var proceed := CheckAssert(build, pin.Some?, HalGpioFailure, system);
    if !proceed {
      return;
    }
    proceed := CheckAssert(build, ValidNumber(pin.value), HalGpioFailure, system);
    if !proceed {
      return;
    }
    var p := pin.value;
    if state == true {
      hw.SetBit(Bsrr(Block(p)), NumberBit(p));
    } else {
      hw.SetBit(Bsrr(Block(p)), NumberBit(p) + BIT_CLEAR_OFFSET);
    }
  }

  /**
   * HalGpio_GetInputState(pPin): the pin's IDR bit; false, with
   * HAL_GPIO_FAILURE raised, for an invalid argument in a debug build. A
   * release build reads bit `number` for any number up to 31.
   */
  method GetInputState(build: Build, hw: Registers<Reg>, system: System, pin: Option<GpioPin>) returns (state: bool)
    requires build.Release? ==> pin.Some? && InRegister(pin.value)
    modifies hw`trace, system
    ensures hw.value == old(hw.value)
    ensures PinGuardsPass(build, pin) ==>
      && InRegister(pin.value)
      && state == GetBit(Value(hw.value, Idr(Block(pin.value))), NumberBit(pin.value))
      && hw.trace == old(hw.trace) + [GetBitOp(Idr(Block(pin.value)), NumberBit(pin.value))]
      && system.raised == old(system.raised)
    ensures !PinGuardsPass(build, pin) ==>
      !state && hw.trace == old(hw.trace) && system.raised == old(system.raised) + [HalGpioFailure]
  {
    var proceed := CheckAssert(build, pin.Some?, HalGpioFailure, system);
    if !proceed {
      return false;
    }
    proceed := CheckAssert(build, ValidNumber(pin.value), HalGpioFailure, system);
    if !proceed {
      return false;
    }
    state := hw.ReadBit(Idr(Block(pin.value)), NumberBit(pin.value));
  }

  /**
   * HalGpio_GetOutputState(pPin): the pin's ODR bit; false, with
   * HAL_GPIO_FAILURE raised, for an invalid argument in a debug build. A
   * release build reads bit `number` for any number up to 31.
   */
  method GetOutputState(build: Build, hw: Registers<Reg>, system: System, pin: Option<GpioPin>) returns (state: bool)
    requires build.Release? ==> pin.Some? && InRegister(pin.value)
    modifies hw`trace, system
    ensures hw.value == old(hw.value)
    ensures PinGuardsPass(build, pin) ==>
      && InRegister(pin.value)
      && state == GetBit(Value(hw.value, Odr(Block(pin.value))), NumberBit(pin.value))
      && hw.trace == old(hw.trace) + [GetBitOp(Odr(Block(pin.value)), NumberBit(pin.value))]
      && system.raised == old(system.raised)
    ensures !PinGuardsPass(build, pin) ==>
      !state && hw.trace == old(hw.trace) && system.raised == old(system.raised) + [HalGpioFailure]
  {
    var proceed := CheckAssert(build, pin.Some?, HalGpioFailure, system);
    if !proceed {
      return false;
    }
    proceed := CheckAssert(build, ValidNumber(pin.value), HalGpioFailure, system);
    if !proceed {
      return false;
    }
    state := hw.ReadBit(Odr(Block(pin.value)), NumberBit(pin.value));
  }
}
