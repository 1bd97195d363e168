/**
 * The register access primitives: single-word bit operations on a 32-bit
 * memory-mapped register, and a register file on which the in-place forms
 * (write, set bit, clear bit, set bit field) act.
 *
 * Bit positions are `bv5`: the range [0, 31] the primitives accept.
 */
module HalRegs {

  /** Bit i of w, counted from the least significant bit: the reference the primitives are checked against. */
  predicate IsSet(w: bv32, i: bv5) {
    (w >> i) & 1 == 1
  }

  /** BIT_(position): the word with only bit `position` set. */
  function Bit(position: bv5): bv32 {
    1 << position
  }

  /** GET_BIT_(register, bit): whether bit `bit` of the register is 1. */
  function GetBit(register: bv32, bit: bv5): bool {
    register & Bit(bit) != 0
  }

  /** The register value after SET_BIT_(register, bit). */
  function SetBitValue(register: bv32, bit: bv5): bv32 {
    register | Bit(bit)
  }

  /** The register value after CLEAR_BIT_(register, bit). */
  function ClearBitValue(register: bv32, bit: bv5): bv32 {
    register & !Bit(bit)
  }

  /** BIT_(position) has bit `position` set and no other. */
  lemma BitSetsOnlyPosition(position: bv5, i: bv5)
    ensures IsSet(Bit(position), i) <==> i == position
  {
  }

  /** GET_BIT_ is 1 exactly when the bit is set. */
  lemma GetBitReadsBit(register: bv32, bit: bv5)
    ensures GetBit(register, bit) <==> IsSet(register, bit)
  {
  }

  /** SET_BIT_ makes the bit 1 and keeps every bit outside BIT_(bit). */
  lemma SetBitValueSpec(register: bv32, bit: bv5)
    ensures IsSet(SetBitValue(register, bit), bit)
    ensures SetBitValue(register, bit) & !Bit(bit) == register & !Bit(bit)
  {
  }

  /** CLEAR_BIT_ makes the bit 0 and keeps every bit outside BIT_(bit). */
  lemma ClearBitValueSpec(register: bv32, bit: bv5)
    ensures !IsSet(ClearBitValue(register, bit), bit)
    ensures ClearBitValue(register, bit) & !Bit(bit) == register & !Bit(bit)
  {
  }

  lemma SetBitKeeps(register: bv32, bit: bv5, i: bv5)
    requires i != bit
    ensures IsSet(register | (1 << bit), i) == IsSet(register, i)
  {
  }

  lemma ClearBitKeeps(register: bv32, bit: bv5, i: bv5)
    requires i != bit
    ensures IsSet(register & !(1 << bit), i) == IsSet(register, i)
  {
  }

  /** SET_BIT_ changes no bit other than the one it sets. */
  lemma SetBitFrame(register: bv32, bit: bv5)
    ensures forall i: bv5 :: i != bit ==> IsSet(SetBitValue(register, bit), i) == IsSet(register, i)
  {
    forall i: bv5 | i != bit
      ensures IsSet(SetBitValue(register, bit), i) == IsSet(register, i)
    {
      SetBitKeeps(register, bit, i);
    }
  }

  /** CLEAR_BIT_ changes no bit other than the one it clears. */
  lemma ClearBitFrame(register: bv32, bit: bv5)
    ensures forall i: bv5 :: i != bit ==> IsSet(ClearBitValue(register, bit), i) == IsSet(register, i)
  {
    forall i: bv5 | i != bit
      ensures IsSet(ClearBitValue(register, bit), i) == IsSet(register, i)
    {
      ClearBitKeeps(register, bit, i);
    }
  }

  /** GET_BIT_ reads 1 after SET_BIT_ and 0 after CLEAR_BIT_ of the same bit. */
  lemma GetBitAfterSetAndClear(register: bv32, bit: bv5)
    ensures GetBit(SetBitValue(register, bit), bit)
    ensures !GetBit(ClearBitValue(register, bit), bit)
  {
  }

  /**
   * GET_BITFIELD_(register, position, mask) exactly as written: the register
   * is shifted LEFT by `position` before masking.
   */
  function GetBitfieldAsWritten(register: bv32, position: bv5, mask: bv32): bv32 {
    (register << position) & mask
  }

  /**
   * The bit field read that GET_BITFIELD documents: the register is shifted
   * right by `position` and masked, so the result holds the field's bits
   * brought down to bit 0 and nothing outside the mask.
   */
  function GetBitfield(register: bv32, position: bv5, mask: bv32): bv32 {
    (register >> position) & mask
  }

  /** A field read has no bit outside the mask. */
  lemma GetBitfieldWithinMask(register: bv32, position: bv5, mask: bv32)
    ensures GetBitfield(register, position, mask) & mask == GetBitfield(register, position, mask)
  {
  }

  /**
   * SET_BITFIELD_(register, position, mask, pattern) as its body reads when
   * the final assignment is taken to store `regTemp_`: the register is ANDed
   * with the shifted mask itself, then the shifted pattern is ORed in.
   */
  function SetBitfieldAsWritten(register: bv32, position: bv5, mask: bv32, pattern: bv32): bv32 {
    (register & (mask << position)) | (pattern << position)
  }

  /**
   * The bit field write that SET_BITFIELD documents: the bits under the
   * shifted mask are cleared, then the shifted pattern is ORed in.
   */
  function SetBitfield(register: bv32, position: bv5, mask: bv32, pattern: bv32): bv32 {
    (register & !(mask << position)) | (pattern << position)
  }

  /** Reading back a field just written returns the pattern, when the mask fits above `position`. */
  lemma GetBitfieldAfterSet(register: bv32, position: bv5, mask: bv32, pattern: bv32)
    requires pattern & mask == pattern
    requires mask << position >> position == mask
    ensures GetBitfield(SetBitfield(register, position, mask, pattern), position, mask) == pattern
  {
  }

  /** The documented examples: GET_BITFIELD(0xABCD, 5, 0x7) is 0x6, SET_BITFIELD(0xFFFF, 5, 0x7, 0x2) is 0xFF5F. */
  lemma DocumentedExamples()
    ensures GetBitfield(0xABCD, 5, 0x7) == 0x6
    ensures SetBitfield(0xFFFF, 5, 0x7, 0x2) == 0xFF5F
  {
  }

  /** As written, GET_BITFIELD_ gives 0 for its own documented example. */
  lemma GetBitfieldAsWrittenMissesExample()
    ensures GetBitfieldAsWritten(0xABCD, 5, 0x7) == 0
    ensures GetBitfieldAsWritten(0xABCD, 5, 0x7) != GetBitfield(0xABCD, 5, 0x7)
  {
  }

  /**
   * As written, GET_BITFIELD_ reads 0 whenever the mask lies entirely below
   * `position`, whatever the register holds: every field but the lowest one
   * of a register reads as 0.
   */
  lemma GetBitfieldAsWrittenReadsZero(register: bv32, position: bv5, mask: bv32)
    requires mask < 1 << position
    ensures GetBitfieldAsWritten(register, position, mask) == 0
  {
  }

  /** As written, SET_BITFIELD_ gives 0xE0 for its own documented example instead of 0xFF5F. */
  lemma SetBitfieldAsWrittenMissesExample()
    ensures SetBitfieldAsWritten(0xFFFF, 5, 0x7, 0x2) == 0xE0
    ensures SetBitfieldAsWritten(0xFFFF, 5, 0x7, 0x2) != SetBitfield(0xFFFF, 5, 0x7, 0x2)
  {
  }

  /** One register access as the unit tests observe it: the primitive and its arguments. */
  datatype RegOp<R> =
    | ReadOp(reg: R)
    | WriteOp(reg: R, value: bv32)
    | SetBitOp(reg: R, bit: bv5)
    | ClearBitOp(reg: R, bit: bv5)
    | GetBitOp(reg: R, bit: bv5)
    | SetBitfieldOp(reg: R, position: bv5, mask: bv32, pattern: bv32)
    | GetBitfieldOp(reg: R, position: bv5, mask: bv32)
  {
    /** Whether the access only reads its register. */
    predicate IsRead() {
      ReadOp? || GetBitOp? || GetBitfieldOp?
    }
  }

  /** The value of `reg` in register file `m`; a register never stored reads as 0. */
  function Value<R>(m: map<R, bv32>, reg: R): bv32 {
    if reg in m then m[reg] else 0
  }

  /** The register file after one access: only the accessed register can change, and reads change nothing. */
  function Apply<R>(m: map<R, bv32>, op: RegOp<R>): map<R, bv32> {
    match op
    case WriteOp(reg, v) => m[reg := v]
    case SetBitOp(reg, bit) => m[reg := SetBitValue(Value(m, reg), bit)]
    case ClearBitOp(reg, bit) => m[reg := ClearBitValue(Value(m, reg), bit)]
    case SetBitfieldOp(reg, position, mask, pattern) => m[reg := SetBitfield(Value(m, reg), position, mask, pattern)]
    case _ => m
  }

  /** The register file after a sequence of accesses, in order. */
  function ApplyAll<R>(m: map<R, bv32>, ops: seq<RegOp<R>>): map<R, bv32>
    decreases |ops|
  {
    if ops == [] then m else Apply(ApplyAll(m, ops[..|ops| - 1]), ops[|ops| - 1])
  }

  /** Accesses that only read leave the register file as it was. */
  lemma {:induction false} ApplyAllReads<R>(m: map<R, bv32>, ops: seq<RegOp<R>>)
    requires forall k :: 0 <= k < |ops| ==> ops[k].IsRead()
    ensures ApplyAll(m, ops) == m
    decreases |ops|
  {
    if ops != [] {
      ApplyAllReads(m, ops[..|ops| - 1]);
    }
  }

  /** An access changes no register but its own. */
  lemma ApplyOther<R>(m: map<R, bv32>, op: RegOp<R>, r: R)
    requires r != op.reg
    ensures Value(Apply(m, op), r) == Value(m, r)
  {
  }

  /** What an access leaves in its register depends only on the register's old value. */
  lemma ApplyLocal<R>(m1: map<R, bv32>, m2: map<R, bv32>, op: RegOp<R>)
    requires Value(m1, op.reg) == Value(m2, op.reg)
    ensures Value(Apply(m1, op), op.reg) == Value(Apply(m2, op), op.reg)
  {
  }

  /** Accesses to other registers leave a register as it was. */
  lemma {:induction false} ApplyAllUntouched<R>(m: map<R, bv32>, ops: seq<RegOp<R>>, r: R)
    requires forall i :: 0 <= i < |ops| ==> ops[i].reg != r
    ensures Value(ApplyAll(m, ops), r) == Value(m, r)
    decreases |ops|
  {
    if ops != [] {
      var n := |ops| - 1;
      ApplyAllUntouched(m, ops[..n], r);
      ApplyOther(ApplyAll(m, ops[..n]), ops[n], r);
    }
  }

  /** No two of the accesses are to the same register. */
  ghost predicate DistinctRegs<R>(ops: seq<RegOp<R>>) {
    forall i, j :: 0 <= i < j < |ops| ==> ops[i].reg != ops[j].reg
  }

  /**
   * When a sequence of accesses touches pairwise different registers, each
   * of them ends up as its own access alone would leave it.
   */
  lemma {:induction false} ApplyAllDistinct<R>(m: map<R, bv32>, ops: seq<RegOp<R>>, k: nat)
    requires k < |ops|
    requires DistinctRegs(ops)
    ensures Value(ApplyAll(m, ops), ops[k].reg) == Value(Apply(m, ops[k]), ops[k].reg)
    decreases |ops|
  {
    var n := |ops| - 1;
    var prefix := ops[..n];
    if k == n {
      ApplyAllUntouched(m, prefix, ops[n].reg);
      ApplyLocal(ApplyAll(m, prefix), m, ops[n]);
    } else {
      assert DistinctRegs(prefix);
      ApplyAllDistinct(m, prefix, k);
      ApplyOther(ApplyAll(m, prefix), ops[n], ops[k].reg);
    }
  }

  /** Six accesses applied in order. */
  lemma ApplyAllSix<R>(m: map<R, bv32>, ops: seq<RegOp<R>>)
    requires |ops| == 6
    ensures ApplyAll(m, ops) == Apply(Apply(Apply(Apply(Apply(Apply(m, ops[0]), ops[1]), ops[2]), ops[3]), ops[4]), ops[5])
  {
    var m1 := ApplyAll(m, ops[..1]);
    assert m1 == Apply(m, ops[0]) by { ApplyAllLast(m, ops, 1); assert ops[..0] == []; }
    var m2 := ApplyAll(m, ops[..2]);
    assert m2 == Apply(m1, ops[1]) by { ApplyAllLast(m, ops, 2); }
    var m3 := ApplyAll(m, ops[..3]);
    assert m3 == Apply(m2, ops[2]) by { ApplyAllLast(m, ops, 3); }
    var m4 := ApplyAll(m, ops[..4]);
    assert m4 == Apply(m3, ops[3]) by { ApplyAllLast(m, ops, 4); }
    var m5 := ApplyAll(m, ops[..5]);
    assert m5 == Apply(m4, ops[4]) by { ApplyAllLast(m, ops, 5); }
    assert ApplyAll(m, ops) == Apply(m5, ops[5]) by { ApplyAllLast(m, ops, 6); assert ops[..6] == ops; }
  }

  /** The accesses up to `n` are those up to `n - 1` followed by access `n - 1`. */
  lemma ApplyAllLast<R>(m: map<R, bv32>, ops: seq<RegOp<R>>, n: nat)
    requires 0 < n <= |ops|
    ensures ApplyAll(m, ops[..n]) == Apply(ApplyAll(m, ops[..n - 1]), ops[n - 1])
  {
    assert ops[..n][..n - 1] == ops[..n - 1];
  }

  /**
   * The memory-mapped registers: their values, and the trace of primitive
   * accesses issued so far. Each method is one macro applied to one
   * register, in place.
   */
  class Registers<R(==)> {
    var value: map<R, bv32>
    ghost var trace: seq<RegOp<R>>

    constructor (contents: map<R, bv32>)
      ensures value == contents && trace == []
    {
      value := contents;
      trace := [];
    }

    /** REG_READ_(register): returns the register's value and leaves it unchanged. */
    method Read(reg: R) returns (v: bv32)
      modifies this`trace
      ensures v == Value(value, reg)
      ensures value == old(value) && trace == old(trace) + [ReadOp(reg)]
    {
      v := Value(value, reg);
      trace := trace + [ReadOp(reg)];
    }

    /** REG_WRITE_(register, v): the register holds v afterwards. */
    method Write(reg: R, v: bv32)
      modifies this`value, this`trace
      ensures Value(value, reg) == v
      ensures value == Apply(old(value), WriteOp(reg, v)) && trace == old(trace) + [WriteOp(reg, v)]
    {
      value := value[reg := v];
      trace := trace + [WriteOp(reg, v)];
    }

    /** SET_BIT_(register, bit). */
    method SetBit(reg: R, bit: bv5)
      modifies this`value, this`trace
      ensures value == Apply(old(value), SetBitOp(reg, bit)) && trace == old(trace) + [SetBitOp(reg, bit)]
    {
      value := value[reg := SetBitValue(Value(value, reg), bit)];
      trace := trace + [SetBitOp(reg, bit)];
    }

    /** CLEAR_BIT_(register, bit). */
    method ClearBit(reg: R, bit: bv5)
      modifies this`value, this`trace
      ensures value == Apply(old(value), ClearBitOp(reg, bit)) && trace == old(trace) + [ClearBitOp(reg, bit)]
    {
      value := value[reg := ClearBitValue(Value(value, reg), bit)];
      trace := trace + [ClearBitOp(reg, bit)];
    }

    /** GET_BIT_(register, bit). */
    method ReadBit(reg: R, bit: bv5) returns (b: bool)
      modifies this`trace
      ensures b == GetBit(Value(value, reg), bit)
      ensures value == old(value) && trace == old(trace) + [GetBitOp(reg, bit)]
    {
      b := GetBit(Value(value, reg), bit);
      trace := trace + [GetBitOp(reg, bit)];
    }

    /** SET_BITFIELD_(register, position, mask, pattern), with the documented effect. */
    method WriteBitfield(reg: R, position: bv5, mask: bv32, pattern: bv32)
      modifies this`value, this`trace
      ensures value == Apply(old(value), SetBitfieldOp(reg, position, mask, pattern))
      ensures trace == old(trace) + [SetBitfieldOp(reg, position, mask, pattern)]
    {
      value := value[reg := SetBitfield(Value(value, reg), position, mask, pattern)];
      trace := trace + [SetBitfieldOp(reg, position, mask, pattern)];
    }

    /** GET_BITFIELD_(register, position, mask), with the documented result. */
    method ReadBitfield(reg: R, position: bv5, mask: bv32) returns (field: bv32)
      modifies this`trace
      ensures field == GetBitfield(Value(value, reg), position, mask)
      ensures value == old(value) && trace == old(trace) + [GetBitfieldOp(reg, position, mask)]
    {
      field := GetBitfield(Value(value, reg), position, mask);
      trace := trace + [GetBitfieldOp(reg, position, mask)];
    }
  }
}
