/*
 * Register and field primitives of the STM32G491 hardware-abstraction layer
 * (namespace Chip::HAL). A register is a 32-bit word reached through a
 * pointer. A field is `width` bits wide and sits at bit offset `shift`; the
 * HAL addresses it by a slot number `position`, so that shift = position * width.
 */
module Hal {

  /** A memory-mapped 32-bit register, as reached through a `uint32_t *`. */
  class Register {
    var value: bv32

    constructor (init: bv32)
      ensures value == init
    {
      value := init;
    }
  }

  /** Largest width the mask table `bitmasks[]` is taken to cover. */
  const MaxWidth: bv16 := 16

  /**
   * Entry `width` of the mask table `bitmasks[]`: the `width` low bits set,
   * that is 2^width - 1. The table itself is not part of this model; this is
   * the value every entry is assumed to hold.
   */
  function Bitmask(width: bv16): bv32
    requires width <= MaxWidth
  {
    ((1 as bv32) << width) - 1
  }

  /** Bit offset of slot `position` of a `width`-bit field: position * width. */
  function Shift(position: bv16, width: bv16): bv32
  {
    (position as bv32) * (width as bv32)
  }

  /** A table entry exists for `width` and `shift` is a legal shift amount. */
  predicate Addressable(shift: bv32, width: bv16)
  {
    width <= MaxWidth && shift < 32
  }

  /** Addressable, and the whole field lies inside the 32-bit register. */
  predicate Fits(shift: bv32, width: bv16)
  {
    Addressable(shift, width) && shift <= 32 - width as bv32
  }

  /** The bits of the field, in place. */
  function FieldMask(shift: bv32, width: bv16): bv32
    requires Addressable(shift, width)
  {
    Bitmask(width) << shift
  }

  /** The value of the field in register value `x`. */
  function ReadAt(x: bv32, shift: bv32, width: bv16): bv32
    requires Addressable(shift, width)
  {
    (x & FieldMask(shift, width)) >> shift
  }

  /** The register value after `set_register(bits)`: `x` with every bit of `bits` set. */
  function Ored(x: bv32, bits: bv32): bv32
  {
    x | bits
  }

  /** The register value after `clear_register(bits)`: `x` with every bit of `bits` cleared. */
  function Cleared(x: bv32, bits: bv32): bv32
  {
    x & !bits
  }

  /** The register value after ORing `val`, shifted to `shift`, into `x`. */
  function SetAt(x: bv32, shift: bv32, val: bv32): bv32
    requires shift < 32
  {
    Ored(x, val << shift)
  }

  /** The register value with the field's bits cleared. */
  function ClearAt(x: bv32, shift: bv32, width: bv16): bv32
    requires Addressable(shift, width)
  {
    Cleared(x, FieldMask(shift, width))
  }

  /** Clear-then-OR of one field: the read-modify-write the GPIO setters perform. */
  function WriteAt(x: bv32, shift: bv32, width: bv16, val: bv32): bv32
    requires Addressable(shift, width)
  {
    SetAt(ClearAt(x, shift, width), shift, val)
  }

  /** A field never reads more than its mask: the result has at most `width` bits. */
  lemma ReadAtBound(x: bv32, shift: bv32, width: bv16)
    requires Addressable(shift, width)
    ensures ReadAt(x, shift, width) <= Bitmask(width)
  {
  }

  /** Shifting the masked register down equals masking the shifted register, when the field fits. */
  lemma AndShrField(x: bv32, shift: bv32, width: bv16)
    requires Addressable(shift, width)
    ensures (x & FieldMask(shift, width)) >> shift == (x >> shift) & (FieldMask(shift, width) >> shift)
  {
    ShrAnd(x, FieldMask(shift, width), shift);
  }

  /** Shifting right by `shift` is shifting right by one, then by `shift - 1`. */
  lemma ShrStepOne(x: bv32, shift: bv32)
    requires 1 <= shift < 32
    ensures (x >> 1) >> (shift - 1) == x >> shift
  {
  }

  /** A logical right shift distributes over AND; by induction on the shift amount. */
  lemma {:induction false} ShrAnd(x: bv32, m: bv32, shift: bv32)
    requires shift < 32
    ensures (x & m) >> shift == (x >> shift) & (m >> shift)
    decreases shift
  {
    if shift != 0 {
      ShrAnd(x >> 1, m >> 1, shift - 1);
      ShrStepOne(x, shift);
      ShrStepOne(m, shift);
      ShrStepOne(x & m, shift);
    }
  }

  /** A mask that fits the register loses no bit when shifted into place and back. */
  lemma MaskNoLoss(shift: bv32, width: bv16)
    requires Fits(shift, width)
    ensures FieldMask(shift, width) >> shift == Bitmask(width)
  {
  }

  /**
   * When the field fits, `read_field` is the register shifted down by the
   * offset and masked to `width` bits.
   */
  lemma ReadAtReference(x: bv32, shift: bv32, width: bv16)
    requires Fits(shift, width)
    ensures ReadAt(x, shift, width) == (x >> shift) & Bitmask(width)
  {
    AndShrField(x, shift, width);
    MaskNoLoss(shift, width);
  }

  /** A cleared field reads 0, and clearing changes no bit outside the field. */
  lemma ClearAtReadsZero(x: bv32, shift: bv32, width: bv16)
    requires Addressable(shift, width)
    ensures ReadAt(ClearAt(x, shift, width), shift, width) == 0
    ensures ClearAt(x, shift, width) & !FieldMask(shift, width) == x & !FieldMask(shift, width)
  {
  }

  /** A value that fits the mask has no bit above it. */
  lemma Below(val: bv32, width: bv16)
    requires width <= MaxWidth && val <= Bitmask(width)
    ensures val & !Bitmask(width) == 0
  {
  }

  /** A value that fits the mask, shifted into a field that fits, stays inside the field. */
  lemma InField(shift: bv32, width: bv16, val: bv32)
    requires Fits(shift, width) && val <= Bitmask(width)
    ensures (val << shift) & !FieldMask(shift, width) == 0
  {
    Below(val, width);
  }

  /**
   * ORing a value that fits into a field ORs it into the field's bits and
   * changes no bit outside the field: `set_field` does not clear first.
   */
  lemma SetAtOrs(x: bv32, shift: bv32, width: bv16, val: bv32)
    requires Fits(shift, width) && val <= Bitmask(width)
    ensures SetAt(x, shift, val) & FieldMask(shift, width) == (x & FieldMask(shift, width)) | (val << shift)
    ensures SetAt(x, shift, val) & !FieldMask(shift, width) == x & !FieldMask(shift, width)
  {
    InField(shift, width, val);
  }

  /** Clear-then-OR of a value that fits reads back exactly that value. */
  lemma WriteAtReadBack(x: bv32, shift: bv32, width: bv16, val: bv32)
    requires Fits(shift, width) && val <= Bitmask(width)
    ensures ReadAt(WriteAt(x, shift, width, val), shift, width) == val
  {
    Below(val, width);
  }

  /**
   * Clear-then-OR of a value that fits changes no bit outside the field:
   * clearing the field afterwards gives what clearing it before gives.
   */
  lemma WriteAtFrame(x: bv32, shift: bv32, width: bv16, val: bv32)
    requires Fits(shift, width) && val <= Bitmask(width)
    ensures ClearAt(WriteAt(x, shift, width, val), shift, width) == ClearAt(x, shift, width)
  {
    InField(shift, width, val);
  }

  /** No bit is set in both. */
  predicate Disjoint(bits: bv32, other: bv32)
  {
    bits & other == 0
  }

  /** Register values that agree outside `bits` agree on every field disjoint from `bits`. */
  lemma ReadAtOutside(x: bv32, y: bv32, bits: bv32, shift: bv32, width: bv16)
    requires Addressable(shift, width) && Disjoint(bits, FieldMask(shift, width))
    requires Cleared(x, bits) == Cleared(y, bits)
    ensures ReadAt(x, shift, width) == ReadAt(y, shift, width)
  {
  }

  /** Clear-then-OR of one field leaves every disjoint field reading as before. */
  lemma WriteAtOtherField(x: bv32, shift: bv32, width: bv16, val: bv32, other: bv32)
    requires Fits(shift, width) && val <= Bitmask(width)
    requires Addressable(other, width) && Disjoint(FieldMask(shift, width), FieldMask(other, width))
    ensures ReadAt(WriteAt(x, shift, width, val), other, width) == ReadAt(x, other, width)
  {
    WriteAtFrame(x, shift, width, val);
    ReadAtOutside(WriteAt(x, shift, width, val), x, FieldMask(shift, width), other, width);
  }

  /**
   * Writing a field twice leaves what the second write says: the last write
   * wins, and repeating a write changes nothing.
   */
  lemma WriteAtLastWins(x: bv32, shift: bv32, width: bv16, first: bv32, second: bv32)
    requires Fits(shift, width) && first <= Bitmask(width)
    ensures WriteAt(WriteAt(x, shift, width, first), shift, width, second)
         == WriteAt(x, shift, width, second)
  {
    InField(shift, width, first);
  }

  /**
   * The HAL's own check: for a slot that fits and a value of at most `width`
   * bits, `clear_field` makes the slot read 0, and `set_field` after it makes
   * the slot read the value.
   */
  lemma ClearThenSetField(x: bv32, position: bv16, width: bv16, val: bv32)
    requires Fits(Shift(position, width), width) && val <= Bitmask(width)
    ensures ReadAt(ClearAt(x, Shift(position, width), width), Shift(position, width), width) == 0
    ensures ReadAt(SetAt(ClearAt(x, Shift(position, width), width), Shift(position, width), val),
                   Shift(position, width), width) == val
  {
    ClearAtReadsZero(x, Shift(position, width), width);
    WriteAtReadBack(x, Shift(position, width), width, val);
  }

  /** `read_register`: the register's current value; nothing changes. */
  method ReadRegister(reg: Register) returns (r: bv32)
    ensures r == reg.value
  {
    r := reg.value;
  }

  /** `set_register`: every bit set in `val` becomes 1, every other bit is kept. */
  method SetRegister(reg: Register, val: bv32)
    modifies reg
    ensures reg.value == Ored(old(reg.value), val)
  {
    reg.value := reg.value | val;
  }

  /** `clear_register`: every bit set in `val` becomes 0, every other bit is kept. */
  method ClearRegister(reg: Register, val: bv32)
    modifies reg
    ensures reg.value == Cleared(old(reg.value), val)
  {
    reg.value := reg.value & !val;
  }

  /** `read_field`: reads the register once and extracts slot `position`. */
  method ReadField(reg: Register, position: bv16, width: bv16) returns (r: bv32)
    requires Addressable(Shift(position, width), width)
    ensures r == ReadAt(reg.value, Shift(position, width), width)
  {
    var regVal := ReadRegister(reg);
    var shift := Shift(position, width);
    var mask := FieldMask(shift, width);
    r := (regVal & mask) >> shift;
  }

  /** `set_field`: ORs `val`, shifted to the slot's offset, into the register. */
  method SetField(reg: Register, position: bv16, width: bv16, val: bv32)
    requires Addressable(Shift(position, width), width)
    modifies reg
    ensures reg.value == SetAt(old(reg.value), Shift(position, width), val)
  {
    SetRegister(reg, val << Shift(position, width));
  }

  /** `clear_field`: clears the slot's bits, keeping every other bit. */
  method ClearField(reg: Register, position: bv16, width: bv16)
    requires Addressable(Shift(position, width), width)
    modifies reg
    ensures reg.value == ClearAt(old(reg.value), Shift(position, width), width)
  {
    var mask := FieldMask(Shift(position, width), width);
    ClearRegister(reg, mask);
  }
}
