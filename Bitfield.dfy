/**
 * The bit-field primitives the drivers use on 32-bit register words.
 *
 * The header that defines them is not part of this model; they are modelled
 * as the usual mask-and-shift operations:
 *   write: clear `mask << offset`, then OR in `(value & mask) << offset`;
 *   read:  `(reg >> offset) & mask`;
 * and the single-bit forms as the same with a mask of 1.
 */
module Bitfield {

  /** A right-aligned `mask` placed at `offset` loses no bit off the top. */
  predicate Fits(mask: bv32, offset: bv32)
  {
    offset < 32 && (mask << offset) >> offset == mask
  }

  /** bitfield_read(reg, mask, offset) */
  function Read(reg: bv32, mask: bv32, offset: bv32): (v: bv32)
    requires offset < 32
    ensures v & mask == v
  {
    (reg >> offset) & mask
  }

  /** bitfield_write(reg, mask, offset, value): every bit outside the field is kept. */
  function Write(reg: bv32, mask: bv32, offset: bv32, value: bv32): (r: bv32)
    requires offset < 32
    ensures r & !(mask << offset) == reg & !(mask << offset)
  {
    (reg & !(mask << offset)) | ((value & mask) << offset)
  }

  /** bitfield_bit32_read(reg, index) */
  function ReadBit(reg: bv32, index: bv32): (b: bool)
    requires index < 32
  {
    Read(reg, 1, index) != 0
  }

  /** The value a C `bool` (or a 0/1 code) stores into a one-bit field. */
  function BitOf(b: bool): (v: bv32)
    ensures v <= 1
  {
    if b then 1 else 0
  }

  /**
   * bitfield_bit32_write(reg, index, value): bit `index` becomes `value`,
   * every other bit is kept.
   */
  function WriteBit(reg: bv32, index: bv32, value: bool): (r: bv32)
    requires index < 32
    ensures ReadBit(r, index) == value
    ensures r & !(1 << index) == reg & !(1 << index)
  {
    Write(reg, 1, index, BitOf(value))
  }

  /** Writing a one-bit field into a zero word gives the word with only that bit set. */
  lemma WriteBitIntoZero(index: bv32)
    requires index < 32
    ensures Write(0, 1, index, 1) == 1 << index
    ensures ReadBit(Write(0, 1, index, 1), index)
  {
  }
}
