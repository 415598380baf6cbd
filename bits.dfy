/** The 32-bit register discipline of the LabJack U12 interface.

    Every register the module caches is a ctypes `c_long`, a 32-bit two's
    complement integer, and is modelled here as a `bv32`.  Python's bitwise
    operators act on unbounded two's complement integers and `c_long(...)`
    keeps the low 32 bits, so the bitwise merges computed in Python and then
    wrapped agree bit for bit with the same merges computed on `bv32`.
 */
module Bits {

  /** 2^32: the number of distinct `c_long` values. */
  const LongModulus: int := 0x1_0000_0000

  /** Smallest and one past the largest value `c_long(...).value` yields. */
  const MinLong: int := -0x8000_0000
  const MaxLongExclusive: int := 0x8000_0000

  /** `c_long.value`: the register read back as a signed Python int.  It
      lies in the `c_long` range, agrees with the register modulo 2^32, and is
      negative exactly when the top bit is set. */
  function Signed(x: bv32): (v: int)
    ensures MinLong <= v < MaxLongExclusive
    ensures (v - x as int) % LongModulus == 0
    ensures v >= 0 <==> x as int < MaxLongExclusive
  {
    var n := x as int;
    if n < MaxLongExclusive then n else n - LongModulus
  }

  /** Line `i` of a register: the bit at position `i`. */
  predicate Bit(x: bv32, i: bv32)
    requires i < 32
  {
    x & (1 << i) != 0
  }

  /** The two-step masked write of `write_to_IO` and `write_to_DIO`: first set
      the requested lines that should be 1, then clear the requested lines
      that should be 0.  Lines inside `mask` take their value from `data`,
      lines outside it keep their value from `reg`. */
  function MaskedMerge(reg: bv32, data: bv32, mask: bv32): (r: bv32)
    ensures r & mask == data & mask
    ensures r & !mask == reg & !mask
  {
    var raised := reg | (data & mask);
    raised & (data | !mask)
  }

  lemma AndBit(x: bv32, y: bv32, i: bv32)
    requires i < 32
    ensures Bit(x & y, i) <==> Bit(x, i) && Bit(y, i)
  {
  }

  lemma NotBit(x: bv32, i: bv32)
    requires i < 32
    ensures Bit(!x, i) <==> !Bit(x, i)
  {
  }

  /** Two registers that agree under a mask agree on every line inside it. */
  lemma AgreeUnder(x: bv32, y: bv32, mask: bv32, i: bv32)
    requires i < 32 && Bit(mask, i)
    requires x & mask == y & mask
    ensures Bit(x, i) <==> Bit(y, i)
  {
    AndBit(x, mask, i);
    AndBit(y, mask, i);
  }

  /** Two registers that agree outside a mask agree on every line outside it. */
  lemma AgreeOutside(x: bv32, y: bv32, mask: bv32, i: bv32)
    requires i < 32 && !Bit(mask, i)
    requires x & !mask == y & !mask
    ensures Bit(x, i) <==> Bit(y, i)
  {
    NotBit(mask, i);
    AgreeUnder(x, y, !mask, i);
  }

  /** A line inside the mask reads, after the merge, as the data line. */
  lemma MaskedMergeInside(reg: bv32, data: bv32, mask: bv32, i: bv32)
    requires i < 32 && Bit(mask, i)
    ensures Bit(MaskedMerge(reg, data, mask), i) <==> Bit(data, i)
  {
    AgreeUnder(MaskedMerge(reg, data, mask), data, mask, i);
  }

  /** A line outside the mask reads, after the merge, as it did before. */
  lemma MaskedMergeOutside(reg: bv32, data: bv32, mask: bv32, i: bv32)
    requires i < 32 && !Bit(mask, i)
    ensures Bit(MaskedMerge(reg, data, mask), i) <==> Bit(reg, i)
  {
    AgreeOutside(MaskedMerge(reg, data, mask), reg, mask, i);
  }

  /** Any register split at the mask is the union of its two parts. */
  lemma SplitAtMask(r: bv32, mask: bv32)
    ensures r == (r & mask) | (r & !mask)
  {
  }

  /** The two equations of `MaskedMerge` determine its result. */
  lemma MaskedMergeUnique(reg: bv32, data: bv32, mask: bv32, r: bv32)
    requires r & mask == data & mask
    requires r & !mask == reg & !mask
    ensures r == MaskedMerge(reg, data, mask)
  {
    SplitAtMask(r, mask);
    SplitAtMask(MaskedMerge(reg, data, mask), mask);
  }

  /** Writing data that the masked lines already hold changes nothing. */
  lemma MaskedMergeStable(reg: bv32, data: bv32, mask: bv32)
    requires reg & mask == data & mask
    ensures MaskedMerge(reg, data, mask) == reg
  {
    MaskedMergeUnique(reg, data, mask, reg);
  }

  /** Writing the same data under the same mask twice is writing it once. */
  lemma MaskedMergeIdempotent(reg: bv32, data: bv32, mask: bv32)
    ensures MaskedMerge(MaskedMerge(reg, data, mask), data, mask) == MaskedMerge(reg, data, mask)
  {
    MaskedMergeStable(MaskedMerge(reg, data, mask), data, mask);
  }

  /** The merge of `set_IO_to_output` and `set_DIO_to_output`: the new bits
      are ORed into the register, so no bit that was set is ever cleared and
      every requested bit is set. */
  function SetBits(reg: bv32, bits: bv32): (r: bv32)
    ensures r & reg == reg
    ensures r & bits == bits
  {
    bits | reg
  }

  /** The OR merge sets no bit that is in neither the register nor the
      request. */
  lemma SetBitsSetsNothingElse(reg: bv32, bits: bv32)
    ensures SetBits(reg, bits) & !(reg | bits) == 0
  {
  }

  /** With the default data of 0 the level register does not change. */
  lemma SetBitsNone(reg: bv32)
    ensures SetBits(reg, 0) == reg
  {
  }

  /** Two successive merges from the power-on value 0 leave exactly the union
      of the two requests. */
  lemma SetBitsTwice(d1: bv32, d2: bv32)
    ensures SetBits(SetBits(0, d1), d2) == d1 | d2
  {
  }
}
