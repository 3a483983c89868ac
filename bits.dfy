/** Byte-level helpers shared by both report decoders.  Reports are
    sequences of unsigned bytes (bv8); the decoders' u16 values are kept as
    integers in the u16 range, computed with the source's bit operations. */
module Bits {

  /** An unsigned 16-bit value (the C type u16). */
  type u16 = x: int | 0 <= x < 0x1_0000

  /** `(hi << 8) | lo`: a big-endian 16-bit value from two report bytes. */
  function BE16(hi: bv8, lo: bv8): (r: u16)
    ensures r == hi as int * 256 + lo as int
  {
    (((hi as bv16) << 8) | (lo as bv16)) as int
  }

  /** The two bytes BE16 was built from. */
  function HighByte(w: u16): int { w / 256 }
  function LowByte(w: u16): int { w % 256 }

  lemma BE16Split(hi: bv8, lo: bv8)
    ensures HighByte(BE16(hi, lo)) == hi as int
    ensures LowByte(BE16(hi, lo)) == lo as int
  {
  }

  /** `b & 0xF0`: the upper four bits of a byte, kept in place. */
  function HighNibble(b: bv8): bv8
  {
    b & 0xF0
  }

  /** `(b >> k) & 1`: bit `k` of `b`. */
  function Bit(b: bv8, k: nat): bool
    requires k < 8
  {
    (b >> k) & 1 == 1
  }
}
