/**
  Machine integers of the driver: bytes (`uint8_t`), 16-bit words, and the
  signed 16-bit values (`int16_t`) the handle stores.

  A 16-bit setting (an offset or the interrupt threshold) is kept as its
  two's-complement bit pattern: the driver never computes with its value,
  it only hands the variable's two bytes to the bus. On the little-endian
  target the byte at the lower address is the low byte.
 */
module Bits {

  type Byte = bv8

  type Word = bv16

  newtype int16 = x: int | -0x8000 <= x < 0x8000

  function LowByte(w: Word): Byte {
    (w & 0xFF) as Byte
  }

  function HighByte(w: Word): Byte {
    (w >> 8) as Byte
  }

  /** The word whose low byte is `lo` and high byte is `hi`. */
  function Join(lo: Byte, hi: Byte): (w: Word)
    ensures LowByte(w) == lo && HighByte(w) == hi
  {
    (hi as Word << 8) | lo as Word
  }

  /** The bytes of a word in memory order on a little-endian target: low byte first. */
  function WordBytes(w: Word): (r: seq<Byte>)
    ensures |r| == 2
    ensures Join(r[0], r[1]) == w
  {
    [LowByte(w), HighByte(w)]
  }

  /** The two bytes of a word are all there is to it: joining and splitting are inverse. */
  lemma JoinRoundTrip(lo: Byte, hi: Byte)
    ensures WordBytes(Join(lo, hi)) == [lo, hi]
  {
  }

  /** The two's-complement `int16_t` whose low byte is `lo` and high byte is `hi`. */
  function Int16Of(lo: Byte, hi: Byte): (r: int16)
    ensures hi < 0x80 ==> r as int == hi as int * 0x100 + lo as int
    ensures hi >= 0x80 ==> r as int == hi as int * 0x100 + lo as int - 0x1_0000
  {
    var u := hi as int * 0x100 + lo as int;
    if u < 0x8000 then u as int16 else (u - 0x1_0000) as int16
  }
}
