/**
  The sample decoder of ReadMagnetic, as written: each axis is assembled as
  `((int8_t)hi << 8) | ((int8_t)lo << 0)` in 32-bit `int` arithmetic, stored
  in an `int16_t`, and then scaled by the double 1.5 on the way into the
  handle's `int16_t` field.
 */
module Conversion {
  import opened Bits
  import opened Options
  import opened Config
  import opened Bus

  /** The value of a 32-bit two's-complement `int`, read from its four bytes. */
  function Signed32(w: bv32): int {
    var b0, b1, b2, b3 := (w & 0xFF) as Byte, ((w >> 8) & 0xFF) as Byte, ((w >> 16) & 0xFF) as Byte, (w >> 24) as Byte;
    b0 as int + 0x100 * b1 as int + 0x1_0000 * b2 as int
      + 0x100_0000 * (if b3 < 0x80 then b3 as int else b3 as int - 0x100)
  }

  /** `(int8_t)b` promoted to `int`: bytes from 0x80 on are negative. */
  function SignExtend(b: Byte): (r: bv32)
    ensures Signed32(r) == if b < 0x80 then b as int else b as int - 0x100
  {
    if b < 0x80 then b as bv32 else b as bv32 | 0xFFFF_FF00
  }

  /** Both bytes below 0x80: the word is `hi:lo`, a non-negative value. */
  lemma AxisWordBothPositive(lo: Byte, hi: Byte)
    requires lo < 0x80 && hi < 0x80
    ensures Signed32((SignExtend(hi) << 8) | (SignExtend(lo) << 0)) == hi as int * 0x100 + lo as int
  {
    var p := (hi as bv32 << 8) | lo as bv32;
    assert (SignExtend(hi) << 8) | (SignExtend(lo) << 0) == p;
    assert Signed32(p) == hi as int * 0x100 + lo as int;
  }

  /** Low byte below 0x80, high byte from 0x80: the high byte's sign extends over bits 31:16. */
  lemma AxisWordNegativeHigh(lo: Byte, hi: Byte)
    requires lo < 0x80 && hi >= 0x80
    ensures Signed32((SignExtend(hi) << 8) | (SignExtend(lo) << 0)) == hi as int * 0x100 + lo as int - 0x1_0000
  {
    var p := (hi as bv32 << 8) | lo as bv32 | 0xFFFF_0000;
    assert (SignExtend(hi) << 8) | (SignExtend(lo) << 0) == p;
    assert Signed32(p) == hi as int * 0x100 + lo as int - 0x1_0000;
  }

  /** Low byte from 0x80: its sign extension covers bits 31:8, the high byte included. */
  lemma AxisWordNegativeLow(lo: Byte, hi: Byte)
    requires lo >= 0x80
    ensures Signed32((SignExtend(hi) << 8) | (SignExtend(lo) << 0)) == lo as int - 0x100
  {
    var p := lo as bv32 | 0xFFFF_FF00;
    assert (SignExtend(hi) << 8) | (SignExtend(lo) << 0) == p;
    assert Signed32(p) == lo as int - 0x100;
  }

  /**
    The 32-bit `int` the code computes from an axis's low and high byte,
    `((int8_t)hi << 8) | ((int8_t)lo << 0)`. When the low byte is below 0x80
    it is the two's-complement word `hi:lo`; from 0x80 on, the sign-extended
    low byte covers the high byte and the value is `lo - 256` whatever `hi`
    is. (The left shift of a negative `int` is taken to give its
    two's-complement result.)
   */
  function AxisWord(lo: Byte, hi: Byte): (r: int)
    ensures lo < 0x80 ==> r == Int16Of(lo, hi) as int
    ensures lo >= 0x80 ==> r == lo as int - 0x100
  {
    if lo >= 0x80 then AxisWordNegativeLow(lo, hi); Signed32((SignExtend(hi) << 8) | (SignExtend(lo) << 0))
    else if hi < 0x80 then AxisWordBothPositive(lo, hi); Signed32((SignExtend(hi) << 8) | (SignExtend(lo) << 0))
      else AxisWordNegativeHigh(lo, hi); Signed32((SignExtend(hi) << 8) | (SignExtend(lo) << 0))
  }

  /** The raw axis reading stored in an `int16_t`; the word always fits, so nothing is truncated. */
  function RawSample(lo: Byte, hi: Byte): (r: int16)
    ensures lo < 0x80 ==> r == Int16Of(lo, hi)
    ensures lo >= 0x80 ==> r as int == lo as int - 0x100
  {
    AxisWord(lo, hi) as int16
  }

  /** A low byte from 0x80 on makes the high byte irrelevant. */
  lemma RawSampleIgnoresHighByte(lo: Byte, hi1: Byte, hi2: Byte)
    requires lo >= 0x80
    ensures RawSample(lo, hi1) == RawSample(lo, hi2)
    ensures -0x80 <= RawSample(lo, hi1) < 0
  {
  }

  /** The bytes 0x80, 0x01 read as -128, where the word 0x0180 is 384. */
  lemma RawSampleDiffersFromWord()
    ensures RawSample(0x80, 0x01) == -128
    ensures Int16Of(0x80, 0x01) == 384
  {
  }

  /**
    `raw * 1.5` converted to `int16_t`: the double product is exact and the
    conversion truncates toward zero. A result outside `int16_t` is undefined
    behaviour in C, which happens exactly when |raw| exceeds 21845.
   */
  function Scale(raw: int16): (r: Option<int16>)
    ensures r.Some? <==> -21845 <= raw <= 21845
    ensures r.Some? && raw >= 0 ==> 0 <= 2 * r.value as int <= 3 * raw as int < 2 * r.value as int + 2
    ensures r.Some? && raw < 0 ==> 2 * r.value as int - 2 < 3 * raw as int <= 2 * r.value as int <= 0
  {
    var twice := 3 * raw as int;
    var v := if twice >= 0 then twice / 2 else -((-twice) / 2);
    if -0x8000 <= v < 0x8000 then Some(v as int16) else None
  }

  /**
    ConvertMagnetic: decode the buffer's (X-low, X-high, Y-low, Y-high,
    Z-low, Z-high) bytes into the handle's field strengths, leaving the
    data-ready flag alone. Undefined when any scaled value leaves `int16_t`.
   */
  function ConvertMagnetic(h: Handle, buf: Block6): (r: Behaviour<Handle>)
    ensures r.Defined? <==>
              && Scale(RawSample(buf[0], buf[1])).Some?
              && Scale(RawSample(buf[2], buf[3])).Some?
              && Scale(RawSample(buf[4], buf[5])).Some?
    ensures r.Defined? ==>
              && r.value.dataReadyFlag == h.dataReadyFlag
              && Scale(RawSample(buf[0], buf[1])) == Some(r.value.magX)
              && Scale(RawSample(buf[2], buf[3])) == Some(r.value.magY)
              && Scale(RawSample(buf[4], buf[5])) == Some(r.value.magZ)
  {
    var x := Scale(RawSample(buf[0], buf[1]));
    var y := Scale(RawSample(buf[2], buf[3]));
    var z := Scale(RawSample(buf[4], buf[5]));
    if x.Some? && y.Some? && z.Some? then Defined(h.(magX := x.value, magY := y.value, magZ := z.value))
    else Undefined
  }

  /** Bytes 0x00, 0x01 (X), 0x00, 0x00 (Y), 0x00, 0xFF (Z) give 384, 0 and -384. */
  lemma ConvertMagneticExample(h: Handle)
    ensures ConvertMagnetic(h, [0x00, 0x01, 0x00, 0x00, 0x00, 0xFF])
              == Defined(h.(magX := 384, magY := 0, magZ := -384))
  {
  }

  /** A low byte from 0x80 on always converts: the raw reading is in -128..-1. */
  lemma ConvertMagneticDefinedForNegativeLowBytes(h: Handle, buf: Block6)
    requires buf[0] >= 0x80 && buf[2] >= 0x80 && buf[4] >= 0x80
    ensures ConvertMagnetic(h, buf).Defined?
  {
  }
}
