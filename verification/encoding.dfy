/**
  The configuration encoder: the bytes Init writes to CFG_REG_A, CFG_REG_B
  and CFG_REG_C, each paired with a decoder that recovers the settings it
  was built from.
 */
module Encoding {
  import opened Bits
  import opened Options
  import opened Config

  datatype CfgAFields = CfgAFields(tempComp: TempComp, powerMode: PowerMode, dataRate: DataRate, operatingMode: OperatingMode)

  datatype CfgBFields = CfgBFields(
    irqOffsetMode: IrqOffsetMode,
    offsetCancellationPulse: OffsetPulse,
    lpf: LowPassFilter,
    offsetCancellation: OffsetCancellation
  )

  datatype CfgCFields = CfgCFields(intPinMode: IntPinMode, drdyPinMode: DrdyPinMode)

  /**
    CFG-A: temperature compensation at bit 7, power mode at bit 4, data rate
    at bits 3:2 and operating mode at bits 1:0. The fields are disjoint, so
    the OR is their weighted sum, and bits 5 (soft reset) and 6 (reboot) stay
    clear.
   */
  function CfgA(t: TempComp, p: PowerMode, d: DataRate, m: OperatingMode): (r: Byte)
    ensures r == 0x80 * TempCompCode(t) + 0x10 * PowerModeCode(p) + 4 * DataRateCode(d) + OperatingModeCode(m)
    ensures r & 0x60 == 0
    ensures DecodeCfgA(r) == Some(CfgAFields(t, p, d, m))
  {
    (TempCompCode(t) << 7) | (PowerModeCode(p) << 4) | (DataRateCode(d) << 2) | (OperatingModeCode(m) << 0)
  }

  /** The CFG-A fields held in a byte, or None when the byte is no CfgA value. */
  function DecodeCfgA(b: Byte): Option<CfgAFields> {
    if b & 0x60 != 0 || b & 0x03 == 0x03 then None
    else
      Some(CfgAFields(
        if b & 0x80 != 0 then TempCompEnabled else TempCompDisabled,
        if b & 0x10 != 0 then LowPower else HighResolution,
        match (b >> 2) & 0x03
        case 0 => Odr10Hz
        case 1 => Odr20Hz
        case 2 => Odr50Hz
        case _ => Odr100Hz,
        match b & 0x03
        case 0 => Continuous
        case 1 => OneShot
        case _ => Idle))
  }

  /** Only bytes that CfgA produces decode: the decoder accepts exactly the encoder's image. */
  lemma DecodeCfgAOnlyEncodings(b: Byte)
    ensures DecodeCfgA(b).Some? ==>
              var f := DecodeCfgA(b).value;
              CfgA(f.tempComp, f.powerMode, f.dataRate, f.operatingMode) == b
  {
    if DecodeCfgA(b).Some? {
      var f := DecodeCfgA(b).value;
      var e := CfgA(f.tempComp, f.powerMode, f.dataRate, f.operatingMode);
      assert e & 0x80 == b & 0x80;
      assert e & 0x10 == b & 0x10;
      assert e & 0x0C == b & 0x0C;
      assert e & 0x03 == b & 0x03;
    }
  }

  /** Where the offset-cancellation bit sits: bit 4 in one-shot mode, bit 1 otherwise. */
  function OffsetCancellationBit(m: OperatingMode): (r: Byte)
    ensures r == 0x10 || r == 0x02
    ensures r == 0x10 <==> m == OneShot
  {
    if m == OneShot then 1 << 4 else 1 << 1
  }

  /**
    CFG-B: IRQ-with-offset at bit 3, offset-cancellation pulse at bit 2 and
    low-pass filter at bit 0; the offset-cancellation bit moves with the
    operating mode, and bits 7:5 stay clear.
   */
  function CfgB(i: IrqOffsetMode, p: OffsetPulse, f: LowPassFilter, c: OffsetCancellation, m: OperatingMode): (r: Byte)
    ensures r & 0xE0 == 0
    ensures r & 0x08 != 0 <==> i == IrqWithOffset
    ensures r & 0x04 != 0 <==> p == OffsetPulseEnabled
    ensures r & 0x01 != 0 <==> f == LowPassFilterEnabled
    ensures m == OneShot ==> r & 0x02 == 0 && (r & 0x10 != 0 <==> c == OffsetCancellationEnabled)
    ensures m != OneShot ==> r & 0x10 == 0 && (r & 0x02 != 0 <==> c == OffsetCancellationEnabled)
    ensures DecodeCfgB(r, m) == Some(CfgBFields(i, p, f, c))
  {
    var base := (IrqOffsetModeCode(i) << 3) | (OffsetPulseCode(p) << 2) | (LowPassFilterCode(f) << 0);
    if m == OneShot then base | (OffsetCancellationCode(c) << 4) else base | (OffsetCancellationCode(c) << 1)
  }

  /** The CFG-B fields held in a byte written under operating mode `m`. */
  function DecodeCfgB(b: Byte, m: OperatingMode): Option<CfgBFields> {
    var unused := 0xE0 | (0x12 ^ OffsetCancellationBit(m));
    if b & unused != 0 then None
    else
      Some(CfgBFields(
        if b & 0x08 != 0 then IrqWithOffset else IrqWithoutOffset,
        if b & 0x04 != 0 then OffsetPulseEnabled else OffsetPulseDisabled,
        if b & 0x01 != 0 then LowPassFilterEnabled else LowPassFilterDisabled,
        if b & OffsetCancellationBit(m) != 0 then OffsetCancellationEnabled else OffsetCancellationDisabled))
  }

  lemma DecodeCfgBOnlyEncodings(b: Byte, m: OperatingMode)
    ensures DecodeCfgB(b, m).Some? ==>
              var f := DecodeCfgB(b, m).value;
              CfgB(f.irqOffsetMode, f.offsetCancellationPulse, f.lpf, f.offsetCancellation, m) == b
  {
    if DecodeCfgB(b, m).Some? {
      var f := DecodeCfgB(b, m).value;
      var e := CfgB(f.irqOffsetMode, f.offsetCancellationPulse, f.lpf, f.offsetCancellation, m);
      assert e & 0x1F == b & 0x1F;
    }
  }

  /** The LPF, pulse and IRQ-with-offset bits (0, 2 and 3) do not depend on the operating mode. */
  lemma CfgBModeIndependent(i: IrqOffsetMode, p: OffsetPulse, f: LowPassFilter, c: OffsetCancellation,
                            m1: OperatingMode, m2: OperatingMode)
    ensures CfgB(i, p, f, c, m1) & 0x0D == CfgB(i, p, f, c, m2) & 0x0D
  {
  }

  /**
    CFG-C: interrupt pin mode at bit 6, data-ready pin mode at bit 0, and
    bit 4 always set; every other bit is clear.
   */
  function CfgC(i: IntPinMode, d: DrdyPinMode): (r: Byte)
    ensures r & 0x10 == 0x10
    ensures r & 0xAE == 0
    ensures r & 0x40 != 0 <==> i == IntOnPin
    ensures r & 0x01 != 0 <==> d == DrdyOnPin
    ensures DecodeCfgC(r) == Some(CfgCFields(i, d))
  {
    (IntPinModeCode(i) << 6) | (1 << 4) | DrdyPinModeCode(d)
  }

  function DecodeCfgC(b: Byte): Option<CfgCFields> {
    if b & 0xAE != 0 || b & 0x10 == 0 then None
    else
      Some(CfgCFields(
        if b & 0x40 != 0 then IntOnPin else IntSignalDisabled,
        if b & 0x01 != 0 then DrdyOnPin else DrdySignalDisabled))
  }

  lemma DecodeCfgCOnlyEncodings(b: Byte)
    ensures DecodeCfgC(b).Some? ==> CfgC(DecodeCfgC(b).value.intPinMode, DecodeCfgC(b).value.drdyPinMode) == b
  {
    if DecodeCfgC(b).Some? {
      var f := DecodeCfgC(b).value;
      var e := CfgC(f.intPinMode, f.drdyPinMode);
      assert e & 0x41 == b & 0x41;
    }
  }
}
