/**
  What the driver's calls do to the sensor: the register file after Init
  holds the settings, Reset and StartConversion change CFG-A only, and
  ReadMagnetic decodes the output registers in address order.
 */
module DeviceEffects {
  import opened Bits
  import opened Options
  import opened Config
  import opened RegisterMap
  import opened Encoding
  import opened Bus
  import opened Conversion
  import opened Device
  import opened Driver

  /**
    The settings a register file holds, read back through the same map Init
    writes through, or None when a configuration register holds a byte no
    settings encode.
   */
  function DecodeSettings(regs: Registers): (r: Option<Settings>)
    ensures r.Some? ==>
              && Reg(regs, CFG_REG_A) == CfgA(r.value.tempComp, r.value.powerMode, r.value.dataRate, r.value.operatingMode)
              && Reg(regs, CFG_REG_B) == CfgB(r.value.irqOffsetMode, r.value.offsetCancellationPulse, r.value.lpf,
                                              r.value.offsetCancellation, r.value.operatingMode)
              && Reg(regs, CFG_REG_C) == CfgC(r.value.intPinMode, r.value.drdyPinMode)
              && WordBytes(r.value.offsetX) == [Reg(regs, OFFSET_X_REG_L), Reg(regs, OFFSET_X_REG_H)]
              && WordBytes(r.value.offsetY) == [Reg(regs, OFFSET_Y_REG_L), Reg(regs, OFFSET_Y_REG_H)]
              && WordBytes(r.value.offsetZ) == [Reg(regs, OFFSET_Z_REG_L), Reg(regs, OFFSET_Z_REG_H)]
              && WordBytes(r.value.intThreshold) == [Reg(regs, INT_THS_L_REG), Reg(regs, INT_THS_H_REG)]
              && r.value.irqConfig == Reg(regs, INT_CTRL_REG)
  {
    var a := Reg(regs, CFG_REG_A);
    DecodeCfgAOnlyEncodings(a);
    match DecodeCfgA(a)
    case None => None
    case Some(fa) =>
      var b := Reg(regs, CFG_REG_B);
      DecodeCfgBOnlyEncodings(b, fa.operatingMode);
      match DecodeCfgB(b, fa.operatingMode)
      case None => None
      case Some(fb) =>
        var c := Reg(regs, CFG_REG_C);
        DecodeCfgCOnlyEncodings(c);
        match DecodeCfgC(c)
        case None => None
        case Some(fc) =>
          JoinRoundTrip(Reg(regs, OFFSET_X_REG_L), Reg(regs, OFFSET_X_REG_H));
          JoinRoundTrip(Reg(regs, OFFSET_Y_REG_L), Reg(regs, OFFSET_Y_REG_H));
          JoinRoundTrip(Reg(regs, OFFSET_Z_REG_L), Reg(regs, OFFSET_Z_REG_H));
          JoinRoundTrip(Reg(regs, INT_THS_L_REG), Reg(regs, INT_THS_H_REG));
          Some(Settings(
            Join(Reg(regs, OFFSET_X_REG_L), Reg(regs, OFFSET_X_REG_H)),
            Join(Reg(regs, OFFSET_Y_REG_L), Reg(regs, OFFSET_Y_REG_H)),
            Join(Reg(regs, OFFSET_Z_REG_L), Reg(regs, OFFSET_Z_REG_H)),
            Join(Reg(regs, INT_THS_L_REG), Reg(regs, INT_THS_H_REG)),
            fa.tempComp, fa.powerMode, fa.dataRate, fa.operatingMode,
            fb.offsetCancellation, fb.offsetCancellationPulse, fb.irqOffsetMode, fb.lpf,
            fc.drdyPinMode, fc.intPinMode,
            Reg(regs, INT_CTRL_REG)))
  }

  /**
    The register file Init leaves behind, when the device takes every write:
    the offset and threshold pairs low byte first, the three configuration
    registers and the interrupt control register, and nothing else.
   */
  function Programmed(regs: Registers, s: Settings): Registers {
    regs[0x45 := LowByte(s.offsetX)][0x46 := HighByte(s.offsetX)]
        [0x47 := LowByte(s.offsetY)][0x48 := HighByte(s.offsetY)]
        [0x49 := LowByte(s.offsetZ)][0x4A := HighByte(s.offsetZ)]
        [0x65 := LowByte(s.intThreshold)][0x66 := HighByte(s.intThreshold)]
        [0x60 := CfgA(s.tempComp, s.powerMode, s.dataRate, s.operatingMode)]
        [0x61 := CfgB(s.irqOffsetMode, s.offsetCancellationPulse, s.lpf, s.offsetCancellation, s.operatingMode)]
        [0x62 := CfgC(s.intPinMode, s.drdyPinMode)]
        [0x63 := s.irqConfig]
  }

  /** The registers Init writes. */
  const INIT_REGISTERS: set<int> := {0x45, 0x46, 0x47, 0x48, 0x49, 0x4A, 0x60, 0x61, 0x62, 0x63, 0x65, 0x66}

  /** Replaying a call and then a trace. */
  lemma ReplayCons(regs: Registers, e: Event, rest: seq<Event>)
    ensures Replay(regs, [e] + rest) == Replay(ApplyEvent(regs, e), rest)
  {
    assert ([e] + rest)[0] == e;
    assert ([e] + rest)[1..] == rest;
  }

  /** Replaying Init's four 16-bit writes puts each variable's low byte at its low register and its high byte above. */
  lemma ReplayInitWords(regs: Registers, s: Settings)
    ensures Replay(regs, InitWordWrites(s)) ==
              regs[0x45 := LowByte(s.offsetX)][0x46 := HighByte(s.offsetX)]
                  [0x47 := LowByte(s.offsetY)][0x48 := HighByte(s.offsetY)]
                  [0x49 := LowByte(s.offsetZ)][0x4A := HighByte(s.offsetZ)]
                  [0x65 := LowByte(s.intThreshold)][0x66 := HighByte(s.intThreshold)]
  {
    var w := InitWordWrites(s);
    assert w == [w[0]] + ([w[1]] + ([w[2]] + ([w[3]] + [])));
    var r1 := regs[0x45 := LowByte(s.offsetX)][0x46 := HighByte(s.offsetX)];
    var r2 := r1[0x47 := LowByte(s.offsetY)][0x48 := HighByte(s.offsetY)];
    var r3 := r2[0x49 := LowByte(s.offsetZ)][0x4A := HighByte(s.offsetZ)];
    WriteBurstTwo(regs, 0x45, LowByte(s.offsetX), HighByte(s.offsetX));
    ReplayCons(regs, w[0], [w[1]] + ([w[2]] + ([w[3]] + [])));
    WriteBurstTwo(r1, 0x47, LowByte(s.offsetY), HighByte(s.offsetY));
    ReplayCons(r1, w[1], [w[2]] + ([w[3]] + []));
    WriteBurstTwo(r2, 0x49, LowByte(s.offsetZ), HighByte(s.offsetZ));
    ReplayCons(r2, w[2], [w[3]] + []);
    WriteBurstTwo(r3, 0x65, LowByte(s.intThreshold), HighByte(s.intThreshold));
    ReplayCons(r3, w[3], []);
  }

  /** Replaying Init's four one-byte writes sets CFG-A, CFG-B, CFG-C and the interrupt control register. */
  lemma ReplayInitConfig(regs: Registers, s: Settings)
    ensures Replay(regs, InitConfigWrites(s)) ==
              regs[0x60 := CfgA(s.tempComp, s.powerMode, s.dataRate, s.operatingMode)]
                  [0x61 := CfgB(s.irqOffsetMode, s.offsetCancellationPulse, s.lpf, s.offsetCancellation, s.operatingMode)]
                  [0x62 := CfgC(s.intPinMode, s.drdyPinMode)]
                  [0x63 := s.irqConfig]
  {
    var w := InitConfigWrites(s);
    var a := CfgA(s.tempComp, s.powerMode, s.dataRate, s.operatingMode);
    var b := CfgB(s.irqOffsetMode, s.offsetCancellationPulse, s.lpf, s.offsetCancellation, s.operatingMode);
    var c := CfgC(s.intPinMode, s.drdyPinMode);
    assert w == [w[0]] + ([w[1]] + ([w[2]] + ([w[3]] + [])));
    WriteBurstOne(regs, 0x60, a);
    ReplayCons(regs, w[0], [w[1]] + ([w[2]] + ([w[3]] + [])));
    WriteBurstOne(regs[0x60 := a], 0x61, b);
    ReplayCons(regs[0x60 := a], w[1], [w[2]] + ([w[3]] + []));
    WriteBurstOne(regs[0x60 := a][0x61 := b], 0x62, c);
    ReplayCons(regs[0x60 := a][0x61 := b], w[2], [w[3]] + []);
    WriteBurstOne(regs[0x60 := a][0x61 := b][0x62 := c], 0x63, s.irqConfig);
    ReplayCons(regs[0x60 := a][0x61 := b][0x62 := c], w[3], []);
  }

  /**
    A device that takes every write of Init ends up with exactly the
    registers of `Programmed` changed, whatever the bus replied to the
    driver.
   */
  lemma InitReplay(regs: Registers, s: Settings, bus: InitReplies)
    ensures Replay(regs, Init(s, bus).trace) == Programmed(regs, s)
  {
    var head: seq<Event> := [BusInit, Ioctl(IRQDisable), Read(WHO_AM_I, 1)];
    var tail: seq<Event> := [Read(OUTX_L_REG, 6), Ioctl(IRQEnable)];
    var words := InitWordWrites(s);
    var config := InitConfigWrites(s);
    assert Init(s, bus).trace == head + words + config + tail;
    ReplayWithoutWrites(regs, head);
    ReplayAppend(regs, head + words + config, tail);
    ReplayAppend(regs, head + words, config);
    ReplayAppend(regs, head, words);
    ReplayInitWords(regs, s);
    var r1 := Replay(regs, words);
    ReplayInitConfig(r1, s);
    ReplayWithoutWrites(Replay(r1, config), tail);
  }

  /** Init programs the device: the settings read back from the register file are the settings Init was given. */
  lemma InitProgramsDevice(regs: Registers, s: Settings, bus: InitReplies)
    ensures DecodeSettings(Replay(regs, Init(s, bus).trace)) == Some(s)
  {
    InitReplay(regs, s, bus);
    var p := Programmed(regs, s);
    assert Reg(p, CFG_REG_A) == CfgA(s.tempComp, s.powerMode, s.dataRate, s.operatingMode);
    assert Reg(p, CFG_REG_B) == CfgB(s.irqOffsetMode, s.offsetCancellationPulse, s.lpf, s.offsetCancellation, s.operatingMode);
    assert Reg(p, CFG_REG_C) == CfgC(s.intPinMode, s.drdyPinMode);
    assert Join(Reg(p, OFFSET_X_REG_L), Reg(p, OFFSET_X_REG_H)) == s.offsetX;
    assert Join(Reg(p, OFFSET_Y_REG_L), Reg(p, OFFSET_Y_REG_H)) == s.offsetY;
    assert Join(Reg(p, OFFSET_Z_REG_L), Reg(p, OFFSET_Z_REG_H)) == s.offsetZ;
    assert Join(Reg(p, INT_THS_L_REG), Reg(p, INT_THS_H_REG)) == s.intThreshold;
  }

  /** Init leaves every register outside the offset, threshold, configuration and interrupt control registers alone. */
  lemma InitTouchesOnlyConfiguration(regs: Registers, s: Settings, bus: InitReplies, i: int)
    requires 0 <= i < 256 && i !in INIT_REGISTERS
    ensures Replay(regs, Init(s, bus).trace)[i] == regs[i]
  {
    InitReplay(regs, s, bus);
  }

  /** Reset sets CFG-A to the soft-reset bit and changes nothing else; no settings read back from that. */
  lemma ResetEffect(regs: Registers, st: Status)
    ensures Replay(regs, Reset(st).trace) == regs[0x60 := 0x20]
    ensures DecodeSettings(Replay(regs, Reset(st).trace)) == None
  {
    ReplayCons(regs, Write(0x60, [0x20]), []);
    WriteBurstOne(regs, 0x60, 0x20);
  }

  /** DeInit changes the device as Reset does; releasing the pins is no register write. */
  lemma DeInitEffect(regs: Registers, st: Status)
    ensures Replay(regs, DeInit(st).trace) == Replay(regs, Reset(st).trace)
  {
    ReplayAppend(regs, Reset(st).trace, [BusDeInit]);
    ReplayWithoutWrites(Replay(regs, Reset(st).trace), [BusDeInit]);
  }

  /** StartConversion's only effect on the device is CFG-A set to the trigger of the byte its read returned. */
  lemma StartConversionEffect(regs: Registers, bus: StartReplies)
    ensures Replay(regs, StartConversion(bus).trace) == regs[0x60 := ConversionTrigger(bus.cfgA.value)]
  {
    var w := Write(0x60, [ConversionTrigger(bus.cfgA.value)]);
    ReplayCons(regs, Read(0x60, 1), [w]);
    ReplayCons(regs, w, []);
    WriteBurstOne(regs, 0x60, ConversionTrigger(bus.cfgA.value));
  }

  /**
    StartConversion on a device that holds one-shot settings, when its read
    of CFG-A returns the register: the device then holds the same settings,
    the operating-mode field having been rewritten to one-shot.
   */
  lemma StartConversionKeepsOneShotSettings(regs: Registers, s: Settings, write: Status)
    requires DecodeSettings(regs) == Some(s) && s.operatingMode == OneShot
    ensures var bus := StartReplies(ByteReply(Ok, Reg(regs, CFG_REG_A)), write);
            DecodeSettings(Replay(regs, StartConversion(bus).trace)) == Some(s)
  {
    var bus := StartReplies(ByteReply(Ok, Reg(regs, CFG_REG_A)), write);
    var a := ConversionTrigger(Reg(regs, CFG_REG_A));
    ConversionTriggerSelectsOneShot(s.tempComp, s.powerMode, s.dataRate, s.operatingMode);
    StartConversionEffect(regs, bus);
    assert a == Reg(regs, CFG_REG_A);
    assert regs[0x60 := a] == regs;
  }

  /**
    StartConversion on a device set up for continuous mode with offset
    cancellation: CFG-A now says one-shot while CFG-B still has the
    offset-cancellation bit where continuous mode puts it, so the register
    file holds no consistent settings.
   */
  lemma StartConversionOutsideOneShot(regs: Registers, s: Settings, write: Status)
    requires DecodeSettings(regs) == Some(s)
    requires s.operatingMode == Continuous && s.offsetCancellation == OffsetCancellationEnabled
    ensures var bus := StartReplies(ByteReply(Ok, Reg(regs, CFG_REG_A)), write);
            DecodeSettings(Replay(regs, StartConversion(bus).trace)) == None
  {
    var bus := StartReplies(ByteReply(Ok, Reg(regs, CFG_REG_A)), write);
    var a := ConversionTrigger(Reg(regs, CFG_REG_A));
    ConversionTriggerSelectsOneShot(s.tempComp, s.powerMode, s.dataRate, s.operatingMode);
    StartConversionEffect(regs, bus);
    assert Reg(regs[0x60 := a], CFG_REG_B) & 0x02 != 0;
  }

  /** A device that takes WriteReg's write holds its bytes from `reg` on and nothing else changes. */
  lemma WriteRegEffect(regs: Registers, reg: Byte, data: seq<Byte>, length: Byte, st: Status)
    requires length as int <= |data|
    ensures Replay(regs, WriteReg(reg, data, length, st).trace) == WriteBurst(regs, reg, data[..length])
  {
    ReplayCons(regs, Write(reg, data[..length]), []);
  }

  /** The six bytes read from OUTX_L_REG on are the X, Y and Z low/high registers in that order. */
  lemma ReadOutputRegisters(regs: Registers)
    ensures ReadBurst(regs, OUTX_L_REG, 6) ==
              [ Reg(regs, OUTX_L_REG), Reg(regs, OUTX_H_REG), Reg(regs, OUTY_L_REG),
                Reg(regs, OUTY_H_REG), Reg(regs, OUTZ_L_REG), Reg(regs, OUTZ_H_REG) ]
  {
    assert ReadBurst(regs, 0x6D, 1) == [Reg(regs, 0x6D)];
  }

  /**
    ReadMagnetic on a ready device whose data read returns the output
    registers: each field strength is decoded from that axis's low and high
    output register, and the register file is left as it was.
   */
  lemma ReadMagneticDecodesOutputRegisters(h: Handle, regs: Registers, status: Byte, dataStatus: Status)
    requires AllAxesReady(status)
    ensures var bus := MagReplies(ByteReply(Ok, status), BlockReply(dataStatus, ReadBurst(regs, OUTX_L_REG, 6)));
            var r := ReadMagnetic(h, bus);
            && (r.Defined? ==>
                  && r.value.status == DataReady
                  && Scale(RawSample(Reg(regs, OUTX_L_REG), Reg(regs, OUTX_H_REG))) == Some(r.value.handle.magX)
                  && Scale(RawSample(Reg(regs, OUTY_L_REG), Reg(regs, OUTY_H_REG))) == Some(r.value.handle.magY)
                  && Scale(RawSample(Reg(regs, OUTZ_L_REG), Reg(regs, OUTZ_H_REG))) == Some(r.value.handle.magZ)
                  && Replay(regs, r.value.transcript.trace) == regs)
  {
    ReadOutputRegisters(regs);
    var bus := MagReplies(ByteReply(Ok, status), BlockReply(dataStatus, ReadBurst(regs, OUTX_L_REG, 6)));
    var r := ReadMagnetic(h, bus);
    if r.Defined? {
      ReplayWithoutWrites(regs, r.value.transcript.trace);
    }
  }
}
