/**
  The driver operations. Each one takes the replies the bus gives to its
  calls and returns the transcript of those calls (and, for ReadMagnetic,
  the result and the updated handle). No operation stops early on a failed
  call: a failure only adds a log line.
 */
module Driver {
  import opened Bits
  import opened Options
  import opened Config
  import opened RegisterMap
  import opened Encoding
  import opened Bus
  import opened Conversion

  /** The identity the WHO_AM_I register must hold. */
  const DEVICE_ID: Byte := 0x40

  /** The replies to Init's bus calls, in call order. */
  datatype InitReplies = InitReplies(
    whoAmI: ByteReply,
    offsetX: Status,
    offsetY: Status,
    offsetZ: Status,
    intThreshold: Status,
    cfgA: Status,
    cfgB: Status,
    cfgC: Status,
    intCtrl: Status,
    flush: BlockReply
  )

  /** Every Init call succeeded and the device identified itself. */
  predicate InitClean(bus: InitReplies) {
    && bus.whoAmI.status.Ok? && bus.whoAmI.value == DEVICE_ID
    && bus.offsetX.Ok? && bus.offsetY.Ok? && bus.offsetZ.Ok? && bus.intThreshold.Ok?
    && bus.cfgA.Ok? && bus.cfgB.Ok? && bus.cfgC.Ok? && bus.intCtrl.Ok?
    && bus.flush.status.Ok?
  }

  /**
    The interrupt line is disabled right after the bus comes up and enabled
    only as the last call, so every register access happens with it off.
   */
  predicate IrqBracketed(t: seq<Event>) {
    && |t| >= 3
    && t[0] == BusInit
    && t[1] == Ioctl(IRQDisable)
    && t[|t| - 1] == Ioctl(IRQEnable)
    && forall i :: 1 < i < |t| - 1 ==> t[i].Read? || t[i].Write?
  }

  /** The log line of the identity check: a failed read, or a read of the wrong identity. */
  function IdentityLog(reply: ByteReply): (r: seq<LogEntry>)
    ensures r == [] <==> reply.status.Ok? && reply.value == DEVICE_ID
  {
    if reply.status.Error? then [InitIdReadFailed]
    else if reply.value != DEVICE_ID then [InitIdMismatch]
    else []
  }

  /** The reply to one of Init's calls after the identity check. */
  function InitStatus(bus: InitReplies, c: InitCall): Status {
    match c
    case OffsetXWrite => bus.offsetX
    case OffsetYWrite => bus.offsetY
    case OffsetZWrite => bus.offsetZ
    case ThresholdWrite => bus.intThreshold
    case CfgAWrite => bus.cfgA
    case CfgBWrite => bus.cfgB
    case CfgCWrite => bus.cfgC
    case IntCtrlWrite => bus.intCtrl
    case DataRead => bus.flush.status
  }

  /** Init's calls after the identity check, in call order, each with the line it logs on failure. */
  function InitSteps(bus: InitReplies): seq<Step> {
    [ Step(bus.offsetX, InitCallFailed(OffsetXWrite)),
      Step(bus.offsetY, InitCallFailed(OffsetYWrite)),
      Step(bus.offsetZ, InitCallFailed(OffsetZWrite)),
      Step(bus.intThreshold, InitCallFailed(ThresholdWrite)),
      Step(bus.cfgA, InitCallFailed(CfgAWrite)),
      Step(bus.cfgB, InitCallFailed(CfgBWrite)),
      Step(bus.cfgC, InitCallFailed(CfgCWrite)),
      Step(bus.intCtrl, InitCallFailed(IntCtrlWrite)),
      Step(bus.flush.status, InitCallFailed(DataRead)) ]
  }

  /** The log of Init: the identity check's line, then one line per failed call, in call order. */
  function InitLog(bus: InitReplies): (log: seq<LogEntry>)
    ensures log == [] <==> InitClean(bus)
    ensures |log| <= 10
  {
    var steps := InitSteps(bus);
    FailuresEmpty(steps);
    IdentityLog(bus.whoAmI) + Failures(steps)
  }

  /** The identity check logs a failed read, or a mismatch, and nothing when the device answered 0x40. */
  lemma InitLogIdentity(bus: InitReplies)
    ensures InitIdReadFailed in InitLog(bus) <==> bus.whoAmI.status.Error?
    ensures InitIdMismatch in InitLog(bus) <==> bus.whoAmI.status.Ok? && bus.whoAmI.value != DEVICE_ID
  {
    FailuresContains(InitSteps(bus), InitIdReadFailed);
    FailuresContains(InitSteps(bus), InitIdMismatch);
  }

  /** Each later call is logged exactly when it failed, whatever the other calls did. */
  lemma InitLogCall(bus: InitReplies, c: InitCall)
    ensures InitCallFailed(c) in InitLog(bus) <==> InitStatus(bus, c).Error?
  {
    FailuresContains(InitSteps(bus), InitCallFailed(c));
  }

  /**
    Init: bring up the bus, disable the interrupt line, check the identity,
    write the offsets, the threshold, CFG-A, CFG-B, CFG-C and the interrupt
    control byte, read and discard one sample, and enable the interrupt line.
    The calls are the same whatever the bus replies; the replies only decide
    which steps are logged as failed.
   */
  function Init(s: Settings, bus: InitReplies): (r: Transcript)
    ensures |r.trace| == 13
    ensures IrqBracketed(r.trace)
    ensures r.log == [] <==> InitClean(bus)
  {
    Transcript(
      [BusInit, Ioctl(IRQDisable), Read(WHO_AM_I, 1)] + InitWordWrites(s) + InitConfigWrites(s)
        + [Read(OUTX_L_REG, 6), Ioctl(IRQEnable)],
      InitLog(bus))
  }

  /** The offsets and the threshold, each written as its two bytes from the low register on. */
  function InitWordWrites(s: Settings): seq<Event> {
    [ Write(OFFSET_X_REG_L, WordBytes(s.offsetX)),
      Write(OFFSET_Y_REG_L, WordBytes(s.offsetY)),
      Write(OFFSET_Z_REG_L, WordBytes(s.offsetZ)),
      Write(INT_THS_L_REG, WordBytes(s.intThreshold)) ]
  }

  /** CFG-A, CFG-B, CFG-C and the interrupt control byte, one byte each. */
  function InitConfigWrites(s: Settings): seq<Event> {
    [ Write(CFG_REG_A, [CfgA(s.tempComp, s.powerMode, s.dataRate, s.operatingMode)]),
      Write(CFG_REG_B, [CfgB(s.irqOffsetMode, s.offsetCancellationPulse, s.lpf, s.offsetCancellation, s.operatingMode)]),
      Write(CFG_REG_C, [CfgC(s.intPinMode, s.drdyPinMode)]),
      Write(INT_CTRL_REG, [s.irqConfig]) ]
  }

  /**
    Init's calls, in order, at the header's register addresses. They are the
    same whatever the bus replies: a failed read, a wrong identity or a failed
    write stops nothing.
   */
  lemma InitTrace(s: Settings, bus: InitReplies)
    ensures Init(s, bus).trace == [
              BusInit,
              Ioctl(IRQDisable),
              Read(0x4F, 1),
              Write(0x45, WordBytes(s.offsetX)),
              Write(0x47, WordBytes(s.offsetY)),
              Write(0x49, WordBytes(s.offsetZ)),
              Write(0x65, WordBytes(s.intThreshold)),
              Write(0x60, [CfgA(s.tempComp, s.powerMode, s.dataRate, s.operatingMode)]),
              Write(0x61, [CfgB(s.irqOffsetMode, s.offsetCancellationPulse, s.lpf, s.offsetCancellation, s.operatingMode)]),
              Write(0x62, [CfgC(s.intPinMode, s.drdyPinMode)]),
              Write(0x63, [s.irqConfig]),
              Read(0x68, 6),
              Ioctl(IRQEnable)
            ]
  {
  }

  /** Reset: write the soft-reset bit (bit 5) to CFG-A and nothing else; no wait, no check. */
  function Reset(st: Status): (r: Transcript)
    ensures r.trace == [Write(0x60, [0x20])]
    ensures st.Ok? ==> r.log == []
    ensures st.Error? ==> r.log == [ResetFailed]
  {
    var resetSignal: Byte := 1 << 5;
    Call(Transcript([], []), Write(CFG_REG_A, [resetSignal]), LogIfError(st, ResetFailed))
  }

  /** DeInit: Reset, then release the bus's pins; the shared bus itself stays up. */
  function DeInit(resetStatus: Status): (r: Transcript)
    ensures r.trace == Reset(resetStatus).trace + [BusDeInit]
    ensures r.log == Reset(resetStatus).log
    ensures r.trace == [Write(0x60, [0x20]), BusDeInit]
  {
    Call(Reset(resetStatus), BusDeInit, [])
  }

  /**
    The read-modify-write of StartConversion: bit 1 cleared, bit 0 set
    (single conversion), bits 7:2 kept.
   */
  function ConversionTrigger(reg: Byte): (r: Byte)
    ensures r & 0xFC == reg & 0xFC
    ensures r & 0x03 == 0x01
  {
    (reg & !(1 << 1)) | (1 << 0)
  }

  /** Triggering twice writes the same byte as triggering once. */
  lemma ConversionTriggerIdempotent(reg: Byte)
    ensures ConversionTrigger(ConversionTrigger(reg)) == ConversionTrigger(reg)
  {
  }

  /**
    Triggering a conversion on a CFG-A byte the encoder built selects
    one-shot mode and keeps temperature compensation, power mode and data
    rate.
   */
  lemma ConversionTriggerSelectsOneShot(t: TempComp, p: PowerMode, d: DataRate, m: OperatingMode)
    ensures ConversionTrigger(CfgA(t, p, d, m)) == CfgA(t, p, d, OneShot)
    ensures DecodeCfgA(ConversionTrigger(CfgA(t, p, d, m))) == Some(CfgAFields(t, p, d, OneShot))
  {
  }

  /** The replies to StartConversion's read of CFG-A and its write back. */
  datatype StartReplies = StartReplies(cfgA: ByteReply, write: Status)

  /**
    StartConversion: read CFG-A and write back its trigger. The write
    happens even when the read failed; the byte it is computed from is then
    whatever the buffer held.
   */
  function StartConversion(bus: StartReplies): (r: Transcript)
    ensures r.trace == [Read(0x60, 1), Write(0x60, [ConversionTrigger(bus.cfgA.value)])]
    ensures CfgAReadFailed in r.log <==> bus.cfgA.status.Error?
    ensures CfgAWriteFailed in r.log <==> bus.write.Error?
    ensures r.log == [] <==> bus.cfgA.status.Ok? && bus.write.Ok?
  {
    var t := Call(Transcript([], []), Read(CFG_REG_A, 1), LogIfError(bus.cfgA.status, CfgAReadFailed));
    Call(t, Write(CFG_REG_A, [ConversionTrigger(bus.cfgA.value)]), LogIfError(bus.write, CfgAWriteFailed))
  }

  /** X, Y and Z data-available (status bits 0 to 2) are all set. */
  function AllAxesReady(status: Byte): (r: bool)
    ensures r <==> status & 0x01 != 0 && status & 0x02 != 0 && status & 0x04 != 0
  {
    status & 0x07 == 0x07
  }

  /** The replies to ReadMagnetic's status read and data read. */
  datatype MagReplies = MagReplies(status: ByteReply, data: BlockReply)

  datatype MagResult = MagResult(status: DataReadyStatus, handle: Handle, transcript: Transcript)

  /**
    ReadMagnetic: read STATUS_REG; on a failed read return DataNotReady with
    the handle untouched; when not all three axes are ready, clear the
    handle's flag and return DataNotReady; otherwise read the six output
    bytes, clear the flag, decode the buffer (also when that read failed)
    and return DataReady.
   */
  function ReadMagnetic(h: Handle, bus: MagReplies): (r: Behaviour<MagResult>)
    ensures r.Defined? ==> (r.value.status == DataReady <==> bus.status.status.Ok? && AllAxesReady(bus.status.value))
    ensures r.Undefined? ==> bus.status.status.Ok? && AllAxesReady(bus.status.value)
    ensures bus.status.status.Error? ==>
              r == Defined(MagResult(DataNotReady, h, Transcript([Read(0x67, 1)], [StatusReadFailed])))
    ensures bus.status.status.Ok? && !AllAxesReady(bus.status.value) ==>
              r == Defined(MagResult(DataNotReady, h.(dataReadyFlag := DataNotReady), Transcript([Read(0x67, 1)], [])))
    ensures bus.status.status.Ok? && AllAxesReady(bus.status.value) ==>
              && (r.Defined? <==> ConvertMagnetic(h, bus.data.data).Defined?)
              && (r.Defined? ==>
                    && r.value.handle == ConvertMagnetic(h, bus.data.data).value.(dataReadyFlag := DataNotReady)
                    && r.value.transcript.trace == [Read(0x67, 1), Read(0x68, 6)]
                    && (r.value.transcript.log == [] <==> bus.data.status.Ok?))
    ensures r.Defined? ==> r.value.handle.dataReadyFlag == DataNotReady || r.value.handle == h
  {
    if bus.status.status.Error? then
      Defined(MagResult(DataNotReady, h, Transcript([Read(STATUS_REG, 1)], [StatusReadFailed])))
    else if !AllAxesReady(bus.status.value) then
      Defined(MagResult(DataNotReady, h.(dataReadyFlag := DataNotReady), Transcript([Read(STATUS_REG, 1)], [])))
    else
      var t := Call(Transcript([Read(STATUS_REG, 1)], []), Read(OUTX_L_REG, 6), LogIfError(bus.data.status, DataReadFailed));
      match ConvertMagnetic(h.(dataReadyFlag := DataNotReady), bus.data.data)
      case Defined(h') => Defined(MagResult(DataReady, h', t))
      case Undefined => Undefined
  }

  /** A poll that finds the axes not all ready changes no field strength, however often repeated. */
  lemma ReadMagneticNotReadyKeepsSamples(h: Handle, first: MagReplies, second: MagReplies)
    requires first.status.status.Ok? && !AllAxesReady(first.status.value)
    requires second.status.status.Ok? && !AllAxesReady(second.status.value)
    ensures ReadMagnetic(h, first).Defined?
    ensures var h1 := ReadMagnetic(h, first).value.handle;
            && ReadMagnetic(h1, second).Defined?
            && ReadMagnetic(h1, second).value.status == DataNotReady
            && ReadMagnetic(h1, second).value.handle == h.(dataReadyFlag := DataNotReady)
  {
  }

  /** A failed data read changes neither the result nor the decoded samples, only the log. */
  lemma ReadMagneticIgnoresDataStatus(h: Handle, bus: MagReplies, st: Status)
    ensures var other := bus.(data := bus.data.(status := st));
            && ReadMagnetic(h, bus).Defined? == ReadMagnetic(h, other).Defined?
            && (ReadMagnetic(h, bus).Defined? ==>
                  && ReadMagnetic(h, bus).value.status == ReadMagnetic(h, other).value.status
                  && ReadMagnetic(h, bus).value.handle == ReadMagnetic(h, other).value.handle)
  {
  }

  /** The buffer of a raw register read. */
  datatype RegRead = RegRead(data: seq<Byte>, transcript: Transcript)

  /** ReadReg: one read of `length` bytes at `reg`, passed through; a failure is logged with the address. */
  function ReadReg(reg: Byte, length: Byte, reply: ReadReply): (r: RegRead)
    requires |reply.data| == length as int
    ensures r.transcript.trace == [Read(reg, length)]
    ensures r.data == reply.data
    ensures r.transcript.log == (if reply.status.Error? then [ReadRegFailed(reg)] else [])
  {
    RegRead(reply.data, Call(Transcript([], []), Read(reg, length), LogIfError(reply.status, ReadRegFailed(reg))))
  }

  /** WriteReg: one write of the first `length` bytes of `data` at `reg`; a failure is logged with the address. */
  function WriteReg(reg: Byte, data: seq<Byte>, length: Byte, st: Status): (r: Transcript)
    requires length as int <= |data|
    ensures |r.trace| == 1 && r.trace[0].Write? && r.trace[0].addr == reg
    ensures r.trace[0].data == data[..length]
    ensures r.log == (if st.Error? then [WriteRegFailed(reg)] else [])
  {
    Call(Transcript([], []), Write(reg, data[..length]), LogIfError(st, WriteRegFailed(reg)))
  }
}
