/**
  The driver's settings and handle types. Each settings option is one of the
  header's enumerations; its code is the enumeration ordinal that the
  configuration encoder shifts into place, so every two-valued option
  contributes at most one bit and the wider ones fit their fields.
 */
module Config {
  import opened Bits

  /** Returned by ReadMagnetic and kept in the handle; ordinals 0 and 1. */
  datatype DataReadyStatus = DataReady | DataNotReady

  datatype TempComp = TempCompDisabled | TempCompEnabled

  datatype PowerMode = HighResolution | LowPower

  datatype DataRate = Odr10Hz | Odr20Hz | Odr50Hz | Odr100Hz

  datatype OperatingMode = Continuous | OneShot | Idle

  datatype OffsetCancellation = OffsetCancellationDisabled | OffsetCancellationEnabled

  datatype OffsetPulse = OffsetPulseDisabled | OffsetPulseEnabled

  datatype IrqOffsetMode = IrqWithoutOffset | IrqWithOffset

  datatype LowPassFilter = LowPassFilterDisabled | LowPassFilterEnabled

  datatype DrdyPinMode = DrdySignalDisabled | DrdyOnPin

  datatype IntPinMode = IntSignalDisabled | IntOnPin

  function TempCompCode(t: TempComp): (r: Byte)
    ensures r <= 1
  {
    match t
    case TempCompDisabled => 0
    case TempCompEnabled => 1
  }

  function PowerModeCode(p: PowerMode): (r: Byte)
    ensures r <= 1
  {
    match p
    case HighResolution => 0
    case LowPower => 1
  }

  /** 10, 20, 50 and 100 Hz are the ordinals 0 to 3: a two-bit field. */
  function DataRateCode(d: DataRate): (r: Byte)
    ensures r <= 3
  {
    match d
    case Odr10Hz => 0
    case Odr20Hz => 1
    case Odr50Hz => 2
    case Odr100Hz => 3
  }

  /** Continuous, one-shot and idle are 0, 1 and 2: the code 3 never occurs. */
  function OperatingModeCode(m: OperatingMode): (r: Byte)
    ensures r <= 2
  {
    match m
    case Continuous => 0
    case OneShot => 1
    case Idle => 2
  }

  function OffsetCancellationCode(c: OffsetCancellation): (r: Byte)
    ensures r <= 1
  {
    match c
    case OffsetCancellationDisabled => 0
    case OffsetCancellationEnabled => 1
  }

  function OffsetPulseCode(p: OffsetPulse): (r: Byte)
    ensures r <= 1
  {
    match p
    case OffsetPulseDisabled => 0
    case OffsetPulseEnabled => 1
  }

  function IrqOffsetModeCode(i: IrqOffsetMode): (r: Byte)
    ensures r <= 1
  {
    match i
    case IrqWithoutOffset => 0
    case IrqWithOffset => 1
  }

  function LowPassFilterCode(f: LowPassFilter): (r: Byte)
    ensures r <= 1
  {
    match f
    case LowPassFilterDisabled => 0
    case LowPassFilterEnabled => 1
  }

  function DrdyPinModeCode(d: DrdyPinMode): (r: Byte)
    ensures r <= 1
  {
    match d
    case DrdySignalDisabled => 0
    case DrdyOnPin => 1
  }

  function IntPinModeCode(i: IntPinMode): (r: Byte)
    ensures r <= 1
  {
    match i
    case IntSignalDisabled => 0
    case IntOnPin => 1
  }

  /** The interrupt-configuration constants, meant to be OR-ed together. */
  datatype IrqFlag =
    | XThresholdEnabled
    | YThresholdEnabled
    | ZThresholdEnabled
    | IrqActiveHigh
    | IrqBitLatched
    | IrqEnabled

  /** Each constant is a single bit, and none of them is bit 3 or bit 4. */
  function IrqFlagBit(f: IrqFlag): (r: Byte)
    ensures r != 0 && r & (r - 1) == 0
    ensures r & 0x18 == 0
  {
    match f
    case XThresholdEnabled => 1 << 0
    case YThresholdEnabled => 1 << 1
    case ZThresholdEnabled => 1 << 2
    case IrqActiveHigh => 1 << 5
    case IrqBitLatched => 1 << 6
    case IrqEnabled => 1 << 7
  }

  /** The bitwise OR of the constants of a set of flags. */
  function IrqMask(flags: set<IrqFlag>): (r: Byte)
    ensures forall f :: r & IrqFlagBit(f) != 0 <==> f in flags
    ensures r & 0x18 == 0
  {
    (if XThresholdEnabled in flags then 0x01 else 0)
    | (if YThresholdEnabled in flags then 0x02 else 0)
    | (if ZThresholdEnabled in flags then 0x04 else 0)
    | (if IrqActiveHigh in flags then 0x20 else 0)
    | (if IrqBitLatched in flags then 0x40 else 0)
    | (if IrqEnabled in flags then 0x80 else 0)
  }

  /** The flags whose bits are set in a byte. */
  function IrqFlagsOf(b: Byte): (r: set<IrqFlag>)
    ensures forall f :: f in r <==> b & IrqFlagBit(f) != 0
  {
    (if b & 0x01 != 0 then {XThresholdEnabled} else {})
    + (if b & 0x02 != 0 then {YThresholdEnabled} else {})
    + (if b & 0x04 != 0 then {ZThresholdEnabled} else {})
    + (if b & 0x20 != 0 then {IrqActiveHigh} else {})
    + (if b & 0x40 != 0 then {IrqBitLatched} else {})
    + (if b & 0x80 != 0 then {IrqEnabled} else {})
  }

  /** Every set of flags is recovered from its mask. */
  lemma IrqMaskRoundTrip(flags: set<IrqFlag>)
    ensures IrqFlagsOf(IrqMask(flags)) == flags
  {
    var m := IrqMask(flags);
    forall f ensures f in IrqFlagsOf(m) <==> f in flags {
    }
  }

  /** A byte is the mask of some set of flags exactly when bits 3 and 4 are clear. */
  lemma IrqMaskImage(b: Byte)
    ensures (exists flags :: IrqMask(flags) == b) <==> b & 0x18 == 0
  {
    if b & 0x18 == 0 {
      var flags := IrqFlagsOf(b);
      assert IrqMask(flags) == b;
    }
  }

  /**
    The settings record the caller fills in before Init. The offsets and the
    threshold are `int16_t` variables, kept as their bit patterns. `irqConfig` is the
    byte that Init copies verbatim into the interrupt control register; a
    caller normally builds it as `IrqMask(flags)`.
   */
  datatype Settings = Settings(
    offsetX: Word,
    offsetY: Word,
    offsetZ: Word,
    intThreshold: Word,
    tempComp: TempComp,
    powerMode: PowerMode,
    dataRate: DataRate,
    operatingMode: OperatingMode,
    offsetCancellation: OffsetCancellation,
    offsetCancellationPulse: OffsetPulse,
    irqOffsetMode: IrqOffsetMode,
    lpf: LowPassFilter,
    drdyPinMode: DrdyPinMode,
    intPinMode: IntPinMode,
    irqConfig: Byte
  )

  /**
    The device handle's data fields. The bus function pointers it also holds
    are replaced by the explicit bus replies each operation takes.
   */
  datatype Handle = Handle(dataReadyFlag: DataReadyStatus, magX: int16, magY: int16, magZ: int16)
}
