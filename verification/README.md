# IIS2MDC magnetometer driver, modelled in Dafny

This project models the register-level core of an STM32 driver for the ST
IIS2MDC three-axis magnetometer (`Core/Src/IIS2MDC.c`, `Core/Inc/IIS2MDC.h`)
and proves properties of the model. It covers three parts.

- **Configuration encoder.** The settings record becomes the bytes written to
  CFG_REG_A, CFG_REG_B, CFG_REG_C and INT_CTRL_REG, plus the two bytes of each
  16-bit offset and of the interrupt threshold.
- **Bus protocol.** Init, Reset, DeInit, StartConversion, ReadMagnetic,
  ReadReg and WriteReg are pure functions. Each takes the bus replies to its
  calls: the status of each call, and the buffer contents after each read,
  which are arbitrary when the read failed. Each returns a transcript: the
  bus calls made, in order, and the log lines emitted.
- **Sample decoder.** It turns the six output bytes into the handle's three
  `int16_t` field strengths, exactly as the code computes them.

A register-file model of the sensor (`Device`) replays a transcript's
writes. This is what connects the encoder to the protocol: after Init, the
register file holds exactly the settings Init was given. That result rests
on the device model's assumptions, listed under "Left out": every write
lands, and the register file is plain memory.

Modules, one per file:

| file | module | what it holds |
|---|---|---|
| options.dfy | Options | `Option`, and `Behaviour` (a value, or C undefined behaviour) |
| bits.dfy | Bits | bytes, 16-bit words, `int16` |
| config.dfy | Config | the header's enumerations and their ordinals, the IRQ-config constants, the settings and handle records |
| registers.dfy | RegisterMap | the header's register addresses |
| encoding.dfy | Encoding | the CFG-A/B/C encoders and their decoders |
| bus.dfy | Bus | bus calls, replies, log lines, transcripts |
| conversion.dfy | Conversion | ConvertMagnetic as written |
| driver.dfy | Driver | the driver operations |
| device.dfy | Device | the sensor's register file |
| properties.dfy | DeviceEffects | what each operation does to the register file |

### Where the code differs from the documented output format

The model follows the code.

- **Sample decode.** `ConvertMagnetic` computes `((int8_t)hi << 8) | ((int8_t)lo << 0)`.
  A low byte of 0x80 or more is sign-extended over bits 31:8, so the result
  is `lo - 256` whatever the high byte is. The documented output format is a
  signed 16-bit value, low byte first, and the decode one would expect is
  the two's-complement value of `hi:lo`.
  - The two agree whenever the low byte is below 0x80
    (`Conversion.AxisWord`).
  - `Conversion.RawSampleDiffersFromWord` shows bytes 0x80, 0x01 decoding to
    -128 where the word 0x0180 is 384.
  - The intended decode is not modelled as a replacement.

## Model

| member | source | states |
|---|---|---|
| Config.TempCompCode | Core/Inc/IIS2MDC.h:23-26 | temperature compensation's ordinal is 0 or 1, a single bit |
| Config.PowerModeCode | Core/Inc/IIS2MDC.h:28-31 | power mode's ordinal is 0 or 1 |
| Config.DataRateCode | Core/Inc/IIS2MDC.h:33-38 | the four data rates are ordinals 0..3 and fit two bits |
| Config.OperatingModeCode | Core/Inc/IIS2MDC.h:40-44 | continuous, one-shot, idle are 0, 1, 2; the code 3 never occurs |
| Config.OffsetCancellationCode | Core/Inc/IIS2MDC.h:46-49 | the ordinal is 0 or 1 |
| Config.OffsetPulseCode | Core/Inc/IIS2MDC.h:51-54 | the ordinal is 0 or 1 |
| Config.IrqOffsetModeCode | Core/Inc/IIS2MDC.h:56-59 | the ordinal is 0 or 1 |
| Config.LowPassFilterCode | Core/Inc/IIS2MDC.h:61-64 | the ordinal is 0 or 1 |
| Config.DrdyPinModeCode | Core/Inc/IIS2MDC.h:66-69 | the ordinal is 0 or 1 |
| Config.IntPinModeCode | Core/Inc/IIS2MDC.h:71-74 | the ordinal is 0 or 1 |
| Config.IrqFlagBit | Core/Inc/IIS2MDC.h:78-85 | each IRQ-config constant is a single bit, and none is bit 3 or bit 4 |
| Config.IrqMask | Core/Inc/IIS2MDC.h:77-85 | the OR of a set of constants has a flag's bit set exactly when the flag is in the set, and bits 3 and 4 clear |
| Config.IrqFlagsOf | Core/Inc/IIS2MDC.h:77-85 | a flag is read from a byte exactly when its bit is set |
| Config.IrqMaskRoundTrip | Core/Inc/IIS2MDC.h:77-85 | every set of flags is recovered from its OR |
| Config.IrqMaskImage | Core/Inc/IIS2MDC.h:77-85 | a byte is an OR of the constants exactly when bits 3 and 4 are clear |
| Bits.Join | Core/Src/IIS2MDC.c:56-57 | the word with a given low and high byte has exactly those bytes |
| Bits.WordBytes | Core/Src/IIS2MDC.c:56-77 | a 16-bit variable goes on the bus as exactly two bytes, low byte first, which join back to the variable |
| Bits.JoinRoundTrip | Core/Src/IIS2MDC.c:56-77 | splitting the word built from two bytes gives those bytes back |
| Bits.Int16Of | Core/Inc/IIS2MDC.h:93-95 | the two's-complement `int16_t` value of a high and low byte |
| Encoding.CfgA | Core/Src/IIS2MDC.c:80 | CFG-A is 0x80·tempComp + 0x10·powerMode + 4·dataRate + operatingMode, so the fields are disjoint; bits 5 and 6 are clear; the decoder recovers every field |
| Encoding.DecodeCfgAOnlyEncodings | Core/Src/IIS2MDC.c:80 | only bytes CfgA produces decode, and they decode to the fields that produce them |
| Encoding.OffsetCancellationBit | Core/Src/IIS2MDC.c:87-91 | the offset-cancellation bit is bit 4 exactly in one-shot mode, otherwise bit 1 |
| Encoding.CfgB | Core/Src/IIS2MDC.c:86-91 | IRQ-with-offset at bit 3, pulse at bit 2, LPF at bit 0; offset cancellation at bit 4 in one-shot mode with bit 1 clear, otherwise at bit 1 with bit 4 clear; bits 7:5 clear; the decoder recovers every field |
| Encoding.DecodeCfgBOnlyEncodings | Core/Src/IIS2MDC.c:86-91 | only bytes CfgB produces for the mode decode, to the fields that produce them |
| Encoding.CfgBModeIndependent | Core/Src/IIS2MDC.c:86 | bits 0, 2 and 3 do not depend on the operating mode |
| Encoding.CfgC | Core/Src/IIS2MDC.c:98 | bit 4 always set, interrupt pin mode at bit 6, data-ready pin mode at bit 0, all other bits clear; the decoder recovers both fields |
| Encoding.DecodeCfgCOnlyEncodings | Core/Src/IIS2MDC.c:98 | only bytes CfgC produces decode, to the fields that produce them |
| Bus.Failures | Core/Src/IIS2MDC.c:55-113 | a run of calls, none stopping the run, logs at most one line per call |
| Bus.FailuresContains | Core/Src/IIS2MDC.c:55-113 | a line is logged exactly when a call carrying it failed |
| Bus.FailuresEmpty | Core/Src/IIS2MDC.c:55-113 | nothing is logged exactly when every call succeeded |
| Conversion.SignExtend | Core/Src/IIS2MDC.c:237 | `(int8_t)b` promoted to `int` has the value b below 0x80 and b − 256 from 0x80 on |
| Conversion.AxisWordBothPositive | Core/Src/IIS2MDC.c:237 | with both bytes below 0x80 the OR is hi·256 + lo |
| Conversion.AxisWordNegativeHigh | Core/Src/IIS2MDC.c:237 | with the low byte below 0x80 and the high byte from 0x80 on, the OR is hi·256 + lo − 65536 |
| Conversion.AxisWordNegativeLow | Core/Src/IIS2MDC.c:237 | with the low byte from 0x80 on, the OR is lo − 256 |
| Conversion.AxisWord | Core/Src/IIS2MDC.c:237-239 | the axis word is the two's-complement value of hi:lo when lo < 0x80, and lo − 256 whatever hi is otherwise |
| Conversion.RawSample | Core/Src/IIS2MDC.c:237-239 | storing the word in `int16_t` keeps its value in both cases |
| Conversion.RawSampleIgnoresHighByte | Core/Src/IIS2MDC.c:237-239 | from a low byte of 0x80 on, the high byte has no effect and the raw value is in −128..−1 |
| Conversion.RawSampleDiffersFromWord | Core/Src/IIS2MDC.c:237 | bytes 0x80, 0x01 give −128, where the word 0x0180 is 384 |
| Conversion.Scale | Core/Src/IIS2MDC.c:240-242 | `raw * 1.5` stored in `int16_t` is 3·raw/2 truncated toward zero, and defined exactly when −21845 ≤ raw ≤ 21845 |
| Conversion.ConvertMagnetic | Core/Src/IIS2MDC.c:236-243 | defined exactly when all three scaled values fit `int16_t`; then MagX, MagY, MagZ are the scaled samples of bytes 0/1, 2/3, 4/5 and the data-ready flag is untouched |
| Conversion.ConvertMagneticExample | Core/Src/IIS2MDC.c:236-243 | bytes 00 01 00 00 00 FF give 384, 0, −384 |
| Conversion.ConvertMagneticDefinedForNegativeLowBytes | Core/Src/IIS2MDC.c:236-243 | low bytes from 0x80 on never make the conversion undefined |
| Driver.IdentityLog | Core/Src/IIS2MDC.c:49-53 | the identity check logs nothing exactly when the read succeeded and returned 0x40 |
| Driver.InitLog | Core/Src/IIS2MDC.c:49-113 | Init logs nothing exactly when every call succeeded and the identity matched, and logs at most ten lines |
| Driver.InitLogIdentity | Core/Src/IIS2MDC.c:49-53 | a failed identity read is logged exactly when it failed; a mismatch exactly when the read succeeded with a byte other than 0x40 |
| Driver.InitLogCall | Core/Src/IIS2MDC.c:55-113 | each later Init call is logged exactly when it failed, whatever the others did |
| Driver.Init | Core/Src/IIS2MDC.c:35-118 | Init makes thirteen calls, the interrupt line is off before the first register access and back on only after the last, and nothing is logged exactly when every call succeeded and the identity matched; the calls themselves are listed by Driver.InitTrace, the log lines by Driver.InitLogIdentity and Driver.InitLogCall, the effect on the device by DeviceEffects.InitProgramsDevice |
| Driver.InitTrace | Core/Src/IIS2MDC.c:41-115 | Init's calls are exactly: bus Init, IRQ off, read 0x4F, the two-byte writes to 0x45, 0x47, 0x49, 0x65, one-byte writes to 0x60–0x63 (0x63 carrying IRQConfig verbatim), read 6 at 0x68, IRQ on; the same for every bus reply |
| Driver.Reset | Core/Src/IIS2MDC.c:141-146 | Reset is the single write of 0x20 to 0x60, logged exactly when it failed |
| Driver.DeInit | Core/Src/IIS2MDC.c:128-131 | DeInit is Reset followed by the bus DeInit and nothing else, with Reset's log |
| Driver.ConversionTrigger | Core/Src/IIS2MDC.c:162-163 | bits 7:2 of CFG-A are kept, bit 1 cleared, bit 0 set |
| Driver.ConversionTriggerIdempotent | Core/Src/IIS2MDC.c:162-163 | triggering twice writes the same byte as triggering once |
| Driver.ConversionTriggerSelectsOneShot | Core/Src/IIS2MDC.c:162-163 | on an encoded CFG-A byte the trigger selects one-shot mode and keeps every other field |
| Driver.StartConversion | Core/Src/IIS2MDC.c:156-168 | a read of 0x60 then a write of its trigger, also when the read failed (the byte is then the buffer's arbitrary content); each failure logged exactly when it happened |
| Driver.AllAxesReady | Core/Src/IIS2MDC.c:183 | a status byte reports data ready exactly when the X, Y and Z data-available bits (0, 1, 2) are all set |
| Driver.ReadMagnetic | Core/Src/IIS2MDC.c:178-195 | DataReady exactly when the status read succeeded with bits 0–2 set; a failed status read changes nothing; partial readiness clears only the flag; full readiness clears the flag and decodes the buffer even after a failed data read, undefined exactly when the conversion is |
| Driver.ReadMagneticNotReadyKeepsSamples | Core/Src/IIS2MDC.c:183-186 | polls that find the axes not all ready never change the field strengths |
| Driver.ReadMagneticIgnoresDataStatus | Core/Src/IIS2MDC.c:188-194 | whether the data read succeeded affects only the log, not the result or the handle |
| Driver.ReadReg | Core/Src/IIS2MDC.c:205-209 | one read of `length` bytes at `reg`, buffer passed through, failure logged with the address |
| Driver.WriteReg | Core/Src/IIS2MDC.c:219-223 | one write of the first `length` bytes at `reg`, failure logged with the address |
| Device.BurstAddresses | Core/Src/IIS2MDC.c:57 | a transfer of n bytes covers exactly the registers fewer than n steps up from its start address, the 8-bit address counter wrapping past 0xFF |
| Device.WriteBurst | Core/Src/IIS2MDC.c:57-75 | a multi-byte write changes no register outside the addresses it covers |
| Device.WriteBurstOne | Core/Src/IIS2MDC.c:81 | a one-byte write sets exactly its register |
| Device.WriteBurstTwo | Core/Src/IIS2MDC.c:57 | a two-byte write puts its first byte at its address and its second at the next |
| Device.ApplyEvent | Core/Src/IIS2MDC.c:41-115 | only writes change the register file |
| Device.ReplayAppend | Core/Src/IIS2MDC.c:128-131 | replaying two transcripts in turn is replaying their concatenation |
| Device.ReplayWithoutWrites | Core/Src/IIS2MDC.c:178-195 | a run of calls without writes leaves the register file alone |
| Device.ReadBurst | Core/Src/IIS2MDC.c:188 | a read of n registers returns n bytes, the k-th from the register k steps up from its start address |
| DeviceEffects.DecodeSettings | Core/Src/IIS2MDC.c:56-107 | settings read back from a register file are the ones whose encoding each register holds |
| DeviceEffects.ReplayInitWords | Core/Src/IIS2MDC.c:56-77 | the four 16-bit writes put each low byte at 0x45, 0x47, 0x49, 0x65 and each high byte above it |
| DeviceEffects.ReplayInitConfig | Core/Src/IIS2MDC.c:80-107 | the four one-byte writes set 0x60–0x63 to CFG-A, CFG-B, CFG-C and IRQConfig |
| DeviceEffects.InitReplay | Core/Src/IIS2MDC.c:41-115 | the register file after Init is the old one with exactly those twelve registers set |
| DeviceEffects.InitProgramsDevice | Core/Src/IIS2MDC.c:35-118 | on a device that takes every write, the settings read back after Init are exactly the settings Init was given |
| DeviceEffects.InitTouchesOnlyConfiguration | Core/Src/IIS2MDC.c:41-115 | Init changes no register outside the offsets, threshold, CFG-A/B/C and INT_CTRL |
| DeviceEffects.ResetEffect | Core/Src/IIS2MDC.c:141-146 | in the plain-memory register file, Reset's write stores 0x20 in CFG-A and leaves every other register alone, and the registers then decode to no settings |
| DeviceEffects.DeInitEffect | Core/Src/IIS2MDC.c:128-131 | DeInit changes the device exactly as Reset does |
| DeviceEffects.StartConversionEffect | Core/Src/IIS2MDC.c:156-168 | StartConversion changes only CFG-A, to the trigger of the byte its read returned |
| DeviceEffects.StartConversionKeepsOneShotSettings | Core/Src/IIS2MDC.c:156-168 | on a device holding one-shot settings, a conversion trigger leaves the same settings in place |
| DeviceEffects.StartConversionOutsideOneShot | Core/Src/IIS2MDC.c:156-168 | on a device set up for continuous mode with offset cancellation, a trigger leaves registers that decode to no settings |
| DeviceEffects.WriteRegEffect | Core/Src/IIS2MDC.c:219-223 | WriteReg stores its first `length` bytes from `reg` on |
| DeviceEffects.ReadOutputRegisters | Core/Inc/IIS2MDC.h:139-144 | the six bytes read from 0x68 are X-low, X-high, Y-low, Y-high, Z-low, Z-high, matching the decoder's indices 0..5 |
| DeviceEffects.ReadMagneticDecodesOutputRegisters | Core/Src/IIS2MDC.c:188-192 | a ready read decodes each axis from its own low and high output register and leaves the register file alone |

## Left out

- `Core/Src/IIS2MDC_Hardware.c` (STM32 HAL I2C, GPIO, NVIC, delays) is not part of this model. The bus is abstract: a trace of calls, with each call's status and each read's buffer given as input.
- The copying of the bus function pointers into the handle (`IIS2MDC.c:36-40`) has no counterpart. Each operation takes its replies directly.
- The `ioctl` return value is ignored by the code and is not modelled. The `ReadIntPin` command is declared but never issued.
- Log messages are reduced to one `LogEntry` constructor per message. The register address formatted into the ReadReg/WriteReg messages is kept.
- Floating point is not modelled. The product `raw * 1.5` is exact in a double, so it is modelled as 3·raw/2 truncated toward zero. A result outside `int16_t` (|raw| > 21845) is undefined behaviour in C and is modelled as `Undefined`.
- Conversion.AxisWord: the left shift of a negative `int` is undefined in ISO C. The model takes its two's-complement result.
- Conversion.SignExtend: converting a byte of 0x80 or more to `int8_t` is implementation-defined (C11 section 6.3.1.3, paragraph 3). The model assumes the usual wrap-around to the byte minus 256.
- The target is assumed little-endian. The `(uint8_t*)&buffer16` writes send the low byte first.
- Settings enumeration fields hold only their enumerators. A C caller could store any `int` there.
- `IRQConfig` is modelled as the byte the code copies into `uint8_t`.
- The continuous/one-shot mode discipline is not enforced by the driver and is not modelled as an invariant. `DeviceEffects.StartConversionOutsideOneShot` shows what happens without it.
- The device model assumes a multi-byte write fills consecutive registers, with an 8-bit address counter.
- DeviceEffects.InitProgramsDevice: the device model takes every write, whatever status the bus reports to the driver. A failed bus call may or may not have reached the device, and the model does not say which, so the result describes the device only when every write landed. Init's log still reports every failed call (Driver.InitLogCall).
- DeviceEffects.ResetEffect: the register file is plain memory. The soft reset the write triggers, which returns the chip's registers to their default values, is not modelled, because those default values are not part of this model. The device's own return to idle after a one-shot conversion is not modelled either.
  - Reads have no side effects on the register file: clearing of status bits on a data read is not modelled.
  - The driver never changes TEMP_OUT or INT_SOURCE, so they are not modelled.
- Driver.InitLog: its contract states which lines appear, and when the log is empty. It does not state their order, which follows the call order in its definition.
- Driver.ReadReg: the reply's buffer is required to have `length` bytes, the size of the caller's buffer.
- Timing, blocking and concurrency are out of scope. Every bus call is atomic.
