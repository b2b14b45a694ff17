/**
  The abstract bus the driver talks through. A driver operation is modelled
  as the trace of bus calls it makes and the log lines it emits, given the
  replies the bus hands back to each call.
 */
module Bus {
  import opened Bits

  /** Outcome of a register read or write. */
  datatype Status = Ok | Error

  /** The ioctl commands of the low-level interface. */
  datatype Command = IRQEnable | IRQDisable | ReadIntPin

  /** One call through the bus interface, in the order the driver makes it. */
  datatype Event =
    | BusInit
    | BusDeInit
    | Ioctl(cmd: Command)
    | Read(addr: Byte, len: Byte)
    | Write(addr: Byte, data: seq<Byte>)

  type Block6 = s: seq<Byte> | |s| == 6 witness [0, 0, 0, 0, 0, 0]

  /**
    What a one-byte read returns: its status and the byte left in the
    caller's buffer, which is arbitrary when the read failed.
   */
  datatype ByteReply = ByteReply(status: Status, value: Byte)

  /** What a six-byte read returns: its status and the six buffer bytes afterwards. */
  datatype BlockReply = BlockReply(status: Status, data: Block6)

  /** What a read of any length returns: its status and the buffer contents afterwards. */
  datatype ReadReply = ReadReply(status: Status, data: seq<Byte>)

  /** The calls Init makes after the identity check, each of which it logs on failure. */
  datatype InitCall =
    | OffsetXWrite
    | OffsetYWrite
    | OffsetZWrite
    | ThresholdWrite
    | CfgAWrite
    | CfgBWrite
    | CfgCWrite
    | IntCtrlWrite
    | DataRead

  /** One constructor per diagnostic the driver logs. */
  datatype LogEntry =
    | InitIdReadFailed
    | InitIdMismatch
    | InitCallFailed(call: InitCall)
    | ResetFailed
    | CfgAReadFailed
    | CfgAWriteFailed
    | StatusReadFailed
    | DataReadFailed
    | ReadRegFailed(addr: Byte)
    | WriteRegFailed(addr: Byte)

  /** The bus calls an operation made, in order, and the lines it logged. */
  datatype Transcript = Transcript(trace: seq<Event>, log: seq<LogEntry>)

  /** The log line of a call: `entry` when the call failed, nothing otherwise. */
  function LogIfError(s: Status, entry: LogEntry): seq<LogEntry> {
    if s.Error? then [entry] else []
  }

  /** A call's outcome paired with the line logged when it fails. */
  datatype Step = Step(status: Status, entry: LogEntry)

  /** The log of a run of calls, none of which stops the run: the entries of the failed ones, in order. */
  function Failures(steps: seq<Step>): (log: seq<LogEntry>)
    ensures |log| <= |steps|
  {
    if steps == [] then [] else LogIfError(steps[0].status, steps[0].entry) + Failures(steps[1..])
  }

  /** An entry is logged exactly when a step carrying it failed. */
  lemma {:induction false} FailuresContains(steps: seq<Step>, e: LogEntry)
    ensures e in Failures(steps) <==> Step(Error, e) in steps
  {
    if steps != [] {
      FailuresContains(steps[1..], e);
      assert steps == [steps[0]] + steps[1..];
    }
  }

  /** Nothing is logged exactly when every step succeeded. */
  lemma {:induction false} FailuresEmpty(steps: seq<Step>)
    ensures Failures(steps) == [] <==> forall st :: st in steps ==> st.status.Ok?
  {
    if steps != [] {
      FailuresEmpty(steps[1..]);
      assert steps == [steps[0]] + steps[1..];
    }
  }

  /** Append one bus call and the log lines its outcome caused. */
  function Call(t: Transcript, e: Event, log: seq<LogEntry>): Transcript {
    Transcript(t.trace + [e], t.log + log)
  }
}
