/**
  The sensor's side of the bus: a register file that takes the driver's
  writes. A write of several bytes fills consecutive registers from its
  start address, which is how the offset and threshold pairs reach their
  low and high registers. Reads do not change the register file in this
  model.
 */
module Device {
  import opened Bits
  import opened Bus

  /** The contents of the 256 registers, indexed by address. */
  type Registers = r: seq<Byte> | |r| == 256 witness seq(256, _ => 0)

  /** The register at `addr`. */
  function Reg(regs: Registers, addr: Byte): Byte {
    regs[addr as int]
  }

  /** Incrementing the 8-bit address counter wraps past 0xFF. */
  lemma NextAddress(addr: Byte)
    ensures (addr + 1) as int == (addr as int + 1) % 256
  {
    if addr < 0xFF {
      assert (addr + 1) as int == addr as int + 1;
    } else {
      assert addr + 1 == 0;
    }
  }

  /** How far `i` lies from `addr`, counting up with the 8-bit address counter, which wraps past 0xFF. */
  function Distance(addr: Byte, i: int): int {
    if i >= addr as int then i - addr as int else i - addr as int + 256
  }

  /** Stepping the start address up by one brings every other register one step closer. */
  lemma DistanceStep(addr: Byte, i: int)
    requires 0 <= i < 256 && i != addr as int
    ensures Distance(addr + 1, i) == Distance(addr, i) - 1
  {
    NextAddress(addr);
  }

  /** The addresses a transfer of `n` bytes from `addr` covers: the registers less than `n` steps from `addr`. */
  function BurstAddresses(addr: Byte, n: nat): (r: set<int>)
    ensures forall i :: i in r <==> 0 <= i < 256 && Distance(addr, i) < n
    decreases n
  {
    if n == 0 then {}
    else
      var rest := BurstAddresses(addr + 1, n - 1);
      assert forall i :: 0 <= i < 256 && i != addr as int ==> (i in rest <==> Distance(addr, i) < n) by {
        forall i | 0 <= i < 256 && i != addr as int {
          DistanceStep(addr, i);
        }
      }
      {addr as int} + rest
  }

  /** The register file after the device takes `data`, one byte per register from `addr` on. */
  function WriteBurst(regs: Registers, addr: Byte, data: seq<Byte>): (r: Registers)
    ensures forall i :: 0 <= i < 256 && i !in BurstAddresses(addr, |data|) ==> r[i] == regs[i]
    decreases |data|
  {
    if data == [] then regs
    else
      var m: Registers := regs[addr as int := data[0]];
      assert BurstAddresses(addr, |data|) == {addr as int} + BurstAddresses(addr + 1, |data[1..]|);
      WriteBurst(m, addr + 1, data[1..])
  }

  /** A one-byte write sets its register. */
  lemma WriteBurstOne(regs: Registers, addr: Byte, b: Byte)
    ensures WriteBurst(regs, addr, [b]) == regs[addr as int := b]
  {
    assert [b][1..] == [];
  }

  /** A two-byte write puts its first byte at `addr` and its second at the next address. */
  lemma WriteBurstTwo(regs: Registers, addr: Byte, lo: Byte, hi: Byte)
    ensures WriteBurst(regs, addr, [lo, hi]) == regs[addr as int := lo][(addr + 1) as int := hi]
  {
    assert [lo, hi][1..] == [hi];
    WriteBurstOne(regs[addr as int := lo], addr + 1, hi);
  }

  /** The effect of one bus call on the register file: only writes change it. */
  function ApplyEvent(regs: Registers, e: Event): (r: Registers)
    ensures !e.Write? ==> r == regs
    ensures e.Write? ==> forall i :: 0 <= i < 256 && i !in BurstAddresses(e.addr, |e.data|) ==> r[i] == regs[i]
  {
    match e
    case Write(addr, data) => WriteBurst(regs, addr, data)
    case _ => regs
  }

  /** The register file after the device has taken every write of a trace, in order. */
  function Replay(regs: Registers, trace: seq<Event>): Registers
    decreases |trace|
  {
    if trace == [] then regs else Replay(ApplyEvent(regs, trace[0]), trace[1..])
  }

  /** Replaying two traces one after the other is replaying their concatenation. */
  lemma {:induction false} ReplayAppend(regs: Registers, a: seq<Event>, b: seq<Event>)
    ensures Replay(regs, a + b) == Replay(Replay(regs, a), b)
    decreases |a|
  {
    if a == [] {
      assert a + b == b;
    } else {
      assert (a + b)[0] == a[0];
      assert (a + b)[1..] == a[1..] + b;
      ReplayAppend(ApplyEvent(regs, a[0]), a[1..], b);
    }
  }

  /** A trace without writes leaves the register file as it was. */
  lemma {:induction false} ReplayWithoutWrites(regs: Registers, trace: seq<Event>)
    requires forall i :: 0 <= i < |trace| ==> !trace[i].Write?
    ensures Replay(regs, trace) == regs
    decreases |trace|
  {
    if trace != [] {
      ReplayWithoutWrites(regs, trace[1..]);
    }
  }

  /** The bytes a read of `n` registers from `addr` returns. */
  function ReadBurst(regs: Registers, addr: Byte, n: nat): (r: seq<Byte>)
    ensures |r| == n
    ensures forall k :: 0 <= k < n ==> r[k] == regs[(addr as int + k) % 256]
    decreases n
  {
    if n == 0 then []
    else
      NextAddress(addr);
      [Reg(regs, addr)] + ReadBurst(regs, addr + 1, n - 1)
  }
}
