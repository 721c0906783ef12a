/**
 * One pass of a packet through one ingress pipe, for the slot the packet addresses: bitmap update, worker count,
 * exponent maximum, significand sum, next step, and what the parser and deparser do to the payload around them.
 */
module SwitchPass {
  import opened Words
  import opened Jobs
  import opened SwitchTables

  /** The lowest bit of a pool index selects the set of a slot. */
  type Bit = b: nat | b < 2

  /** The registers of one set of a slot. */
  datatype SetRegisters = SetRegisters(members: set<nat>, count: nat, d0: Slice, d1: Slice, e0: Byte, e1: Byte)

  /** The registers of a slot: the set with bit 0 and the set with bit 1. */
  datatype Registers = Registers(even: SetRegisters, odd: SetRegisters) {
    function At(b: nat): SetRegisters {
      if b == 0 then even else odd
    }

    function With(b: nat, v: SetRegisters): Registers {
      if b == 0 then this.(even := v) else this.(odd := v)
    }
  }

  /**
   * The metadata header bridged between passes. The last three flags are sticky: a pass can only set them.
   */
  datatype Metadata = Metadata(worker: nat, workers: nat, setBit: Bit, size: PacketSize, workerType: WorkerType,
                               packetType: PacketType, e0: Byte, e1: Byte,
                               firstFlag: bool, lastFlag: bool, dupFlag: bool)

  /** A packet at ingress. The payload is the part of the packet the parser has not consumed yet. */
  datatype Packet = Packet(md: Metadata, port: nat, payload: seq<Slice>)

  datatype ReplyKind = IsBroadcast | IsRetransmit

  datatype Reply = Reply(kind: ReplyKind, setBit: Bit, payload: seq<Slice>, e0: Byte, e1: Byte)

  datatype Outcome =
    | Dropped
    | Recirculated(pkt: Packet)
    | ToAll(reply: Reply)
    | ToOne(worker: nat, reply: Reply)

  /** What a pass leaves behind. `dup` and `flag` are map_result != 0 and first_last_flag. */
  datatype Pass = Pass(regs: Registers, dup: bool, flag: nat, outcome: Outcome)

  /** worker_bitmap_before is zero: no worker has contributed to the set since it was last given up. */
  predicate IsUntouched(v: SetRegisters) {
    v.members == {}
  }

  /** Add the worker to the addressed set and remove it from the other one. */
  function Receive(regs: Registers, b: nat, w: nat): Registers {
    if b == 0 then
      Registers(regs.even.(members := regs.even.members + {w}), regs.odd.(members := regs.odd.members - {w}))
    else
      Registers(regs.even.(members := regs.even.members - {w}), regs.odd.(members := regs.odd.members + {w}))
  }

  /** The count register is 8 bits wide, so a job of zero workers would wrap around. */
  function CountDown(count: nat, n: nat): nat {
    if count == 0 then (n + 255) % 256 else count - 1
  }

  /** The count register after a packet, and the first_last_flag it gets. */
  function CountFlag(count: nat, n: nat, dup: bool): nat {
    if n == 1 then (if dup then 0 else 1) else count
  }

  function CountAfter(count: nat, n: nat, dup: bool): nat {
    if dup then count else CountDown(count, n)
  }

  /** Exponents are written, maximised or left alone, and by CONSUME0 only. */
  function WithExponents(v: SetRegisters, first: bool, dup: bool, t: PacketType, e0: Byte, e1: Byte): SetRegisters {
    if t != CONSUME0 then v
    else if first then v.(e0 := e0, e1 := e1)
    else if !dup then v.(e0 := Max(v.e0, e0), e1 := Max(v.e1, e1))
    else v
  }

  /** Significands are written, added up or left alone. */
  function WithSums(v: SetRegisters, first: bool, dup: bool, d0: Slice, d1: Slice): SetRegisters {
    if first then v.(d0 := d0, d1 := d1)
    else if !dup then v.(d0 := AddSlices(v.d0, d0), d1 := AddSlices(v.d1, d1))
    else v
  }

  /** The significand and exponent registers after a consume pass. */
  function Aggregated(v: SetRegisters, first: bool, dup: bool, t: PacketType,
                      d0: Slice, d1: Slice, e0: Byte, e1: Byte): SetRegisters
  {
    WithSums(WithExponents(v, first, dup, t, e0, e1), first, dup, d0, d1)
  }

  /** Status flags are set at the end of every pass and never cleared. */
  function Stick(md: Metadata, flag: nat, dup: bool): Metadata {
    md.(firstFlag := md.firstFlag || flag == 0, lastFlag := md.lastFlag || flag == 1, dupFlag := md.dupFlag || dup)
  }

  /** Perform the action on a packet whose data headers are d0, d1 and whose unparsed rest is given. */
  function Perform(a: Action, md: Metadata, d0: Slice, d1: Slice, rest: seq<Slice>): Outcome {
    match a
    case Drop => Dropped
    case FinishConsume => Dropped
    case ForConsume(t, port) => Recirculated(Packet(md.(packetType := t), port, rest))
    case ForHarvest(t, port, keep) =>
      Recirculated(Packet(md.(packetType := t), port, [if keep == D0 then d0 else d1] + rest))
    case Broadcast => ToAll(Reply(IsBroadcast, md.setBit, [d0] + rest, md.e0, md.e1))
    case Retransmit => ToOne(md.worker, Reply(IsRetransmit, md.setBit, [d0] + rest, md.e0, md.e1))
  }

  /** CONSUME0 to CONSUME3. The parser takes two slices off the payload; a packet too short for that is rejected. */
  function ConsumePass(regs: Registers, p: Packet): Pass {
    if |p.payload| < 2 then Pass(regs, false, 255, Dropped) else
    var md, d0, d1, rest := p.md, p.payload[0], p.payload[1], p.payload[2..];
    var b := md.setBit;
    var first := IsUntouched(regs.At(b));
    var dup := md.worker in regs.At(b).members;
    var flag := CountFlag(regs.At(b).count, md.workers, dup);
    var received := Receive(regs, b, md.worker);
    var counted := received.At(b).(count := CountAfter(received.At(b).count, md.workers, dup));
    var v := Aggregated(counted, first, dup, md.packetType, d0, d1, md.e0, md.e1);
    // new contributions read back the second sum, retransmissions the first
    var d0' := if !first && dup then v.d0 else d0;
    var d1' := if first || !dup then v.d1 else d1;
    var md' := Stick(if md.packetType == CONSUME0 then md.(e0 := v.e0) else md, flag, dup);
    var a := NextStep(md.size, md.worker, md.packetType, flag, dup, md.workerType, p.port);
    Pass(received.With(b, v), dup, flag, Perform(a, md', d0', d1', rest))
  }

  /**
   * A retransmission that already carries the first flag from an earlier pipe, and finds exactly one worker missing in
   * this one. If this is the last pipe it will be answered, although its round is incomplete here.
   */
  predicate IsTooEarly(regs: Registers, p: Packet) {
    var v := regs.At(p.md.setBit);
    p.md.worker in v.members && v.count == 1 && p.md.workers != 1 && p.md.firstFlag
  }

  /** first_last_flag as rebuilt from the status flags; the first flag has priority. */
  function RebuiltFlag(md: Metadata): nat {
    if md.firstFlag then 0 else if md.lastFlag then 1 else 255
  }

  /** HARVEST0 to HARVEST7: read one half of the registers into its header and prepend it. */
  function HarvestPass(regs: Registers, p: Packet): Pass {
    var md := p.md;
    var v := regs.At(md.setBit);
    var flag := RebuiltFlag(md);
    var d0 := if HarvestHalf(md.packetType) == D0 then v.d0 else ZeroSlice();
    var d1 := if HarvestHalf(md.packetType) == D1 then v.d1 else ZeroSlice();
    var md' := Stick(if md.packetType == HARVEST7 then md.(e1 := v.e1) else md, flag, md.dupFlag);
    var a := NextStep(md.size, md.worker, md.packetType, flag, md.dupFlag, md.workerType, p.port);
    Pass(regs, md.dupFlag, flag, Perform(a, md', d0, d1, p.payload))
  }

  /** What the HARVEST7 rows will decide for a packet with these status flags. */
  function Verdict(md: Metadata): Action {
    NextStep(md.size, md.worker, HARVEST7, RebuiltFlag(md), md.dupFlag, md.workerType, 68)
  }
}
