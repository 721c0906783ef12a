/** The way of a packet through the recirculation ports, whatever the registers it meets hold. */
module Journeys {
  import opened Jobs
  import opened SwitchTables
  import opened SwitchPass
  import opened ProtocolInvariant

  function PassOf(regs: Registers, p: Packet): Pass {
    if IsConsume(p.md.packetType) then ConsumePass(regs, p) else HarvestPass(regs, p)
  }

  /** q is what comes out of some pass of p. */
  ghost predicate Follows(p: Packet, q: Packet) {
    (IsConsume(p.md.packetType) || IsHarvest(p.md.packetType)) &&
    exists regs :: PassOf(regs, p).outcome == Recirculated(q)
  }

  /** A packet as it arrives from a worker, and what it becomes from pass to pass. */
  ghost predicate Journey(ps: seq<Packet>) {
    && ps != [] && ps[0].md.packetType == CONSUME0 && (ps[0].md.size == Mtu256 || ps[0].md.size == Mtu1024)
    && forall k | 0 < k < |ps| :: Follows(ps[k - 1], ps[k])
  }

  /** The pipe that stores the slices a pass of this type works on. */
  function PipeFor(t: PacketType): int {
    if t < HARVEST0 then t - CONSUME0 else HarvestPipe(t)
  }

  /** Where a packet is after its first pass: HARVEST7 of 256 bytes, or the next type of 1024 bytes. */
  predicate OnItsWay(p: Packet, k: nat) {
    var t, size := p.md.packetType, p.md.size;
    && (size == Mtu256 ==> t == (if k == 0 then CONSUME0 else HARVEST7) && k <= 1)
    && (size == Mtu1024 ==> t as int == (if k < 4 then CONSUME0 + k else HARVEST1 + k - 4) && k <= 10)
    && (1 <= k ==> p.port == if t < HARVEST0 then 128 * k + 4 * (p.md.worker % 16) else HarvestPort(t))
  }

  /** What the table may decide in pass k of such a packet. */
  predicate RowOk(a: Action, size: PacketSize, worker: nat, t: PacketType, k: nat) {
    && (a.ForConsume? ==>
          && size == Mtu1024 && k < 3 && a.next as int == CONSUME0 + k + 1
          && a.port == 128 * (k + 1) + 4 * (worker % 16))
    && (a.ForHarvest? ==>
          && a.next as int == (if size == Mtu256 then HARVEST7 else HARVEST1 + k - 3) && a.port == HarvestPort(a.next)
          && k <= (if size == Mtu256 then 0 else 9) && (size == Mtu1024 ==> 3 <= k))
    && (a.Broadcast? || a.Retransmit? ==> t == HARVEST7)
  }

  lemma RowOnTheWay(p: Packet, flag: nat, dup: bool, k: nat)
    requires (p.md.size == Mtu256 || p.md.size == Mtu1024) && OnItsWay(p, k)
    ensures RowOk(NextStep(p.md.size, p.md.worker, p.md.packetType, flag, dup, p.md.workerType, p.port),
                  p.md.size, p.md.worker, p.md.packetType, k)
  {
  }

  lemma PassOnTheWay(regs: Registers, p: Packet, k: nat)
    requires (p.md.size == Mtu256 || p.md.size == Mtu1024) && OnItsWay(p, k)
    ensures var outcome := PassOf(regs, p).outcome;
            && (outcome.Recirculated? ==> outcome.pkt.md.size == p.md.size && OnItsWay(outcome.pkt, k + 1))
            && (outcome.ToAll? || outcome.ToOne? ==> k == if p.md.size == Mtu256 then 1 else 10)
  {
    hide NextStep, HarvestPort;
    forall flag: nat, dup
      ensures RowOk(NextStep(p.md.size, p.md.worker, p.md.packetType, flag, dup, p.md.workerType, p.port),
                    p.md.size, p.md.worker, p.md.packetType, k)
    {
      RowOnTheWay(p, flag, dup, k);
    }
  }

  lemma {:induction false} JourneyStage(ps: seq<Packet>, k: nat)
    requires Journey(ps) && k < |ps|
    ensures ps[k].md.size == ps[0].md.size && OnItsWay(ps[k], k)
  {
    hide PassOf, OnItsWay;
    if k == 0 {
      assert OnItsWay(ps[0], 0) by {
        Departure(ps[0]);
      }
    } else {
      JourneyStage(ps, k - 1);
      assert Follows(ps[k - 1], ps[k]);
      var regs :| PassOf(regs, ps[k - 1]).outcome == Recirculated(ps[k]);
      PassOnTheWay(regs, ps[k - 1], k - 1);
    }
  }

  lemma Departure(p: Packet)
    requires p.md.packetType == CONSUME0
    ensures OnItsWay(p, 0)
  {
  }

  /**
   * Whatever the registers hold, a packet makes at most 2 passes (256 bytes) or 11 (1024 bytes), every port it is
   * sent to is one the parser knows as recirculation, and it leads to the pipe that stores the slices of that pass.
   */
  lemma JourneyEnds(ps: seq<Packet>)
    requires Journey(ps)
    ensures |ps| <= if ps[0].md.size == Mtu256 then 2 else 11
    ensures forall k | 0 < k < |ps| ::
              ParsedAsRecirculated(ps[k].port) && PipeOfPort(ps[k].port) == PipeFor(ps[k].md.packetType)
  {
    hide Follows;
    JourneyStage(ps, |ps| - 1);
    forall k | 0 < k < |ps|
      ensures ParsedAsRecirculated(ps[k].port) && PipeOfPort(ps[k].port) == PipeFor(ps[k].md.packetType)
    {
      JourneyStage(ps, k);
    }
  }

  /** A reply leaves the switch only after every slice has been collected, that is from the last possible pass. */
  lemma ReplyAfterWholeJourney(ps: seq<Packet>, regs: Registers)
    requires Journey(ps)
    requires PassOf(regs, ps[|ps| - 1]).outcome.ToAll? || PassOf(regs, ps[|ps| - 1]).outcome.ToOne?
    ensures |ps| == if ps[0].md.size == Mtu256 then 2 else 11
  {
    hide Follows, PassOf, OnItsWay;
    JourneyStage(ps, |ps| - 1);
    PassOnTheWay(regs, ps[|ps| - 1], |ps| - 1);
  }

  lemma ExponentKept(regs: Registers, p: Packet)
    requires p.md.packetType != CONSUME0
    ensures var outcome := PassOf(regs, p).outcome;
            && (outcome.Recirculated? ==> outcome.pkt.md.e0 == p.md.e0)
            && (outcome.ToAll? || outcome.ToOne? ==> outcome.reply.e0 == p.md.e0)
  {
    hide NextStep;
  }

  lemma {:induction false} LaterExponent(ps: seq<Packet>, k: nat)
    requires Journey(ps) && 1 <= k < |ps|
    ensures ps[k].md.e0 == ps[1].md.e0 && ps[k].md.packetType != CONSUME0
  {
    hide PassOf;
    JourneyStage(ps, k);
    if k != 1 {
      LaterExponent(ps, k - 1);
      assert Follows(ps[k - 1], ps[k]);
      var regs :| PassOf(regs, ps[k - 1]).outcome == Recirculated(ps[k]);
      ExponentKept(regs, ps[k - 1]);
    }
  }

  /** The first exponent of a reply is the one that its packet read in the first pass. */
  lemma ReplyExponent(ps: seq<Packet>, regs: Registers)
    requires Journey(ps)
    requires PassOf(regs, ps[|ps| - 1]).outcome.ToAll? || PassOf(regs, ps[|ps| - 1]).outcome.ToOne?
    ensures 2 <= |ps| && PassOf(regs, ps[|ps| - 1]).outcome.reply.e0 == ps[1].md.e0
  {
    hide PassOf, Journey;
    ReplyAfterWholeJourney(ps, regs);
    LaterExponent(ps, |ps| - 1);
    ExponentKept(regs, ps[|ps| - 1]);
  }

  /** Packets of 128 or 512 bytes are dropped in every pass, whatever the registers hold. */
  lemma OtherSizesAreDropped(regs: Registers, p: Packet)
    requires p.md.size == Mtu128 || p.md.size == Mtu512
    ensures PassOf(regs, p).outcome == Dropped
  {
  }

  /** Packets from the front panel of pipe 0, where workers are, and from the CPU are parsed as Ethernet frames. */
  lemma WorkersAreParsed(port: nat)
    requires port < 64 || port == 320
    ensures !ParsedAsRecirculated(port)
  {
  }
}
