/** Harvest passes keep the protocol invariant, and read the registers of their own round. */
module HarvestInvariant {
  import opened Words
  import opened Jobs
  import opened SwitchTables
  import opened SwitchPass
  import opened PipeInvariant
  import opened Protocol
  import opened ProtocolInvariant

  /** A worker counted in some pipe was counted in all earlier ones, and has this chunk outstanding. */
  lemma {:induction false} CountedMeansOutstanding(job: Job, s: System, j: nat, w: nat)
    requires job.Valid() && Shape(job, s) && ContribOk(job, s.clients, s.hist)
    requires j < job.Pipes() && w in s.hist.contrib[j]
    ensures w < job.n && s.clients[w].chunk == s.hist.done
  {
    assert Before(s.clients, s.hist, j, w);
    if j != 0 {
      CountedMeansOutstanding(job, s, j - 1, w);
    }
  }

  /** Nobody is counted for a round while the round two before it is still being replied to. */
  lemma NoneCounted(job: Job, s: System, j: nat)
    requires job.Valid() && Shape(job, s) && ContribOk(job, s.clients, s.hist) && j < job.Pipes()
    requires ClientsOk(job, s.clients, s.hist) && s.hist.replied < s.hist.done
    ensures s.hist.contrib[j] == {}
  {
    if w :| w in s.hist.contrib[j] {
      CountedMeansOutstanding(job, s, j, w);
    }
  }

  lemma HoldsRound(job: Job, j: nat, regs: Registers, done: nat, K: set<nat>, r: nat)
    requires PipeOk(job, j, regs, done, K)
    requires r + 1 == done || (r + 2 == done && K == {})
    ensures Holds(job, j, regs.At(BitOf(r)), job.Workers(), r)
  {
    hide Below, BitOf, Holds;
    NextBit(r);
    NextBit(r + 1);
  }

  /**
   * Split-phase consistency: as long as a packet that will be answered is being harvested, every pipe still holds
   * the complete sums of the round that queued it.
   */
  lemma LeavingHolds(job: Job, s: System, i: nat, j: nat)
    requires Inv(job, s) && i < |s.harvest| && LeavesInTime(s.harvest[i]) && j < job.Pipes()
    ensures Holds(job, j, s.pipes[j].At(BitOf(s.harvest[i].round)), job.Workers(), s.harvest[i].round)
  {
    hide Below, BitOf, LinksOk, DownsOk, HarvestOk, Collected, PipeOk, Holds, Verdict;
    var t := s.harvest[i];
    EntryOk(job, s.harvest, s.hist.done, s.hist.replied, i);
    if t.round + 1 < s.hist.done {
      NoneCounted(job, s, j);
    }
    HoldsRound(job, j, s.pipes[j], s.hist.done, s.hist.contrib[j], t.round);
  }

  /** The status flags, and with them the verdict, do not change during harvest. */
  lemma FlagsKept(md: Metadata)
    ensures Stick(md, RebuiltFlag(md), md.dupFlag) == md
  {
  }

  /** A harvest pass of a 1024-byte packet keeps the half it has read and moves on to the pipe of the next slice. */
  lemma HarvestRow(worker: nat, t: PacketType, flag: nat, dup: bool, workerType: WorkerType)
    requires HARVEST0 <= t < HARVEST7
    ensures NextStep(Mtu1024, worker, t, flag, dup, workerType, HarvestPort(t)) ==
            ForHarvest(t + 1, HarvestPort(t + 1), HarvestHalf(t))
    ensures ParsedAsRecirculated(HarvestPort(t + 1)) && PipeOfPort(HarvestPort(t + 1)) == HarvestPipe(t + 1)
  {
  }

  lemma Prepend(job: Job, payload: seq<Slice>, d: Slice, w: nat, r: nat, own: bool, from: nat)
    requires Collected(job, payload, w, r, own, from) && 1 <= from
    requires d == Expected(job, w, r, own, from - 1)
    ensures Collected(job, [d] + payload, w, r, own, from - 1)
  {
    hide Below, BitOf, Expected;
    forall k | 0 <= k < |[d] + payload|
      ensures ([d] + payload)[k] == Expected(job, w, r, own, from - 1 + k)
    {
      if k != 0 {
        assert ([d] + payload)[k] == payload[k - 1] == Expected(job, w, r, own, from + (k - 1));
      }
    }
  }

  /** The packet after one of the passes HARVEST1 to HARVEST6: the half that was read is put in front. */
  function HarvestedOnce(regs: Registers, p: Packet): Packet
    requires p.md.packetType < HARVEST7
  {
    var v, t := regs.At(p.md.setBit), p.md.packetType;
    Packet(p.md.(packetType := t + 1), HarvestPort(t + 1), [if HarvestHalf(t) == D0 then v.d0 else v.d1] + p.payload)
  }

  lemma HarvestStep(job: Job, regs: Registers, p: Packet)
    requires HARVEST1 <= p.md.packetType < HARVEST7 && p.md.size == Mtu1024
    requires p.port == HarvestPort(p.md.packetType)
    ensures var p' := HarvestedOnce(regs, p);
            && HarvestPass(regs, p).outcome == Recirculated(p') && ParsedAsRecirculated(p'.port)
            && Verdict(p'.md) == Verdict(p.md)
  {
    hide Below, BitOf, NextStep, Stick, HarvestPort, ParsedAsRecirculated;
    FlagsKept(p.md);
    HarvestRow(p.md.worker, p.md.packetType, RebuiltFlag(p.md), p.md.dupFlag, p.md.workerType);
  }

  /** The half read by harvest type t is slice 15 - t of its round. */
  lemma HarvestSlice(job: Job, t: PacketType, v: SetRegisters, r: nat)
    requires HARVEST0 <= t && Holds(job, HarvestPipe(t), v, job.Workers(), r)
    ensures (if HarvestHalf(t) == D0 then v.d0 else v.d1) == job.Full(r, 15 - t)
  {
    var j := HarvestPipe(t);
    assert 15 - t == if HarvestHalf(t) == D0 then 2 * j else 2 * j + 1;
  }

  /** Each of these passes reads the next slice from the pipe that stores it. */
  lemma HarvestStage(job: Job, regs: Registers, t: Tagged, parts: seq<set<nat>>, complete: nat, replied: nat)
    requires job.Valid() && HarvestEntryOk(job, t, complete, replied) && t.pkt.md.packetType < HARVEST7
    requires LeavesInTime(t) ==>
               Holds(job, HarvestPipe(t.pkt.md.packetType), regs.At(t.pkt.md.setBit), job.Workers(), t.round)
    ensures var p := HarvestedOnce(regs, t.pkt);
            && HarvestPass(regs, t.pkt).outcome == Recirculated(p) && ParsedAsRecirculated(p.port)
            && Verdict(p.md) == Verdict(t.pkt.md)
            && HarvestEntryOk(job, t.(pkt := p, parts := parts), complete, replied)
  {
    hide Below, BitOf, HarvestPass, Verdict, HarvestPort, Collected, ParsedAsRecirculated, Holds, HarvestPipe;
    hide HarvestHalf;
    HarvestStep(job, regs, t.pkt);
    if LeavesInTime(t) {
      HarvestSlice(job, t.pkt.md.packetType, regs.At(t.pkt.md.setBit), t.round);
      Prepend(job, t.pkt.payload, HarvestedOnce(regs, t.pkt).payload[0], t.pkt.md.worker, t.round, t.own,
              16 - t.pkt.md.packetType);
    }
  }

  /** The reply a packet turns into at HARVEST7, given the registers it reads there. */
  function LastReply(v: SetRegisters, t: Tagged): Reply {
    Reply(if IsBroadcastEntry(t) then IsBroadcast else IsRetransmit, t.pkt.md.setBit,
          [v.d0] + t.pkt.payload, t.pkt.md.e0, v.e1)
  }

  /** Pass HARVEST7 answers, or drops, according to the verdict. */
  lemma HarvestLast(job: Job, regs: Registers, t: Tagged)
    requires t.pkt.md.packetType == HARVEST7
    ensures var reply := LastReply(regs.At(t.pkt.md.setBit), t);
            HarvestPass(regs, t.pkt).outcome ==
            if IsBroadcastEntry(t) then ToAll(reply)
            else if Leaves(t) then ToOne(t.pkt.md.worker, reply)
            else Dropped
  {
    hide Below, BitOf, Stick;
    FlagsKept(t.pkt.md);
    FlagsKept(t.pkt.md.(e1 := regs.At(t.pkt.md.setBit).e1));
  }

  lemma LastReplyOk(job: Job, v: SetRegisters, t: Tagged, complete: nat, replied: nat, w: nat, chunk: nat)
    requires job.Valid() && HarvestEntryOk(job, t, complete, replied) && t.pkt.md.packetType == HARVEST7
    requires LeavesInTime(t) && Holds(job, 0, v, job.Workers(), t.round)
    requires chunk <= t.round + 1 && (w == t.pkt.md.worker || IsBroadcastEntry(t))
    ensures ReplyOk(job, AsReply(LastReply(v, t), t), w, chunk, t.round + 1)
  {
    hide Below, BitOf, Collected;
    Prepend(job, t.pkt.payload, v.d0, t.pkt.md.worker, t.round, t.own, 1);
    if IsBroadcastEntry(t) {
      SameForAll(job, [v.d0] + t.pkt.payload, t.pkt.md.worker, w, t.round);
    }
  }

  /** A reply that holds the full sums is the right one for every worker. */
  lemma SameForAll(job: Job, payload: seq<Slice>, w: nat, w': nat, r: nat)
    requires Collected(job, payload, w, r, false, 0)
    ensures Collected(job, payload, w', r, false, 0)
  {
  }

  lemma ReplyAppended(job: Job, q: seq<TaggedReply>, w: nat, chunk: nat, replied: nat, t: TaggedReply)
    requires DownOk(job, q, w, chunk, replied) && replied <= t.round + 1
    requires !t.early && ReplyOk(job, t, w, chunk, t.round + 1)
    ensures DownOk(job, q + [t], w, chunk, t.round + 1)
  {
    hide Below, BitOf, Collected;
  }

  lemma RepliedGrows(job: Job, q: seq<TaggedReply>, w: nat, chunk: nat, replied: nat, replied': nat)
    requires DownOk(job, q, w, chunk, replied) && replied <= replied'
    ensures DownOk(job, q, w, chunk, replied')
  {
    hide Below, BitOf, Collected;
  }

  /** Once the oldest packet is answered, the remaining ones are still within bounds. */
  lemma HarvestTail(job: Job, q: seq<Tagged>, complete: nat, replied: nat)
    requires q != [] && HarvestOk(job, q, complete, replied)
    ensures HarvestOk(job, Cut(q, 0), complete, replied)
    ensures LeavesInTime(q[0]) ==> HarvestOk(job, Cut(q, 0), complete, q[0].round + 1)
  {
    hide Below, BitOf, Collected, Verdict;
    assert Cut(q, 0) == q[1..];
    assert forall k | 0 < k < |q| :: InOrder(q[0], q[k]);
  }

  lemma HarvestReplaced(job: Job, q: seq<Tagged>, i: nat, t: Tagged, complete: nat, replied: nat)
    requires HarvestOk(job, q, complete, replied) && i < |q| && HarvestEntryOk(job, t, complete, replied)
    requires t.round == q[i].round && t.early == q[i].early && Verdict(t.pkt.md) == Verdict(q[i].pkt.md)
    ensures HarvestOk(job, q[i := t], complete, replied)
  {
    hide Below, BitOf, HarvestEntryOk, Verdict;
  }

  lemma EntryOk(job: Job, q: seq<Tagged>, complete: nat, replied: nat, i: nat)
    requires HarvestOk(job, q, complete, replied) && i < |q| && job.Valid()
    ensures HarvestEntryOk(job, q[i], complete, replied)
    ensures PipeOfPort(q[i].pkt.port) == HarvestPipe(q[i].pkt.md.packetType) < job.Pipes()
  {
    hide Below, BitOf, Collected, Verdict, InOrder;
  }

  /** Registers, links and contributions do not depend on what has been replied to. */
  lemma RepliedFrame(job: Job, s: System, replied: nat)
    requires Almost(job, s) && s.hist.replied <= replied
    ensures var h := s.hist.(replied := replied);
            && ContribOk(job, s.clients, h) && PipesOk(job, s.pipes, h) && LinksOk(job, s.links, s.clients, h)
            && ClientsOk(job, s.clients, h)
  {
    hide Below, BitOf, LinkOk, PipeOk, HarvestOk, DownsOk;
  }

  /** The down link of worker w after an answer that goes to everybody or to one worker. */
  function Answered(q: seq<TaggedReply>, outcome: Outcome, w: nat, t: Tagged): seq<TaggedReply>
    requires outcome.ToAll? || outcome.ToOne?
  {
    if outcome.ToAll? || w == outcome.worker then q + [AsReply(outcome.reply, t)] else q
  }

  lemma AnsweredDown(job: Job, s: System, outcome: Outcome, t: Tagged, w: nat)
    requires Almost(job, s) && s.hist.replied <= t.round + 1 && w < job.n && !t.early
    requires outcome.ToAll? || outcome.ToOne?
    requires outcome.ToAll? || w == outcome.worker ==>
               ReplyOk(job, AsReply(outcome.reply, t), w, s.clients[w].chunk, t.round + 1)
    ensures DownOk(job, Answered(s.down[w], outcome, w, t), w, s.clients[w].chunk, t.round + 1)
  {
    hide Below, BitOf, Almost, DownOk, ReplyOk;
    AlmostShape(job, s);
    DownAt(job, s, w);
    RepliedGrows(job, s.down[w], w, s.clients[w].chunk, s.hist.replied, t.round + 1);
    if outcome.ToAll? || w == outcome.worker {
      ReplyAppended(job, s.down[w], w, s.clients[w].chunk, s.hist.replied, AsReply(outcome.reply, t));
    }
  }

  /** Replies reach the down links in the order of their rounds. */
  lemma AnswerInv(job: Job, s: System, outcome: Outcome, parts: seq<set<nat>>)
    requires Inv(job, s) && s.harvest != [] && LeavesInTime(s.harvest[0])
    requires outcome.ToAll? || (outcome.ToOne? && outcome.worker < job.n)
    requires forall w | 0 <= w < job.n && (outcome.ToAll? || w == outcome.worker) ::
               ReplyOk(job, AsReply(outcome.reply, s.harvest[0]), w, s.clients[w].chunk, s.harvest[0].round + 1)
    ensures Inv(job, SendReply(job, s.(harvest := Cut(s.harvest, 0)), outcome, s.harvest[0].(parts := parts)))
  {
    hide Below, BitOf, ClientsOk, ContribOk, PipesOk, LinksOk, DownOk, HarvestOk, Collected, ReplyOk, Verdict, Cut;
    var t, h := s.harvest[0].(parts := parts), s.hist;
    EntryOk(job, s.harvest, h.done, h.replied, 0);
    HarvestTail(job, s.harvest, h.done, h.replied);
    RepliedFrame(job, s, t.round + 1);
    forall w | 0 <= w < job.n
      ensures DownOk(job, Answered(s.down[w], outcome, w, t), w, s.clients[w].chunk, t.round + 1)
    {
      if outcome.ToAll? || w == outcome.worker {
        PartsDoNotMatter(job, AsReply(outcome.reply, s.harvest[0]), parts, w, s.clients[w].chunk, t.round + 1);
      }
      AnsweredDown(job, s, outcome, t, w);
    }
    var s' := SendReply(job, s.(harvest := Cut(s.harvest, 0)), outcome, t);
    assert forall w | 0 <= w < job.n :: s'.down[w] == Answered(s.down[w], outcome, w, t);
    assert DownsOk(job, s'.down, s'.clients, s'.hist.replied);
  }

  lemma PartsDoNotMatter(job: Job, t: TaggedReply, parts: seq<set<nat>>, w: nat, chunk: nat, replied: nat)
    requires ReplyOk(job, t, w, chunk, replied)
    ensures ReplyOk(job, t.(parts := parts), w, chunk, replied)
  {
  }

  lemma EarlyAppended(job: Job, q: seq<TaggedReply>, w: nat, chunk: nat, replied: nat, t: TaggedReply)
    requires DownOk(job, q, w, chunk, replied) && t.early && job.Pipes() != 1
    ensures DownOk(job, q + [t], w, chunk, replied)
  {
    hide ReplyOk;
  }

  /** An answer that is too early goes to one worker, and leaves everything else as it was. */
  lemma EarlyAnswerInv(job: Job, s: System, outcome: Outcome, parts: seq<set<nat>>)
    requires Inv(job, s) && s.harvest != [] && s.harvest[0].early && outcome.ToOne? && outcome.worker < job.n
    ensures Inv(job, SendReply(job, s.(harvest := Cut(s.harvest, 0)), outcome, s.harvest[0].(parts := parts)))
  {
    hide Below, BitOf, Almost, DownOk, HarvestOk, HarvestEntryOk, Cut;
    AlmostShape(job, s);
    HarvestAt(job, s, 0);
    var t, w := s.harvest[0].(parts := parts), outcome.worker;
    assert t.early ==> job.Pipes() != 1 by {
      EarlyMeansLarge(job, s.harvest[0], s.hist.done, s.hist.replied);
    }
    HarvestTail(job, s.harvest, s.hist.done, s.hist.replied);
    HarvestQueueReplaced(job, s, Cut(s.harvest, 0));
    DownAt(job, s, w);
    EarlyAppended(job, s.down[w], w, s.clients[w].chunk, s.hist.replied, AsReply(outcome.reply, t));
    DownReplaced(job, s.(harvest := Cut(s.harvest, 0)), w, s.down[w] + [AsReply(outcome.reply, t)]);
  }

  lemma EarlyMeansLarge(job: Job, t: Tagged, complete: nat, replied: nat)
    requires HarvestEntryOk(job, t, complete, replied)
    ensures t.early ==> job.Pipes() != 1 && !IsBroadcastEntry(t)
  {
  }

  lemma HarvestQueueReplaced(job: Job, s: System, q: seq<Tagged>)
    requires Inv(job, s) && HarvestOk(job, q, s.hist.done, s.hist.replied)
    ensures Inv(job, s.(harvest := q))
  {
    hide Below, BitOf, ClientsOk, ContribOk, PipesOk, LinksOk, DownsOk, HarvestOk;
  }

  /** The tags for the slices of t after its next harvest pass. */
  function WithPart(job: Job, s: System, t: Tagged): seq<set<nat>> {
    [SeenBy(job, s.hist, PipeOfPort(t.pkt.port), t.round)] + t.parts
  }

  /** A pass before the last one. */
  lemma HarvestMoves(job: Job, s: System, i: nat)
    requires Inv(job, s) && Enabled(job, s, Harvest(i)) && s.harvest[i].pkt.md.packetType < HARVEST7
    ensures Inv(job, Next(job, s, Harvest(i)))
  {
    hide Below, BitOf, ClientsOk, ContribOk, PipesOk, LinksOk, DownsOk, HarvestOk;
    hide Below, BitOf, Collected, HarvestPass, Verdict, Holds, Cut, HarvestedOnce, HarvestPort, HarvestPipe;
    var t, h := s.harvest[i], s.hist;
    var pipe := PipeOfPort(t.pkt.port);
    EntryOk(job, s.harvest, h.done, h.replied, i);
    if LeavesInTime(t) {
      LeavingHolds(job, s, i, pipe);
    }
    var parts := WithPart(job, s, t);
    HarvestStage(job, s.pipes[pipe], t, parts, h.done, h.replied);
    var u := t.(pkt := HarvestedOnce(s.pipes[pipe], t.pkt), parts := parts);
    HarvestReplaced(job, s.harvest, i, u, h.done, h.replied);
    HarvestQueueReplaced(job, s, s.harvest[i := u]);
  }

  /** The last pass is made by the oldest packet only. */
  lemma LastPass(job: Job, s: System, i: nat)
    requires Shape(job, s) && Enabled(job, s, Harvest(i)) && s.harvest[i].pkt.md.packetType == HARVEST7
    requires PipeOfPort(s.harvest[i].pkt.port) == 0 && job.Valid()
    ensures i == 0
    ensures var t := s.harvest[0];
            var outcome := HarvestPass(s.pipes[0], t.pkt).outcome;
            && (!Leaves(t) ==> Next(job, s, Harvest(i)) == s.(harvest := Cut(s.harvest, 0)))
            && (Leaves(t) ==> Next(job, s, Harvest(i)) ==
                              SendReply(job, s.(harvest := Cut(s.harvest, 0)), outcome,
                                        t.(parts := WithPart(job, s, t))))
  {
    hide Below, BitOf, HarvestPass, Verdict, Cut, LastReply;
    HarvestLast(job, s.pipes[0], s.harvest[0]);
  }

  lemma HarvestEnds(job: Job, s: System, i: nat)
    requires Inv(job, s) && Enabled(job, s, Harvest(i)) && s.harvest[i].pkt.md.packetType == HARVEST7
    ensures Inv(job, Next(job, s, Harvest(i)))
  {
    hide Below, BitOf, Almost, HarvestPass, Verdict, Cut, LastReply, ReplyOk, HarvestEntryOk, Holds, SendReply;
    AlmostShape(job, s);
    HarvestAt(job, s, i);
    LastPass(job, s, i);
    var t := s.harvest[0];
    if LeavesInTime(t) {
      EndsWithReply(job, s);
      AnswerInv(job, s, HarvestPass(s.pipes[0], t.pkt).outcome, WithPart(job, s, t));
    } else if Leaves(t) {
      HarvestLast(job, s.pipes[0], t);
      EarlyMeansLarge(job, t, s.hist.done, s.hist.replied);
      EarlyAnswerInv(job, s, HarvestPass(s.pipes[0], t.pkt).outcome, WithPart(job, s, t));
    } else {
      HarvestTail(job, s.harvest, s.hist.done, s.hist.replied);
      HarvestQueueReplaced(job, s, Cut(s.harvest, 0));
    }
  }

  lemma HarvestAt(job: Job, s: System, i: nat)
    requires Inv(job, s) && i < |s.harvest|
    ensures HarvestOk(job, s.harvest, s.hist.done, s.hist.replied)
    ensures HarvestEntryOk(job, s.harvest[i], s.hist.done, s.hist.replied)
    ensures s.harvest[i].pkt.md.worker < job.n
    ensures PipeOfPort(s.harvest[i].pkt.port) == HarvestPipe(s.harvest[i].pkt.md.packetType) < job.Pipes()
  {
    hide Below, BitOf, ClientsOk, ContribOk, PipesOk, LinksOk, DownsOk, HarvestOk, Collected, Verdict;
    EntryOk(job, s.harvest, s.hist.done, s.hist.replied, i);
  }

  lemma EndsWithReply(job: Job, s: System)
    requires Inv(job, s) && s.harvest != [] && s.harvest[0].pkt.md.packetType == HARVEST7 && LeavesInTime(s.harvest[0])
    ensures var t, outcome := s.harvest[0], HarvestPass(s.pipes[0], s.harvest[0].pkt).outcome;
            && (outcome.ToAll? || (outcome.ToOne? && outcome.worker < job.n))
            && forall w | 0 <= w < job.n && (outcome.ToAll? || w == outcome.worker) ::
                 ReplyOk(job, AsReply(outcome.reply, t), w, s.clients[w].chunk, t.round + 1)
  {
    hide Below, BitOf, Almost, HarvestPass, Verdict, LastReply, ReplyOk, Holds, Collected;
    AlmostShape(job, s);
    HarvestAt(job, s, 0);
    var t, h := s.harvest[0], s.hist;
    HarvestLast(job, s.pipes[0], t);
    LeavingHolds(job, s, 0, 0);
    forall w | 0 <= w < job.n && (w == t.pkt.md.worker || IsBroadcastEntry(t))
      ensures ReplyOk(job, AsReply(LastReply(s.pipes[0].At(t.pkt.md.setBit), t), t), w, s.clients[w].chunk, t.round + 1)
    {
      ClientAt(job, s, w);
      LastReplyOk(job, s.pipes[0].At(t.pkt.md.setBit), t, h.done, h.replied, w, s.clients[w].chunk);
    }
  }

  lemma HarvestInv(job: Job, s: System, i: nat)
    requires Inv(job, s) && Enabled(job, s, Harvest(i))
    ensures Inv(job, Next(job, s, Harvest(i)))
  {
    if s.harvest[i].pkt.md.packetType < HARVEST7 {
      HarvestMoves(job, s, i);
    } else {
      HarvestEnds(job, s, i);
    }
  }
}
