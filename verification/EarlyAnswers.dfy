/**
 * What answers that are too early contain. Together with the invariant this is kept by every event of a sound run, and
 * says exactly when a client that accepts such an answer gets the sums all the same.
 */
module EarlyAnswers {
  import opened Words
  import opened Jobs
  import opened SwitchTables
  import opened SwitchPass
  import opened PipeInvariant
  import opened Protocol
  import opened ProtocolInvariant
  import opened HarvestInvariant
  import opened ConsumeInvariant
  import opened ProtocolSafety

  /** The slices from number `from` on are the sums over the workers in `parts`, and the last one is worker w's own. */
  ghost predicate Partial(job: Job, payload: seq<Slice>, parts: seq<set<nat>>, w: nat, r: nat, from: nat) {
    && 1 <= |payload| == |parts| && |payload| + from == 2 * job.Pipes()
    && payload[|payload| - 1] == job.Own(w, r, 2 * job.Pipes() - 1)
    && forall k | 0 <= k < |payload| - 1 :: parts[k] <= job.Workers() && payload[k] == job.Part(parts[k], r, from + k)
  }

  /** A packet being harvested too early: its worker has the round outstanding, and is counted for it in every pipe. */
  ghost predicate EarlyEntryOk(job: Job, t: Tagged, chunk: nat, h: History) {
    && h.replied <= t.round <= h.done && chunk == t.round
    && (t.round == h.done ==> forall j | 0 <= j < |h.contrib| :: t.pkt.md.worker in h.contrib[j])
    && Partial(job, t.pkt.payload, t.parts, t.pkt.md.worker, t.round, 16 - t.pkt.md.packetType)
    && t.seen == job.Workers() && t.pkt.md.e0 == job.MaxExponent(t.seen, t.round, 0)
  }

  ghost predicate EarlyReplyOk(job: Job, t: TaggedReply, w: nat, chunk: nat) {
    && t.round == chunk && t.reply.setBit == BitOf(t.round) && t.reply.kind == IsRetransmit
    && Partial(job, t.reply.payload, t.parts, w, t.round, 0)
    && t.seen == job.Workers() && t.reply.e0 == job.MaxExponent(t.seen, t.round, 0)
    && t.reply.e1 == job.MaxExponent(t.parts[0], t.round, 1)
  }

  /** In-time answers in front of an early one belong to earlier rounds. */
  ghost predicate EarlyHarvestOk(job: Job, q: seq<Tagged>, clients: seq<Client>, h: History) {
    && (forall i | 0 <= i < |q| && q[i].early ::
          q[i].pkt.md.worker < |clients| && EarlyEntryOk(job, q[i], clients[q[i].pkt.md.worker].chunk, h))
    && (forall i, k | 0 <= i < k < |q| && LeavesInTime(q[i]) && q[k].early :: q[i].round < q[k].round)
  }

  ghost predicate EarlyDownOk(job: Job, q: seq<TaggedReply>, w: nat, chunk: nat) {
    && (forall i | 0 <= i < |q| && q[i].early :: EarlyReplyOk(job, q[i], w, chunk))
    && (forall i, k | 0 <= i < k < |q| && !q[i].early && q[k].early :: q[i].round < q[k].round)
  }

  ghost predicate EarlyDownsOk(job: Job, down: seq<seq<TaggedReply>>, clients: seq<Client>) {
    |down| == |clients| && forall w | 0 <= w < |down| :: EarlyDownOk(job, down[w], w, clients[w].chunk)
  }

  ghost predicate EarlyInv(job: Job, s: System) {
    EarlyHarvestOk(job, s.harvest, s.clients, s.hist) && EarlyDownsOk(job, s.down, s.clients)
  }

  // ---------- consume passes ----------

  /** Counting more workers, or completing the round, is fine for the entries that are there. */
  lemma HistoryGrows(job: Job, q: seq<Tagged>, clients: seq<Client>, h: History, h': History)
    requires EarlyHarvestOk(job, q, clients, h) && h'.replied == h.replied && h.done <= h'.done
    requires h'.done == h.done ==>
               |h'.contrib| == |h.contrib| && forall j | 0 <= j < |h.contrib| :: h.contrib[j] <= h'.contrib[j]
    ensures EarlyHarvestOk(job, q, clients, h')
  {
    hide Partial, Verdict, Below;
  }

  lemma EarlyEnters(job: Job, q: seq<Tagged>, clients: seq<Client>, h: History, u: Tagged)
    requires EarlyHarvestOk(job, q, clients, h)
    requires u.early ==> u.pkt.md.worker < |clients| && EarlyEntryOk(job, u, clients[u.pkt.md.worker].chunk, h)
    requires u.early ==> forall t | t in q && LeavesInTime(t) :: t.round < u.round
    ensures EarlyHarvestOk(job, q + [u], clients, h)
  {
    hide EarlyEntryOk, LeavesInTime;
  }

  lemma {:induction false} CountedEverywhere(job: Job, s: System, j: nat, w: nat)
    requires Inv(job, s) && j < job.Pipes() && w < job.n && w in s.hist.contrib[job.Pipes() - 1]
    ensures w in s.hist.contrib[j] && s.clients[w].chunk == s.hist.done
    decreases job.Pipes() - j
  {
    hide Below, BitOf, LinksOk, DownsOk, HarvestOk, PipesOk, ClientsOk;
    CountedMeansOutstanding(job, s, job.Pipes() - 1, w);
    if j + 1 < job.Pipes() {
      CountedEverywhere(job, s, j + 1, w);
      assert Before(s.clients, s.hist, j + 1, w);
    }
  }

  /** The packet of a consume pass that is too early, as it joins the harvest queue. */
  lemma EarlyStarts(job: Job, s: System, j: nat, w: nat)
    requires Inv(job, s) && Enabled(job, s, Consume(j, w)) && j + 1 == job.Pipes()
    requires IsTooEarly(s.pipes[j], s.links[Hop(j, w)][0].pkt)
    ensures job.Pipes() == 4 && s.links[Hop(j, w)][0].round == s.hist.done && w in s.hist.contrib[j]
    ensures s.links[Hop(j, w)][0].seen == job.Workers()
    ensures s.links[Hop(j, w)][0].pkt.md.e0 == job.MaxExponent(job.Workers(), s.hist.done, 0)
  {
    hide Below, BitOf, Inv, Holds, Carries;
    Head(job, s, j, w);
    var t, K := s.links[Hop(j, w)][0], s.hist.contrib[j];
    NextBit(t.round);
  }

  lemma EarlyConsume(job: Job, s: System, j: nat, w: nat)
    requires Inv(job, s) && EarlyInv(job, s) && Enabled(job, s, Consume(j, w))
    ensures EarlyInv(job, Next(job, s, Consume(j, w)))
  {
    hide Below, BitOf, Inv, PipeOk, Carries, ConsumePass, EarlyHarvestOk, EarlyDownsOk, IsTooEarly, SeenOk, Verdict;
    Head(job, s, j, w);
    HarvestOnlyFromLast(job, s, j, w);
    var t := s.links[Hop(j, w)][0];
    var pass := ConsumePass(s.pipes[j], t.pkt);
    var p := if pass.outcome.Recirculated? then pass.outcome.pkt else t.pkt;
    PassedTags(job, s, j, w, pass.dup, p);
    var s1, u := Popped(job, s, j, w, pass.regs), Passed(job, s, j, w, pass.dup, p);
    HistoryGrows(job, s.harvest, s.clients, s.hist, s1.hist);
    var s2 := Route(job, s1, pass.outcome, u);
    if s2.harvest != s1.harvest {
      assert s2.harvest == s.harvest + [u];
      if u.early {
        EarlyEntry(job, s, j, w);
      }
      EarlyEnters(job, s.harvest, s.clients, s1.hist, u);
    }
    HistoryGrows(job, s2.harvest, s.clients, s1.hist, Settle(job, s2).hist);
  }

  lemma EarlyEntry(job: Job, s: System, j: nat, w: nat)
    requires Inv(job, s) && Enabled(job, s, Consume(j, w)) && j + 1 == job.Pipes()
    requires IsTooEarly(s.pipes[j], s.links[Hop(j, w)][0].pkt)
    ensures var t := s.links[Hop(j, w)][0];
            var pass := ConsumePass(s.pipes[j], t.pkt);
            && pass.outcome.Recirculated?
            && var u, h := Passed(job, s, j, w, pass.dup, pass.outcome.pkt), Counted(s.hist, j, w, t.round);
               && u.pkt.md.worker == w && EarlyEntryOk(job, u, s.clients[w].chunk, h) && u.round == s.hist.done
  {
    hide Below, BitOf, Inv, PipeOk, Carries, ConsumePass, IsTooEarly, SeenOk, NextStep;
    Head(job, s, j, w);
    EarlyStarts(job, s, j, w);
    var t, K := s.links[Hop(j, w)][0], s.hist.contrib[j];
    ConsumeOld(job, j, s.pipes[j], s.hist.done, K, t.pkt, w, t.round);
    EarlyByFlag(job, s, j, w, CountOf(job, K));
    var pass := ConsumePass(s.pipes[j], t.pkt);
    ConsumeRow(job, t.pkt, w, t.round, j, pass.flag, true);
    PassedTags(job, s, j, w, pass.dup, pass.outcome.pkt);
    forall i | 0 <= i < job.Pipes()
      ensures w in s.hist.contrib[i]
    {
      CountedEverywhere(job, s, i, w);
    }
    CountedEverywhere(job, s, 0, w);
  }

  // ---------- harvest passes ----------

  /** While a packet is harvested too early, every pipe still holds the sums of the workers it has counted. */
  lemma EarlyHolds(job: Job, s: System, i: nat, j: nat)
    requires Inv(job, s) && EarlyInv(job, s) && i < |s.harvest| && s.harvest[i].early && j < job.Pipes()
    ensures var t := s.harvest[i];
            && SeenBy(job, s.hist, j, t.round) <= job.Workers()
            && Holds(job, j, s.pipes[j].At(BitOf(t.round)), SeenBy(job, s.hist, j, t.round), t.round)
  {
    hide Below, BitOf, LinksOk, DownsOk, HarvestOk, Holds, Partial, Verdict;
    var t, K := s.harvest[i], s.hist.contrib[j];
    assert PipeOk(job, j, s.pipes[j], s.hist.done, K);
    NextBit(t.round);
  }

  lemma PartialSlice(job: Job, t: PacketType, v: SetRegisters, K: set<nat>, r: nat)
    requires HARVEST0 <= t && Holds(job, HarvestPipe(t), v, K, r)
    ensures (if HarvestHalf(t) == D0 then v.d0 else v.d1) == job.Part(K, r, 15 - t)
  {
    var j := HarvestPipe(t);
    assert 15 - t == if HarvestHalf(t) == D0 then 2 * j else 2 * j + 1;
  }

  lemma PartialGrows(job: Job, payload: seq<Slice>, parts: seq<set<nat>>, w: nat, r: nat, from: nat, d: Slice,
                     K: set<nat>)
    requires Partial(job, payload, parts, w, r, from) && 1 <= from && K <= job.Workers()
    requires d == job.Part(K, r, from - 1)
    ensures Partial(job, [d] + payload, [K] + parts, w, r, from - 1)
  {
    hide Below;
    var payload', parts' := [d] + payload, [K] + parts;
    forall k | 0 <= k < |payload'| - 1
      ensures parts'[k] <= job.Workers() && payload'[k] == job.Part(parts'[k], r, from - 1 + k)
    {
      if k != 0 {
        assert payload'[k] == payload[k - 1] && parts'[k] == parts[k - 1];
      }
    }
  }

  lemma EarlyMoves(job: Job, s: System, i: nat)
    requires Inv(job, s) && EarlyInv(job, s) && Enabled(job, s, Harvest(i)) && s.harvest[i].pkt.md.packetType < HARVEST7
    ensures EarlyInv(job, Next(job, s, Harvest(i)))
  {
    hide Below, BitOf, Inv, Collected, HarvestPass, Verdict, Holds, Cut, HarvestPort, HarvestPipe, HarvestHalf, Partial;
    InvValid(job, s);
    HarvestAt(job, s, i);
    var t, h := s.harvest[i], s.hist;
    var pipe := PipeOfPort(t.pkt.port);
    if LeavesInTime(t) {
      LeavingHolds(job, s, i, pipe);
    }
    HarvestStage(job, s.pipes[pipe], t, WithPart(job, s, t), h.done, h.replied);
    var u := t.(pkt := HarvestedOnce(s.pipes[pipe], t.pkt), parts := WithPart(job, s, t));
    if t.early {
      EarlyHolds(job, s, i, pipe);
      PartialSlice(job, t.pkt.md.packetType, s.pipes[pipe].At(t.pkt.md.setBit), SeenBy(job, h, pipe, t.round), t.round);
      PartialGrows(job, t.pkt.payload, t.parts, t.pkt.md.worker, t.round, 16 - t.pkt.md.packetType, u.pkt.payload[0],
                   SeenBy(job, h, pipe, t.round));
    }
    EarlyReplaced(job, s.harvest, s.clients, h, i, u);
  }

  lemma EarlyReplaced(job: Job, q: seq<Tagged>, clients: seq<Client>, h: History, i: nat, u: Tagged)
    requires EarlyHarvestOk(job, q, clients, h) && i < |q| && u.early == q[i].early && u.round == q[i].round
    requires Verdict(u.pkt.md) == Verdict(q[i].pkt.md)
    requires u.early ==> u.pkt.md.worker < |clients| && EarlyEntryOk(job, u, clients[u.pkt.md.worker].chunk, h)
    ensures EarlyHarvestOk(job, q[i := u], clients, h)
  {
    hide EarlyEntryOk, Verdict;
  }

  /** The oldest packet leaves the queue; if it was answered in time, that is bounded by the early ones behind it. */
  lemma EarlyTail(job: Job, q: seq<Tagged>, clients: seq<Client>, h: History)
    requires EarlyHarvestOk(job, q, clients, h) && q != []
    ensures EarlyHarvestOk(job, Cut(q, 0), clients, h)
    ensures LeavesInTime(q[0]) ==>
              EarlyHarvestOk(job, Cut(q, 0), clients, h.(replied := Max(h.replied, q[0].round + 1)))
  {
    hide Partial, Verdict;
    assert Cut(q, 0) == q[1..];
  }

  lemma InTimeAppended(job: Job, q: seq<TaggedReply>, w: nat, chunk: nat, t: TaggedReply)
    requires EarlyDownOk(job, q, w, chunk) && !t.early
    ensures EarlyDownOk(job, q + [t], w, chunk)
  {
    hide EarlyReplyOk;
  }

  lemma EarlyAppendedLast(job: Job, q: seq<TaggedReply>, w: nat, chunk: nat, replied: nat, t: TaggedReply)
    requires EarlyDownOk(job, q, w, chunk) && EarlyReplyOk(job, t, w, chunk) && DownOk(job, q, w, chunk, replied)
    requires replied <= t.round
    ensures EarlyDownOk(job, q + [t], w, chunk)
  {
    hide EarlyReplyOk, Collected;
  }

  lemma EarlyLastReply(job: Job, s: System)
    requires Inv(job, s) && EarlyInv(job, s) && s.harvest != [] && s.harvest[0].early
    requires s.harvest[0].pkt.md.packetType == HARVEST7
    ensures Shape(job, s)
    ensures var t := s.harvest[0];
            var r := AsReply(LastReply(s.pipes[0].At(t.pkt.md.setBit), t), t.(parts := WithPart(job, s, t)));
            && EarlyReplyOk(job, r, t.pkt.md.worker, t.round)
            && !IsBroadcastEntry(t) && PipeOfPort(t.pkt.port) == 0
  {
    hide Below, BitOf, Inv, Collected, Verdict, Holds, Partial;
    InvValid(job, s);
    HarvestAt(job, s, 0);
    var t := s.harvest[0];
    EarlyHolds(job, s, 0, 0);
    var K, v := SeenBy(job, s.hist, 0, t.round), s.pipes[0].At(t.pkt.md.setBit);
    ExponentOf(job, v, K, t.round);
    PartialSlice(job, HARVEST7, v, K, t.round);
    PartialGrows(job, t.pkt.payload, t.parts, t.pkt.md.worker, t.round, 1, v.d0, K);
  }

  lemma ExponentOf(job: Job, v: SetRegisters, K: set<nat>, r: nat)
    requires Holds(job, 0, v, K, r)
    ensures v.e1 == job.MaxExponent(K, r, 1)
  {
  }

  lemma EarlyEnds(job: Job, s: System, i: nat)
    requires Inv(job, s) && EarlyInv(job, s) && Enabled(job, s, Harvest(i))
    requires s.harvest[i].pkt.md.packetType == HARVEST7
    ensures EarlyInv(job, Next(job, s, Harvest(i)))
  {
    hide Below, BitOf, Almost, Collected, HarvestPass, Verdict, Holds, Cut, HarvestPort, LastReply, EarlyDownOk;
    hide EarlyHarvestOk, HarvestEntryOk;
    InvValid(job, s);
    HarvestAt(job, s, i);
    LastPass(job, s, i);
    var t := s.harvest[0];
    HarvestLast(job, s.pipes[0], t);
    EarlyTail(job, s.harvest, s.clients, s.hist);
    var outcome := HarvestPass(s.pipes[0], t.pkt).outcome;
    if Leaves(t) {
      var u, w := AsReply(outcome.reply, t.(parts := WithPart(job, s, t))), t.pkt.md.worker;
      if t.early {
        EarlyChunk(job, s);
        EarlyLastReply(job, s);
        DownAt(job, s, w);
        EarlyAppendedLast(job, s.down[w], w, s.clients[w].chunk, s.hist.replied, u);
      } else {
        forall v | 0 <= v < job.n
          ensures EarlyDownOk(job, s.down[v] + [u], v, s.clients[v].chunk)
        {
          InTimeAppended(job, s.down[v], v, s.clients[v].chunk, u);
        }
      }
    }
  }

  lemma EarlyChunk(job: Job, s: System)
    requires EarlyInv(job, s) && s.harvest != [] && s.harvest[0].early
    ensures s.harvest[0].pkt.md.worker < |s.clients|
    ensures s.clients[s.harvest[0].pkt.md.worker].chunk == s.harvest[0].round && s.hist.replied <= s.harvest[0].round
  {
  }

  // ---------- replies and losses ----------

  /** A client that accepts an answer in time has no early one on its way. */
  lemma EarlyAccept(job: Job, s: System, w: nat)
    requires Inv(job, s) && EarlyInv(job, s) && w < job.n && s.down[w] != [] && !s.down[w][0].early
    requires s.down[w][0].round == s.clients[w].chunk
    ensures EarlyInv(job, Accepted(s, w))
  {
    hide Below, BitOf, Almost, Collected, Partial, Verdict;
    AlmostShape(job, s);
    DownAt(job, s, w);
    var s', q := Accepted(s, w), s.down[w];
    assert ReplyOk(job, q[0], w, s.clients[w].chunk, s.hist.replied);
    assert forall k | 0 < k < |q| :: !q[k].early;
    assert forall i | 0 <= i < |s.harvest| && s.harvest[i].early :: s.harvest[i].pkt.md.worker != w;
    assert EarlyHarvestOk(job, s'.harvest, s'.clients, s'.hist);
  }

  lemma EarlyDeliver(job: Job, s: System, w: nat)
    requires Inv(job, s) && EarlyInv(job, s) && Enabled(job, s, Deliver(w)) && !AcceptsEarly(s, Deliver(w))
    ensures EarlyInv(job, Next(job, s, Deliver(w)))
  {
    hide Below, BitOf, Inv, EarlyHarvestOk, Send, ReplyOk;
    InvValid(job, s);
    AcceptMeansOwnChunk(job, s, w);
    if s.down[w][0].reply.setBit == s.clients[w].setBit {
      EarlyAccept(job, s, w);
    } else {
      PoppedDown(job, s.down[w], w, s.clients[w].chunk);
    }
  }

  lemma PoppedDown(job: Job, q: seq<TaggedReply>, w: nat, chunk: nat)
    requires q != [] && EarlyDownOk(job, q, w, chunk)
    ensures EarlyDownOk(job, q[1..], w, chunk)
  {
    hide EarlyReplyOk;
  }

  lemma EarlyLoss(job: Job, s: System, ev: Event)
    requires Shape(job, s) && EarlyInv(job, s) && Enabled(job, s, ev) && IsLoss(ev)
    ensures EarlyInv(job, Next(job, s, ev))
  {
    hide EarlyEntryOk, EarlyReplyOk, LeavesInTime;
  }

  lemma EarlyStep(job: Job, s: System, ev: Event)
    requires Inv(job, s) && EarlyInv(job, s) && Enabled(job, s, ev) && !AcceptsEarly(s, ev)
    ensures EarlyInv(job, Next(job, s, ev))
  {
    hide Inv, EarlyHarvestOk, EarlyDownsOk, Send, AcceptsEarly;
    InvValid(job, s);
    match ev {
      case Retransmit(w) =>
      case Consume(j, w) => EarlyConsume(job, s, j, w);
      case Harvest(i) =>
        if s.harvest[i].pkt.md.packetType < HARVEST7 {
          EarlyMoves(job, s, i);
        } else {
          EarlyEnds(job, s, i);
        }
      case Deliver(w) => EarlyDeliver(job, s, w);
      case _ => EarlyLoss(job, s, ev);
    }
  }

  lemma {:induction false} EarlyRun(job: Job, s: System, evs: seq<Event>)
    requires Inv(job, s) && EarlyInv(job, s) && SoundRun(job, s, evs)
    ensures EarlyInv(job, After(job, s, evs))
    decreases |evs|
  {
    hide Inv, EarlyInv, AcceptsEarly;
    if evs != [] {
      StepInv(job, s, evs[0]);
      EarlyStep(job, s, evs[0]);
      EarlyRun(job, Next(job, s, evs[0]), evs[1..]);
    }
  }

  lemma ReachableEarly(job: Job, s: System)
    requires Reachable(job, s)
    ensures Inv(job, s) && EarlyInv(job, s)
  {
    hide Inv;
    var s0, evs :| IsInit(job, s0) && SoundRun(job, s0, evs) && s == After(job, s0, evs);
    InitInv(job, s0);
    RunInv(job, s0, evs);
    EarlyRun(job, s0, evs);
  }

  // ---------- what a client gets ----------

  lemma SameIff(a: nat, b: nat)
    ensures a % MODULUS == (a + b) % MODULUS <==> b % MODULUS == 0
  {
  }

  /** Word i of slice k: the workers that are not in K contribute nothing to it. */
  predicate OthersAddNothing(job: Job, K: set<nat>, r: nat, k: nat, i: nat) {
    job.Sum(job.Workers() - K, r, 32 * k + i) % MODULUS == 0
  }

  ghost predicate MissingAddNothing(job: Job, parts: seq<set<nat>>, r: nat) {
    forall k, i | 0 <= k < |parts| - 1 && 0 <= i < 32 :: OthersAddNothing(job, parts[k], r, k, i)
  }

  lemma WordIff(job: Job, payload: seq<Slice>, parts: seq<set<nat>>, w: nat, r: nat, k: nat, i: nat)
    requires Partial(job, payload, parts, w, r, 0) && k + 1 < |payload| && i < 32
    ensures payload[k][i] == job.Sum(job.Workers(), r, 32 * k + i) % MODULUS <==>
            OthersAddNothing(job, parts[k], r, k, i)
  {
    hide Below;
    assert payload[k] == job.Part(parts[k], r, 0 + k);
    job.SumSplit(parts[k], r, 32 * k + i, job.n);
    SameIff(job.Sum(parts[k], r, 32 * k + i), job.Sum(job.Workers() - parts[k], r, 32 * k + i));
  }

  lemma SumsIff(job: Job, reply: Reply, parts: seq<set<nat>>, w: nat, r: nat)
    requires Partial(job, reply.payload, parts, w, r, 0) && reply.kind == IsRetransmit
    ensures HasSums(job, reply, r) <==> MissingAddNothing(job, parts, r)
  {
    hide Below, OthersAddNothing;
    forall k, i | 0 <= k < |parts| - 1 && 0 <= i < 32
      ensures reply.payload[k][i] == job.Sum(job.Workers(), r, 32 * k + i) % MODULUS <==>
              OthersAddNothing(job, parts[k], r, k, i)
    {
      WordIff(job, reply.payload, parts, w, r, k, i);
    }
  }

  /**
   * Client w accepts an answer that was too early, for its outstanding chunk. It gets the sums exactly if, in each
   * slice, the workers that were still missing when the slice was read add up to zero; the last slice is its own
   * data.
   */
  ghost predicate GetsEarly(job: Job, s: System, w: nat)
    requires w < |s.down| && w < |s.clients| && s.down[w] != []
  {
    var t, last := s.down[w][0], 2 * job.Pipes() - 1;
    && AcceptsEarly(s, Deliver(w)) && t.round == s.clients[w].chunk && |t.parts| == |t.reply.payload| == last + 1
    && (HasSums(job, t.reply, t.round) <==> MissingAddNothing(job, t.parts, t.round))
    && t.reply.payload[last] == job.Own(w, t.round, last)
  }

  /** A client that is handed an answer that was too early accepts it. */
  lemma EarlyAnswerIff(job: Job, s: System, w: nat)
    requires Reachable(job, s) && Shape(job, s) && Enabled(job, s, Deliver(w)) && s.down[w][0].early
    ensures GetsEarly(job, s, w)
  {
    hide Inv, BitOf, Below, HasSums, MissingAddNothing, Reachable;
    ReachableEarly(job, s);
    var t := s.down[w][0];
    assert EarlyDownOk(job, s.down[w], w, s.clients[w].chunk);
    assert EarlyReplyOk(job, t, w, s.clients[w].chunk);
    BitsOfClients(job, s, w);
    SumsIff(job, t.reply, t.parts, w, t.round);
  }

  /** The last slice of such an answer is the sum exactly if the other workers add up to zero. */
  lemma EarlyTailIff(job: Job, s: System, w: nat, i: nat)
    requires Reachable(job, s) && Shape(job, s) && Enabled(job, s, Deliver(w)) && s.down[w][0].early && i < 32
    ensures var t, last := s.down[w][0], 2 * job.Pipes() - 1;
            && |t.reply.payload| == last + 1
            && (t.reply.payload[last][i] == job.Sum(job.Workers(), t.round, 32 * last + i) % MODULUS <==>
                job.Sum(job.Workers() - {w}, t.round, 32 * last + i) % MODULUS == 0)
  {
    hide Reachable, Below, HasSums, MissingAddNothing;
    EarlyAnswerIff(job, s, w);
    OwnWordIff(job, w, s.down[w][0].round, 2 * job.Pipes() - 1, i);
  }

  lemma BitsOfClients(job: Job, s: System, w: nat)
    requires Inv(job, s) && w < job.n
    ensures Shape(job, s) && s.clients[w].setBit == BitOf(s.clients[w].chunk)
  {
    hide Almost, BitOf;
    AlmostShape(job, s);
    ClientAt(job, s, w);
  }

  // ---------- any run ----------

  /** The part of a run before a client first accepts an answer that was too early. */
  lemma {:induction false} SoundPrefix(job: Job, s: System, evs: seq<Event>) returns (k: nat)
    requires Run(job, s, evs)
    ensures k <= |evs| && SoundRun(job, s, evs[..k]) && (k == |evs| <==> SoundRun(job, s, evs))
    ensures k < |evs| ==> AcceptsEarly(After(job, s, evs[..k]), evs[k])
    ensures k < |evs| ==> Enabled(job, After(job, s, evs[..k]), evs[k])
    decreases |evs|
  {
    hide Next, Enabled, Shape, AcceptsEarly;
    k := 0;
    if evs != [] && !AcceptsEarly(s, evs[0]) {
      var rest := SoundPrefix(job, Next(job, s, evs[0]), evs[1..]);
      k := rest + 1;
      assert evs[..k][0] == evs[0] && evs[..k][1..] == evs[1..][..rest];
    }
  }

  /**
   * Every run from the start of a job delivers the results of chunks 0, 1, 2, ... to every client, to its end or to the
   * point where some client accepts an answer that was too early. What this client gets then is known, too.
   */
  lemma EveryRun(job: Job, s: System, evs: seq<Event>) returns (k: nat)
    requires job.Valid() && IsInit(job, s) && Run(job, s, evs)
    ensures k <= |evs| && SoundRun(job, s, evs[..k]) && (k == |evs| <==> SoundRun(job, s, evs))
    ensures job.size == Mtu256 ==> k == |evs|
    ensures forall w: nat, i | w < job.n && 0 <= i < |Received(job, s, evs[..k], w)| ::
              IsResult(job, Received(job, s, evs[..k], w)[i], i)
    ensures var s' := After(job, s, evs[..k]);
            k < |evs| ==> evs[k].Deliver? && evs[k].w < job.n && s'.down[evs[k].w] != [] && GetsEarly(job, s', evs[k].w)
  {
    hide Inv, IsInit, IsResult, Received, Run, After, GetsEarly, Shape;
    k := SoundPrefix(job, s, evs);
    if job.size == Mtu256 {
      InitInv(job, s);
      SmallIsSound(job, s, evs);
    }
    forall w: nat | w < job.n
      ensures forall i | 0 <= i < |Received(job, s, evs[..k], w)| :: IsResult(job, Received(job, s, evs[..k], w)[i], i)
    {
      AllReduce(job, s, evs[..k], w);
    }
    if k < |evs| {
      EarlyAnswerIff(job, After(job, s, evs[..k]), evs[k].w);
    }
  }
}
