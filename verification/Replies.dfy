/** When the switch answers: which passes queue an answer, which rounds are answered, and in what order. */
module Replies {
  import opened Words
  import opened Jobs
  import opened SwitchTables
  import opened SwitchPass
  import opened PipeInvariant
  import opened Protocol
  import opened ProtocolInvariant
  import opened HarvestInvariant
  import opened ConsumeInvariant
  import opened ProtocolSafety

  // ---------- which consume pass queues what ----------

  /** The next packet of link (j, w) is counted for the first time. */
  ghost predicate IsNew(job: Job, s: System, j: nat, w: nat)
    requires Shape(job, s) && Enabled(job, s, Consume(j, w))
  {
    s.links[Hop(j, w)][0].round == s.hist.done && w !in s.hist.contrib[j]
  }

  /** It is the last one the last pipe was waiting for. */
  ghost predicate IsCompleting(job: Job, s: System, j: nat, w: nat)
    requires Shape(job, s) && Enabled(job, s, Consume(j, w))
  {
    j + 1 == job.Pipes() && IsNew(job, s, j, w) && s.hist.contrib[j] + {w} == job.Workers()
  }

  /** The packet a last consume pass hands over to the harvest chain, given its metadata and the slice it keeps. */
  function Queued(job: Job, md: Metadata, d: Slice, rest: seq<Slice>): Packet
    requires job.Valid()
  {
    var stage := 17 - 2 * job.Pipes();
    Packet(md.(packetType := stage), HarvestPort(stage), [d] + rest)
  }

  lemma QueuedByRoute(job: Job, s: System, outcome: Outcome, t: Tagged, md: Metadata, d0: Slice, d1: Slice,
                      rest: seq<Slice>)
    requires job.Valid()
    requires var stage := 17 - 2 * job.Pipes();
             outcome == Perform(ForHarvest(stage, HarvestPort(stage), D1), md, d0, d1, rest)
    ensures outcome == Recirculated(Queued(job, md, d1, rest))
    ensures Route(job, s, outcome, t) == s.(harvest := s.harvest + [t])
  {
    FirstHarvestPort(job);
  }

  lemma RouteDropped(job: Job, s: System, t: Tagged)
    ensures Route(job, s, Dropped, t) == s
  {
  }

  /**
   * A packet that is new in the last pipe queues an answer exactly when it completes the round, and the round is
   * advanced exactly then. It will be broadcast exactly when no earlier pipe has marked it as first or as repeated.
   */
  lemma NewPacket(job: Job, s: System, j: nat, w: nat)
    requires Inv(job, s) && Enabled(job, s, Consume(j, w)) && j + 1 == job.Pipes() && IsNew(job, s, j, w)
    ensures var s', p := Next(job, s, Consume(j, w)), s.links[Hop(j, w)][0].pkt;
            && !IsTooEarly(s.pipes[j], p)
            && s'.hist.replied == s.hist.replied
            && if IsCompleting(job, s, j, w) then
                 && s'.hist.done == s.hist.done + 1
                 && |s'.harvest| == |s.harvest| + 1 && s'.harvest[..|s.harvest|] == s.harvest
                 && s'.harvest[|s.harvest|].round == s.hist.done && !s'.harvest[|s.harvest|].early
                 && (IsBroadcastEntry(s'.harvest[|s.harvest|]) <==> !p.md.firstFlag && !p.md.dupFlag)
                 && (Leaves(s'.harvest[|s.harvest|]) <==> p.md.firstFlag == p.md.dupFlag)
               else s'.hist.done == s.hist.done && s'.harvest == s.harvest
  {
    hide Below, BitOf, PipeOk, NextStep, ConsumePass, Carries, Almost, Inv, Verdict, Route, SeenOk, IsTooEarly;
    Head(job, s, j, w);
    var t, K := s.links[Hop(j, w)][0], s.hist.contrib[j];
    var e0 := ConsumeNew(job, j, s.pipes[j], t.round, K, t.pkt, w);
    var pass, flag := ConsumePass(s.pipes[j], t.pkt), NewFlag(job, K);
    ConsumeRow(job, t.pkt, w, t.round, j, flag, false);
    LastIffComplete(job, K, w);
    NewIsInTime(job, s, j, w);
    var s1, md := Popped(job, s, j, w, pass.regs), MetadataAfter(t.pkt, e0, flag, false);
    if flag == 1 {
      var d1, rest := job.Part(K + {w}, t.round, 2 * j + 1), t.pkt.payload[2..];
      var p := Queued(job, md, d1, rest);
      QueuedByRoute(job, s1, pass.outcome, Passed(job, s, j, w, false, p), md, t.pkt.payload[0], d1, rest);
      VerdictByFlags(job, p.md);
    } else {
      RouteDropped(job, s1, Passed(job, s, j, w, false, t.pkt));
    }
  }

  /**
   * A retransmission never advances the round. It queues an answer that will leave exactly when its round is
   * complete already, or when it is too early; and the answer is marked exactly then.
   */
  lemma OldPacket(job: Job, s: System, j: nat, w: nat)
    requires Inv(job, s) && Enabled(job, s, Consume(j, w)) && j + 1 == job.Pipes() && !IsNew(job, s, j, w)
    ensures var s', t := Next(job, s, Consume(j, w)), s.links[Hop(j, w)][0];
            && s'.pipes == s.pipes && s'.hist == s.hist
            && s.harvest <= s'.harvest && |s'.harvest| <= |s.harvest| + 1
            && (forall u | |s'.harvest| == |s.harvest| + 1 && u == s'.harvest[|s.harvest|] ::
                  u.round == t.round && !IsBroadcastEntry(u) && (u.early <==> IsTooEarly(s.pipes[j], t.pkt)))
            && ((|s'.harvest| == |s.harvest| + 1 && Leaves(s'.harvest[|s.harvest|])) <==>
                t.round + 1 == s.hist.done || IsTooEarly(s.pipes[j], t.pkt))
            && (IsTooEarly(s.pipes[j], t.pkt) ==> t.round == s.hist.done)
  {
    hide Below, BitOf, PipeOk, NextStep, ConsumePass, Carries, Almost, Inv, Verdict, Route, SeenOk, IsTooEarly;
    Head(job, s, j, w);
    var t, K := s.links[Hop(j, w)][0], s.hist.contrib[j];
    ConsumeOld(job, j, s.pipes[j], s.hist.done, K, t.pkt, w, t.round);
    var pass := ConsumePass(s.pipes[j], t.pkt);
    if t.round == s.hist.done {
      assert K + {w} == K;
      SubsetSize({w}, K);
    }
    job.ContributorCount(K);
    EarlyByFlag(job, s, j, w, pass.flag);
    ConsumeRow(job, t.pkt, w, t.round, j, pass.flag, true);
    assert s.hist.contrib[j := K] == s.hist.contrib;
    var s1 := Popped(job, s, j, w, pass.regs);
    var md := MetadataAfter(t.pkt, s.pipes[j].At(BitOf(t.round)).e0, pass.flag, true);
    assert s1.pipes == s.pipes && s1.hist == s.hist;
    if pass.flag <= 1 {
      var d1, rest := t.pkt.payload[1], t.pkt.payload[2..];
      var p := Queued(job, md, d1, rest);
      QueuedByRoute(job, s1, pass.outcome, Passed(job, s, j, w, true, p), md, s.pipes[j].At(BitOf(t.round)).d0, d1,
                    rest);
      PassedTags(job, s, j, w, true, p);
      FirstHarvestPort(job);
      VerdictByFlags(job, p.md);
    } else {
      RouteDropped(job, s1, Passed(job, s, j, w, true, t.pkt));
    }
  }

  /** The pass hands a packet to the harvest chain that will be answered although the last pipe misses a worker. */
  ghost predicate QueuesIncomplete(job: Job, s: System, ev: Event)
    requires Shape(job, s) && Enabled(job, s, ev)
  {
    var s' := Next(job, s, ev);
    && ev.Consume? && ev.j + 1 == job.Pipes()
    && |s.harvest| < |s'.harvest| && Leaves(s'.harvest[|s.harvest|])
    && s'.hist.done <= s'.harvest[|s.harvest|].round
  }

  /** Only complete rounds are answered, except exactly by packets that are too early. */
  lemma TooEarlyIff(job: Job, s: System, ev: Event)
    requires Inv(job, s) && Enabled(job, s, ev)
    ensures QueuesIncomplete(job, s, ev) <==> !Clean(job, s, ev)
  {
    hide Below, BitOf, Inv, Next, ConsumePass, IsTooEarly, Verdict;
    InvValid(job, s);
    if ev.Consume? && ev.j + 1 == job.Pipes() {
      if IsNew(job, s, ev.j, ev.w) {
        NewPacket(job, s, ev.j, ev.w);
      } else {
        OldPacket(job, s, ev.j, ev.w);
      }
    }
  }

  /** With 256-byte packets the packet that completes a round is always broadcast. */
  lemma SmallCompletingIsBroadcast(job: Job, s: System, w: nat)
    requires Inv(job, s) && job.size == Mtu256 && Enabled(job, s, Consume(0, w)) && IsCompleting(job, s, 0, w)
    ensures var s' := Next(job, s, Consume(0, w));
            |s'.harvest| == |s.harvest| + 1 && IsBroadcastEntry(s'.harvest[|s.harvest|])
  {
    hide Below, BitOf, Inv, Next, ConsumePass, Verdict;
    Head(job, s, 0, w);
    NewPacket(job, s, 0, w);
  }

  /** No event of the run queues an answer for an incomplete round. */
  ghost predicate AnswersOnlyComplete(job: Job, s: System, evs: seq<Event>)
    requires Run(job, s, evs)
    decreases |evs|
  {
    evs != [] ==> !QueuesIncomplete(job, s, evs[0]) && AnswersOnlyComplete(job, Next(job, s, evs[0]), evs[1..])
  }

  /** A run answers complete rounds only if and only if it never queues an answer too early. */
  lemma {:induction false} CleanRunIff(job: Job, s: System, evs: seq<Event>)
    requires Inv(job, s) && NoneEarly(s) && Run(job, s, evs)
    ensures AnswersOnlyComplete(job, s, evs) <==> CleanRun(job, s, evs)
    decreases |evs|
  {
    hide Inv, Clean, Next, Enabled, QueuesIncomplete, NoneEarly, AcceptsEarly;
    if evs != [] {
      TooEarlyIff(job, s, evs[0]);
      if Clean(job, s, evs[0]) {
        CleanStep(job, s, evs[0]);
        StepInv(job, s, evs[0]);
        CleanRunIff(job, Next(job, s, evs[0]), evs[1..]);
      }
    }
  }

  /** From the start of a job, for any number of workers, losses and retransmissions. */
  lemma AnswersCompleteIffClean(job: Job, s: System, evs: seq<Event>)
    requires job.Valid() && IsInit(job, s) && Run(job, s, evs)
    ensures AnswersOnlyComplete(job, s, evs) <==> CleanRun(job, s, evs)
    ensures job.size == Mtu256 ==> AnswersOnlyComplete(job, s, evs)
  {
    hide Inv, CleanRun, AnswersOnlyComplete, Run;
    InitInv(job, s);
    CleanRunIff(job, s, evs);
    if job.size == Mtu256 {
      SmallIsSound(job, s, evs);
    }
  }

  /**
   * With 256-byte packets, whatever the registers hold then and later: a retransmission that finds one worker missing
   * is recirculated, and dropped in its harvest pass.
   */
  lemma OneMissingIsDropped(regs: Registers, regs': Registers, p: Packet)
    requires p.md.size == Mtu256 && p.md.packetType == CONSUME0 && 2 <= |p.payload|
    requires !p.md.firstFlag && !p.md.lastFlag && !p.md.dupFlag
    requires p.md.worker in regs.At(p.md.setBit).members && regs.At(p.md.setBit).count == 1 && p.md.workers != 1
    ensures var outcome := ConsumePass(regs, p).outcome;
            && outcome.Recirculated? && outcome.pkt.md.packetType == HARVEST7
            && HarvestPass(regs', outcome.pkt).outcome == Dropped
  {
    hide Aggregated;
  }

  /** With 256-byte packets no packet reaches the row for a first packet that is not a retransmission. */
  lemma SmallRowUnreachable(job: Job, s: System, i: nat)
    requires Reachable(job, s) && job.size == Mtu256 && i < |s.harvest|
    ensures !(RebuiltFlag(s.harvest[i].pkt.md) == 0 && !s.harvest[i].pkt.md.dupFlag)
  {
    hide Inv, Below, BitOf, Verdict, Collected;
    ReachableInv(job, s);
    HarvestAt(job, s, i);
  }

  // ---------- broadcasts ----------

  /** The event sends a broadcast. */
  predicate Broadcasts(s: System, ev: Event) {
    && ev.Harvest? && ev.i < |s.harvest| && PipeOfPort(s.harvest[ev.i].pkt.port) < |s.pipes|
    && HarvestPass(s.pipes[PipeOfPort(s.harvest[ev.i].pkt.port)], s.harvest[ev.i].pkt).outcome.ToAll?
  }

  /** The event loses a packet that would have been broadcast. */
  predicate LosesBroadcast(s: System, ev: Event) {
    ev.LoseHarvest? && ev.i < |s.harvest| && IsBroadcastEntry(s.harvest[ev.i])
  }

  /** A harvest pass moves the packet on, or ends as the verdict says. */
  lemma HarvestEffect(job: Job, s: System, i: nat)
    requires Inv(job, s) && Enabled(job, s, Harvest(i))
    ensures var s', t := Next(job, s, Harvest(i)), s.harvest[i];
            && s'.hist.done == s.hist.done && s'.hist.contrib == s.hist.contrib
            && (Broadcasts(s, Harvest(i)) ==>
                && IsBroadcastEntry(t) && s.hist.replied <= t.round < s.hist.done && s'.hist.replied == t.round + 1)
            && (!Broadcasts(s, Harvest(i)) ==> s.hist.replied <= s'.hist.replied)
            && if t.pkt.md.packetType < HARVEST7 then
                 && !Broadcasts(s, Harvest(i))
                 && |s'.harvest| == |s.harvest| && s'.harvest == s.harvest[i := s'.harvest[i]]
                 && Verdict(s'.harvest[i].pkt.md) == Verdict(t.pkt.md)
               else
                 s'.harvest == Cut(s.harvest, i) && (Broadcasts(s, Harvest(i)) <==> IsBroadcastEntry(t))
  {
    hide Below, BitOf, Inv, Collected, HarvestPass, Verdict, Holds, Cut, HarvestedOnce, HarvestPort, HarvestPipe;
    hide LastReply;
    InvValid(job, s);
    HarvestAt(job, s, i);
    var t, h := s.harvest[i], s.hist;
    var pipe := PipeOfPort(t.pkt.port);
    if t.pkt.md.packetType < HARVEST7 {
      if LeavesInTime(t) {
        LeavingHolds(job, s, i, pipe);
      }
      HarvestStage(job, s.pipes[pipe], t, WithPart(job, s, t), h.done, h.replied);
      var u := t.(pkt := HarvestedOnce(s.pipes[pipe], t.pkt), parts := WithPart(job, s, t));
      assert Verdict(u.pkt.md) == Verdict(t.pkt.md) && Next(job, s, Harvest(i)).harvest == s.harvest[i := u];
    } else {
      assert pipe == 0 by {
        LastPipe(t.pkt.md.packetType);
      }
      LastPass(job, s, i);
      HarvestLast(job, s.pipes[0], t);
    }
  }

  lemma LastPipe(t: PacketType)
    requires t == HARVEST7
    ensures HarvestPipe(t) == 0
  {
  }

  /** The rounds of the broadcasts sent in a run, in order. */
  ghost function BroadcastRounds(job: Job, s: System, evs: seq<Event>): seq<nat>
    requires Run(job, s, evs)
    decreases |evs|
  {
    if evs == [] then [] else
      (if Broadcasts(s, evs[0]) then [s.harvest[evs[0].i].round] else [])
      + BroadcastRounds(job, Next(job, s, evs[0]), evs[1..])
  }

  /** A round is complete before it is replied to, and neither bound ever goes back. */
  lemma BoundsGrow(job: Job, s: System, ev: Event)
    requires Inv(job, s) && Enabled(job, s, ev)
    ensures s.hist.done <= Next(job, s, ev).hist.done && s.hist.replied <= Next(job, s, ev).hist.replied
    ensures Broadcasts(s, ev) ==>
              && s.hist.replied <= s.harvest[ev.i].round < s.hist.done
              && Next(job, s, ev).hist.replied == s.harvest[ev.i].round + 1
  {
    hide Below, BitOf, Inv, ConsumePass, HarvestPass, Verdict, Send, AppendToAll, NoneYet;
    InvValid(job, s);
    if ev.Harvest? {
      HarvestEffect(job, s, ev.i);
    }
  }

  predicate StrictlyWithin(rounds: seq<nat>, from: nat, below: nat) {
    && (forall k | 0 <= k < |rounds| :: from <= rounds[k] < below)
    && (forall k, m | 0 <= k < m < |rounds| :: rounds[k] < rounds[m])
  }

  lemma RoundInFront(r: nat, rounds: seq<nat>, from: nat, below: nat)
    requires StrictlyWithin(rounds, r + 1, below) && from <= r < below
    ensures StrictlyWithin([r] + rounds, from, below)
  {
  }

  /** At most one broadcast is sent per round, the rounds are broadcast in order, and only complete ones are. */
  lemma {:induction false} BroadcastOnceInOrder(job: Job, s: System, evs: seq<Event>)
    requires Inv(job, s) && SoundRun(job, s, evs)
    ensures StrictlyWithin(BroadcastRounds(job, s, evs), s.hist.replied, After(job, s, evs).hist.done)
    ensures s.hist.done <= After(job, s, evs).hist.done
    decreases |evs|
  {
    hide Inv, Next, Enabled, HarvestPass, AcceptsEarly;
    if evs != [] {
      StepInv(job, s, evs[0]);
      BoundsGrow(job, s, evs[0]);
      var s1 := Next(job, s, evs[0]);
      BroadcastOnceInOrder(job, s1, evs[1..]);
      var rest, done := BroadcastRounds(job, s1, evs[1..]), After(job, s, evs).hist.done;
      if Broadcasts(s, evs[0]) {
        RoundInFront(s.harvest[evs[0].i].round, rest, s.hist.replied, done);
      } else {
        assert [] + rest == rest;
      }
    }
  }

  /** How many packets being harvested will be broadcast. */
  function Pending(q: seq<Tagged>): nat {
    if q == [] then 0 else Pending(q[..|q| - 1]) + if IsBroadcastEntry(q[|q| - 1]) then 1 else 0
  }

  lemma CutBeforeLast<T>(q: seq<T>, i: nat)
    requires i + 1 < |q|
    ensures |Cut(q, i)| == |q| - 1 && Cut(q, i)[|q| - 2] == q[|q| - 1]
    ensures Cut(q, i)[..|q| - 2] == Cut(q[..|q| - 1], i)
  {
  }

  lemma {:induction false} PendingCut(q: seq<Tagged>, i: nat)
    requires i < |q|
    ensures Pending(q) == Pending(Cut(q, i)) + if IsBroadcastEntry(q[i]) then 1 else 0
  {
    hide IsBroadcastEntry;
    var rest := q[..|q| - 1];
    if i == |q| - 1 {
      assert Cut(q, i) == rest;
    } else {
      hide Cut;
      CutBeforeLast(q, i);
      PendingCut(rest, i);
    }
  }

  lemma {:induction false} PendingReplaced(q: seq<Tagged>, i: nat, t: Tagged)
    requires i < |q| && Verdict(t.pkt.md) == Verdict(q[i].pkt.md)
    ensures Pending(q[i := t]) == Pending(q)
  {
    hide Verdict;
    var rest, q' := q[..|q| - 1], q[i := t];
    if i == |q| - 1 {
      assert q'[..|q| - 1] == rest;
    } else {
      PendingReplaced(rest, i, t);
      assert q'[..|q| - 1] == rest[i := t];
    }
  }

  function One(b: bool): nat {
    if b then 1 else 0
  }

  /** Each event conserves broadcasts: a round that completes adds one, which is then sent or lost. */
  lemma SmallStepConserves(job: Job, s: System, ev: Event)
    requires Inv(job, s) && Enabled(job, s, ev) && job.size == Mtu256
    ensures var s' := Next(job, s, ev);
            s'.hist.done + Pending(s.harvest) ==
            s.hist.done + Pending(s'.harvest) + One(Broadcasts(s, ev)) + One(LosesBroadcast(s, ev))
  {
    hide Below, BitOf, Inv, ConsumePass, HarvestPass, Verdict, Send, Pending;
    InvValid(job, s);
    match ev {
      case Harvest(i) =>
        HarvestEffect(job, s, i);
        PendingCut(s.harvest, i);
        if s.harvest[i].pkt.md.packetType < HARVEST7 {
          PendingReplaced(s.harvest, i, Next(job, s, ev).harvest[i]);
        }
      case LoseHarvest(i) => PendingCut(s.harvest, i);
      case Consume(j, w) => SmallConsumeConserves(job, s, w);
      case _ =>
    }
  }

  lemma SmallConsumeConserves(job: Job, s: System, w: nat)
    requires Inv(job, s) && Enabled(job, s, Consume(0, w)) && job.size == Mtu256
    ensures var s' := Next(job, s, Consume(0, w));
            s'.hist.done + Pending(s.harvest) == s.hist.done + Pending(s'.harvest)
  {
    hide Below, BitOf, Inv, Next, Verdict, ConsumePass, IsTooEarly;
    InvValid(job, s);
    var q, q' := s.harvest, Next(job, s, Consume(0, w)).harvest;
    if IsNew(job, s, 0, w) {
      NewPacket(job, s, 0, w);
      if IsCompleting(job, s, 0, w) {
        SmallCompletingIsBroadcast(job, s, w);
      }
    } else {
      OldPacket(job, s, 0, w);
    }
    assert |q'| == |q| + 1 ==> q'[..|q'| - 1] == q;
    assert |q'| == |q| ==> q' == q;
  }

  /** How many packets of the run would have been broadcast but were lost on the way. */
  ghost function LostBroadcasts(job: Job, s: System, evs: seq<Event>): nat
    requires Run(job, s, evs)
    decreases |evs|
  {
    if evs == [] then 0 else One(LosesBroadcast(s, evs[0])) + LostBroadcasts(job, Next(job, s, evs[0]), evs[1..])
  }

  /**
   * With 256-byte packets every complete round is accounted for: over any run, rounds completed are broadcasts
   * sent, plus broadcasts lost, plus broadcasts still on their way through the harvest pass.
   */
  lemma {:induction false} SmallConservesBroadcasts(job: Job, s: System, evs: seq<Event>)
    requires Inv(job, s) && Run(job, s, evs) && job.size == Mtu256
    ensures var s' := After(job, s, evs);
            s'.hist.done + Pending(s.harvest) ==
            s.hist.done + Pending(s'.harvest) + |BroadcastRounds(job, s, evs)| + LostBroadcasts(job, s, evs)
    decreases |evs|
  {
    hide Inv, Clean, Next, Enabled, Broadcasts, LosesBroadcast, Pending, AcceptsEarly;
    if evs != [] {
      SmallNeverEarly(job, s, evs[0]);
      StepInv(job, s, evs[0]);
      SmallStepConserves(job, s, evs[0]);
      SmallConservesBroadcasts(job, Next(job, s, evs[0]), evs[1..]);
    }
  }

  /** From the start of a job: each complete round was broadcast once, or lost on its way, or is on its way. */
  lemma RoundsAreBroadcast(job: Job, s: System, evs: seq<Event>)
    requires job.Valid() && IsInit(job, s) && Run(job, s, evs) && job.size == Mtu256
    ensures var s' := After(job, s, evs);
            && s'.hist.done == |BroadcastRounds(job, s, evs)| + LostBroadcasts(job, s, evs) + Pending(s'.harvest)
            && StrictlyWithin(BroadcastRounds(job, s, evs), 0, s'.hist.done)
  {
    hide Inv, SoundRun, CleanRun, Run, After, BroadcastRounds, LostBroadcasts, StrictlyWithin;
    InitInv(job, s);
    SmallIsSound(job, s, evs);
    SmallConservesBroadcasts(job, s, evs);
    BroadcastOnceInOrder(job, s, evs);
  }

  // ---------- who gets a reply ----------

  /**
   * The last pass of a broadcast puts one and the same reply on the link of every client, that of a retransmission puts
   * it on the link of its worker only, and no other pass puts anything anywhere.
   */
  lemma ReplyReaches(job: Job, s: System, i: nat) returns (r: TaggedReply)
    requires Inv(job, s) && Enabled(job, s, Harvest(i))
    ensures var s', t := Next(job, s, Harvest(i)), s.harvest[i];
            && s'.clients == s.clients && s'.links == s.links && |s'.down| == job.n
            && (forall w | 0 <= w < job.n ::
                  s'.down[w] == s.down[w] +
                                if t.pkt.md.packetType == HARVEST7 &&
                                   (IsBroadcastEntry(t) || (Leaves(t) && w == t.pkt.md.worker)) then [r] else [])
            && r.round == t.round && r.early == t.early && r.reply.setBit == t.pkt.md.setBit
            && (r.reply.kind == IsBroadcast <==> IsBroadcastEntry(t))
            && (t.pkt.md.packetType == HARVEST7 && LeavesInTime(t) ==> IsResult(job, r, t.round))
  {
    hide Below, BitOf, Inv, Collected, HarvestPass, Verdict, Holds, Cut, HarvestedOnce, HarvestPort, HarvestPipe;
    hide IsResult;
    InvValid(job, s);
    HarvestAt(job, s, i);
    var t, h := s.harvest[i], s.hist;
    var pipe := PipeOfPort(t.pkt.port);
    r := AsReply(LastReply(s.pipes[0].At(t.pkt.md.setBit), t), t.(parts := WithPart(job, s, t)));
    if t.pkt.md.packetType < HARVEST7 {
      if LeavesInTime(t) {
        LeavingHolds(job, s, i, pipe);
      }
      HarvestStage(job, s.pipes[pipe], t, WithPart(job, s, t), h.done, h.replied);
    } else {
      assert pipe == 0 by {
        LastPipe(t.pkt.md.packetType);
      }
      LastPass(job, s, i);
      HarvestLast(job, s.pipes[0], t);
      if LeavesInTime(t) {
        LeavesAsResult(job, s);
      }
    }
  }

  lemma LeavesAsResult(job: Job, s: System)
    requires Inv(job, s) && s.harvest != [] && s.harvest[0].pkt.md.packetType == HARVEST7 && LeavesInTime(s.harvest[0])
    ensures job.Valid() && Shape(job, s)
    ensures var t := s.harvest[0];
            var parts := WithPart(job, s, t);
            IsResult(job, AsReply(LastReply(s.pipes[0].At(t.pkt.md.setBit), t), t.(parts := parts)), t.round)
  {
    hide Below, BitOf, Inv, HarvestPass, Verdict, ReplyOk, IsResult, HarvestEntryOk, LastReply;
    InvValid(job, s);
    var t := s.harvest[0];
    var w := t.pkt.md.worker;
    HarvestAt(job, s, 0);
    HarvestLast(job, s.pipes[0], t);
    EndsWithReply(job, s);
    var r := AsReply(LastReply(s.pipes[0].At(t.pkt.md.setBit), t), t);
    assert ReplyOk(job, r, w, s.clients[w].chunk, t.round + 1);
    PartsDoNotMatter(job, r, WithPart(job, s, t), w, s.clients[w].chunk, t.round + 1);
    ReplyIsResult(job, r.(parts := WithPart(job, s, t)), w, s.clients[w].chunk, t.round + 1);
  }

  // ---------- the last 128 bytes of a retransmission ----------

  /**
   * The last slice of a reply is the full sum, unless the packet was a retransmission in the last pipe. Then it is the
   * worker's own data, and agrees with the sum exactly if the others add up to zero.
   */
  lemma RetransmittedTail(job: Job, s: System, w: nat, i: nat)
    requires Inv(job, s) && w < job.n && w < |s.down| && s.down[w] != [] && !s.down[w][0].early && i < 32
    ensures var t, last := s.down[w][0], 2 * job.Pipes() - 1;
            && |t.reply.payload| == last + 1
            && (t.reply.kind == IsBroadcast ==> !t.own)
            && (job.size == Mtu256 && t.reply.kind == IsRetransmit ==> t.own)
            && (t.own ==> t.reply.payload[last] == job.Own(w, t.round, last))
            && (t.reply.payload[last][i] == job.Sum(job.Workers(), t.round, 32 * last + i) % MODULUS
                <==> !t.own || job.Sum(job.Workers() - {w}, t.round, 32 * last + i) % MODULUS == 0)
  {
    hide Inv, Below, BitOf;
    InvValid(job, s);
    AcceptMeansOwnChunk(job, s, w);
    var t, last := s.down[w][0], 2 * job.Pipes() - 1;
    assert t.reply.payload[last] == Expected(job, w, t.round, t.own, 0 + last);
    OwnWordIff(job, w, t.round, last, i);
  }
}
