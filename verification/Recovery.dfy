/**
 * Losses never block a job: from every state of a sound run, timeouts lead to a state in which every worker has
 * received the result of its outstanding chunk. Nothing in flight has to be lost first, except answers that were too
 * early.
 */
module Recovery {
  import opened Jobs
  import opened SwitchTables
  import opened SwitchPass
  import opened PipeInvariant
  import opened Protocol
  import opened ProtocolInvariant
  import opened HarvestInvariant
  import opened ConsumeInvariant
  import opened ProtocolSafety
  import opened Replies
  import opened SlotReuse

  predicate NoLoss(evs: seq<Event>) {
    forall k | 0 <= k < |evs| :: !IsLoss(evs[k])
  }

  /** Some run without losses leads from s to s'. */
  ghost predicate Reaches(job: Job, s: System, s': System) {
    exists evs :: CleanRun(job, s, evs) && NoLoss(evs) && After(job, s, evs) == s'
  }

  lemma Stay(job: Job, s: System)
    requires Shape(job, s)
    ensures Reaches(job, s, s)
  {
    assert CleanRun(job, s, []) && NoLoss([]) && After(job, s, []) == s;
  }

  lemma Further(job: Job, s: System, s1: System, s2: System)
    requires Reaches(job, s, s1) && Reaches(job, s1, s2)
    ensures Reaches(job, s, s2)
  {
    hide Clean, Next, Enabled, Shape;
    var a :| CleanRun(job, s, a) && NoLoss(a) && After(job, s, a) == s1;
    var b :| CleanRun(job, s1, b) && NoLoss(b) && After(job, s1, b) == s2;
    Concatenated(job, s, a, b);
    assert NoLoss(a + b);
  }

  /** The invariant holds and no answer that was too early is on its way. */
  ghost predicate Good(job: Job, s: System) {
    Inv(job, s) && NoneEarly(s)
  }

  /** One more event, which keeps the invariant. */
  lemma Move(job: Job, s: System, ev: Event)
    requires Good(job, s) && Enabled(job, s, ev) && Clean(job, s, ev) && !IsLoss(ev)
    ensures Good(job, Next(job, s, ev)) && Reaches(job, s, Next(job, s, ev))
  {
    hide Inv, NoneEarly, Clean, Next, Enabled, AcceptsEarly;
    CleanStep(job, s, ev);
    StepInv(job, s, ev);
    InvValid(job, s);
    InvValid(job, Next(job, s, ev));
    OneEvent(job, s, ev);
    assert CleanRun(job, s, [ev]) && NoLoss([ev]) && After(job, s, [ev]) == Next(job, s, ev);
  }

  // ---------- single consume passes ----------

  /** Clients, replies and history are as they were. */
  predicate SameExceptQueues(s: System, s': System) {
    s'.clients == s.clients && s'.hist == s.hist
  }

  ghost predicate HasRound(q: seq<Tagged>, r: nat) {
    exists i :: 0 <= i < |q| && q[i].round == r
  }

  /**
   * Everything on link (j, w) has been counted in pipe j before, and pipe j will pass it on: either the worker is
   * one round behind, or it has been counted, and in pipe 0 everybody else has, too.
   */
  ghost predicate PassesOn(job: Job, s: System, j: nat, w: nat)
    requires Shape(job, s) && j < job.Pipes() && w < job.n
  {
    s.clients[w].chunk + 1 == s.hist.done || (w in s.hist.contrib[j] && (j == 0 ==> s.hist.contrib[0] == job.Workers()))
  }

  /** A worker that is one round behind has only packets of its own chunk on its links and is counted nowhere. */
  lemma BehindMeansOld(job: Job, s: System, j: nat, w: nat)
    requires Inv(job, s) && Enabled(job, s, Consume(j, w)) && s.clients[w].chunk + 1 == s.hist.done
    ensures s.links[Hop(j, w)][0].round == s.clients[w].chunk && w !in s.hist.contrib[j]
  {
    hide Inv, Below, BitOf, PipeOk, Carries;
    Head(job, s, j, w);
    if s.links[Hop(j, w)][0].round == s.hist.done {
      Outstanding(job, s, j, w);
    }
    if w in s.hist.contrib[j] {
      InvContrib(job, s);
      CountedMeansOutstanding(job, s, j, w);
    }
  }

  lemma InvContrib(job: Job, s: System)
    requires Inv(job, s)
    ensures job.Valid() && Shape(job, s) && ContribOk(job, s.clients, s.hist)
  {
    hide Below, BitOf, LinksOk, DownsOk, HarvestOk, PipesOk, ContribOk, ClientsOk;
  }

  lemma PortOfNext(j: nat, w: nat)
    requires j < 3
    ensures ParsedAsRecirculated(128 * (j + 1) + 4 * (w % 16)) && PipeOfPort(128 * (j + 1) + 4 * (w % 16)) == j + 1
  {
  }

  /** The state after a consume pass that recirculates its packet to the next pipe. */
  lemma PassedOn(job: Job, s: System, j: nat, w: nat, p: Packet)
    requires job.Valid() && Shape(job, s) && Enabled(job, s, Consume(j, w)) && j + 1 < job.Pipes()
    requires s.hist.contrib[job.Pipes() - 1] != job.Workers()
    requires ConsumePass(s.pipes[j], s.links[Hop(j, w)][0].pkt).outcome == Recirculated(p)
    requires p.port == 128 * (j + 1) + 4 * (w % 16) && p.md.worker == w && p.md.packetType as int == CONSUME0 + j + 1
    ensures var t, pass := s.links[Hop(j, w)][0], ConsumePass(s.pipes[j], s.links[Hop(j, w)][0].pkt);
            var links := s.links[Hop(j, w) := s.links[Hop(j, w)][1..]];
            Next(job, s, Consume(j, w)) ==
            s.(pipes := s.pipes[j := pass.regs],
               links := links[Hop(j + 1, w) := links[Hop(j + 1, w)] + [Passed(job, s, j, w, pass.dup, p)]],
               hist := Counted(s.hist, j, w, t.round))
  {
    hide ConsumePass, Below, ParsedAsRecirculated, PipeOfPort;
    PortOfNext(j, w);
  }

  /** A packet counted before is passed on to the next pipe. */
  lemma ForwardStep(job: Job, s: System, j: nat, w: nat)
    requires Inv(job, s) && Enabled(job, s, Consume(j, w)) && j + 1 < job.Pipes() && PassesOn(job, s, j, w)
    ensures var s', t := Next(job, s, Consume(j, w)), s.links[Hop(j, w)][0];
            && SameExceptQueues(s, s')
            && Hop(j, w) in s'.links && s'.links[Hop(j, w)] == s.links[Hop(j, w)][1..]
            && Hop(j + 1, w) in s'.links && HasRound(s'.links[Hop(j + 1, w)], t.round)
    ensures Clean(job, s, Consume(j, w))
  {
    hide Inv, Below, BitOf, PipeOk, Carries, NextStep, ConsumePass, Next;
    Head(job, s, j, w);
    var t, K := s.links[Hop(j, w)][0], s.hist.contrib[j];
    if s.clients[w].chunk + 1 == s.hist.done {
      BehindMeansOld(job, s, j, w);
    }
    ConsumeOld(job, j, s.pipes[j], s.hist.done, K, t.pkt, w, t.round);
    job.ContributorCount(K);
    var pass := ConsumePass(s.pipes[j], t.pkt);
    ConsumeRow(job, t.pkt, w, t.round, j, pass.flag, true);
    assert K + {w} == K || t.round != s.hist.done;
    assert s.hist.contrib[j := K] == s.hist.contrib;
    PassedOn(job, s, j, w, pass.outcome.pkt);
    var q := Next(job, s, Consume(j, w)).links[Hop(j + 1, w)];
    assert q[|q| - 1].round == t.round;
  }

  /** A packet of the previous round changes no register; out of the last pipe it becomes a reply to its worker. */
  lemma OldRoundStep(job: Job, s: System, j: nat, w: nat)
    requires Inv(job, s) && Enabled(job, s, Consume(j, w)) && s.links[Hop(j, w)][0].round + 1 == s.hist.done
    ensures var s', t := Next(job, s, Consume(j, w)), s.links[Hop(j, w)][0];
            && SameExceptQueues(s, s')
            && Hop(j, w) in s'.links && s'.links[Hop(j, w)] == s.links[Hop(j, w)][1..]
            && (j + 1 == job.Pipes() ==>
                |s'.harvest| == |s.harvest| + 1 && IsAnswer(s'.harvest[|s.harvest|], w, t.round))
    ensures Clean(job, s, Consume(j, w))
  {
    hide Inv, Below, BitOf, PipeOk, Carries, NextStep, ConsumePass, Verdict, HarvestPort, ParsedAsRecirculated;
    hide PipeOfPort, IsTooEarly, SeenOk;
    Head(job, s, j, w);
    EarlyByFlag(job, s, j, w, 0);
    var t, K := s.links[Hop(j, w)][0], s.hist.contrib[j];
    ConsumeOld(job, j, s.pipes[j], s.hist.done, K, t.pkt, w, t.round);
    var pass := ConsumePass(s.pipes[j], t.pkt);
    ConsumeRow(job, t.pkt, w, t.round, j, pass.flag, true);
    if j + 1 == job.Pipes() {
      FirstHarvestPort(job);
      VerdictByFlags(job, pass.outcome.pkt.md);
    } else {
      PassedOn(job, s, j, w, pass.outcome.pkt);
    }
  }

  /** A packet being harvested that will end as a reply to worker w for round r. */
  predicate IsAnswer(t: Tagged, w: nat, r: nat) {
    Leaves(t) && t.pkt.md.worker == w && t.round == r
  }

  /** A packet counted for the first time. */
  lemma NewStep(job: Job, s: System, j: nat, w: nat)
    requires Inv(job, s) && Enabled(job, s, Consume(j, w)) && IsNew(job, s, j, w)
    ensures var s' := Next(job, s, Consume(j, w));
            && s'.clients == s.clients
            && (if IsCompleting(job, s, j, w) then s'.hist.done == s.hist.done + 1
                else s'.hist == s.hist.(contrib := s.hist.contrib[j := s.hist.contrib[j] + {w}]))
            && (j + 1 == job.Pipes() ==> s'.links == s.links[Hop(j, w) := s.links[Hop(j, w)][1..]])
    ensures Clean(job, s, Consume(j, w))
  {
    hide Inv, Below, BitOf, PipeOk, Carries, NextStep, ConsumePass, Verdict, HarvestPort, ParsedAsRecirculated;
    hide PipeOfPort, IsTooEarly, SeenOk;
    Head(job, s, j, w);
    NewIsInTime(job, s, j, w);
    var t, K := s.links[Hop(j, w)][0], s.hist.contrib[j];
    var e0 := ConsumeNew(job, j, s.pipes[j], t.round, K, t.pkt, w);
    ConsumeRow(job, t.pkt, w, t.round, j, NewFlag(job, K), false);
  }

  // ---------- bringing a packet to a pipe ----------

  lemma {:induction false} Forward(job: Job, s: System, j: nat, w: nat, r: nat) returns (s': System)
    requires Good(job, s) && Shape(job, s) && j + 1 < job.Pipes() && w < job.n && PassesOn(job, s, j, w)
    requires HasRound(s.links[Hop(j, w)], r)
    ensures Good(job, s') && Reaches(job, s, s') && SameExceptQueues(s, s')
    ensures Hop(j + 1, w) in s'.links && HasRound(s'.links[Hop(j + 1, w)], r)
    decreases |s.links[Hop(j, w)]|
  {
    hide Inv, NoneEarly, Next, Clean, Below, Reaches;
    var ev, q := Consume(j, w), s.links[Hop(j, w)];
    ForwardStep(job, s, j, w);
    Move(job, s, ev);
    s' := Next(job, s, ev);
    if q[0].round != r {
      InvValid(job, s');
      var i :| 0 <= i < |q| && q[i].round == r;
      assert q[1..][i - 1].round == r;
      s' := Forward(job, s', j, w, r);
      Further(job, s, Next(job, s, ev), s');
    }
  }

  /** A timeout, and passes through all earlier pipes, bring the outstanding chunk to pipe j. */
  lemma {:induction false} Bring(job: Job, s: System, j: nat, w: nat) returns (s': System)
    requires Good(job, s) && Shape(job, s) && j < job.Pipes() && w < job.n
    requires forall i | 0 <= i < j :: PassesOn(job, s, i, w)
    ensures Good(job, s') && Reaches(job, s, s') && SameExceptQueues(s, s')
    ensures Hop(j, w) in s'.links && HasRound(s'.links[Hop(j, w)], s.clients[w].chunk)
  {
    hide Inv, NoneEarly, Below, Reaches, Send;
    if j == 0 {
      Move(job, s, Event.Retransmit(w));
      s' := Next(job, s, Event.Retransmit(w));
      var q := s'.links[Hop(0, w)];
      assert q[|q| - 1].round == s.clients[w].chunk;
    } else {
      var s1 := Bring(job, s, j - 1, w);
      InvValid(job, s1);
      assert PassesOn(job, s, j - 1, w);
      s' := Forward(job, s1, j - 1, w, s.clients[w].chunk);
      Further(job, s, s1, s');
    }
  }

  // ---------- completing a round ----------

  /** Pipe j counts worker w. */
  lemma {:induction false} CountUp(job: Job, s: System, j: nat, w: nat) returns (s': System)
    requires Good(job, s) && Shape(job, s) && j < job.Pipes() && w < job.n && w !in s.hist.contrib[j]
    requires HasRound(s.links[Hop(j, w)], s.hist.done)
    ensures Good(job, s') && Reaches(job, s, s') && s'.clients == s.clients
    ensures s'.hist.done == s.hist.done + 1 ||
            s'.hist == s.hist.(contrib := s.hist.contrib[j := s.hist.contrib[j] + {w}])
    decreases |s.links[Hop(j, w)]|
  {
    hide Inv, NoneEarly, Next, Clean, Below, Reaches;
    var ev, q := Consume(j, w), s.links[Hop(j, w)];
    HeadRound(job, s, j, w);
    if q[0].round == s.hist.done {
      NewStep(job, s, j, w);
      Move(job, s, ev);
      s' := Next(job, s, ev);
    } else {
      OldRoundStep(job, s, j, w);
      Move(job, s, ev);
      var s1 := Next(job, s, ev);
      InvValid(job, s1);
      var i :| 0 <= i < |q| && q[i].round == s.hist.done;
      assert q[1..][i - 1].round == s.hist.done;
      s' := CountUp(job, s1, j, w);
      Further(job, s, s1, s');
    }
  }

  lemma HeadRound(job: Job, s: System, j: nat, w: nat)
    requires Inv(job, s) && Enabled(job, s, Consume(j, w))
    ensures s.links[Hop(j, w)][0].round <= s.hist.done <= s.links[Hop(j, w)][0].round + 1
  {
    hide Inv, Below, BitOf, PipeOk, Carries;
    Head(job, s, j, w);
  }

  /** Every client has the round being collected outstanding, and all pipes before j have counted everybody. */
  ghost predicate ReadyFor(job: Job, s: System, j: nat) {
    && Shape(job, s) && j <= job.Pipes()
    && (forall w | 0 <= w < job.n :: s.clients[w].chunk == s.hist.done)
    && (forall i | 0 <= i < j :: s.hist.contrib[i] == job.Workers())
  }

  /** Pipe j counts everybody. If it is the last pipe, the round is then complete. */
  lemma {:induction false} FillStage(job: Job, s: System, j: nat) returns (s': System)
    requires Good(job, s) && ReadyFor(job, s, j) && j < job.Pipes()
    ensures Good(job, s') && Reaches(job, s, s') && s'.clients == s.clients
    ensures s'.hist.done == s.hist.done + 1 ||
            (s'.hist.done == s.hist.done && j + 1 < job.Pipes() && ReadyFor(job, s', j + 1))
    decreases job.Workers() - s.hist.contrib[j]
  {
    hide Inv, NoneEarly, Reaches, Below;
    InvStage(job, s, j);
    if forall w | w in job.Workers() :: w in s.hist.contrib[j] {
      assert s.hist.contrib[j] == job.Workers();
      Stay(job, s);
      s' := s;
    } else {
      var w :| w in job.Workers() && w !in s.hist.contrib[j];
      assert forall i | 0 <= i < j :: PassesOn(job, s, i, w);
      var s1 := Bring(job, s, j, w);
      InvValid(job, s1);
      var s2 := CountUp(job, s1, j, w);
      InvValid(job, s2);
      Further(job, s, s1, s2);
      s' := s2;
      if s2.hist.done == s.hist.done {
        s' := FillStage(job, s2, j);
        Further(job, s, s2, s');
      }
    }
  }

  lemma InvStage(job: Job, s: System, j: nat)
    requires Inv(job, s) && j < job.Pipes()
    ensures Shape(job, s) && s.hist.contrib[j] <= job.Workers()
    ensures s.hist.contrib[job.Pipes() - 1] != job.Workers()
  {
    hide Below, BitOf, LinksOk, DownsOk, HarvestOk, ClientsOk, ContribOk, Holds;
    assert PipeOk(job, j, s.pipes[j], s.hist.done, s.hist.contrib[j]);
  }

  lemma {:induction false} FillFrom(job: Job, s: System, j: nat) returns (s': System)
    requires Good(job, s) && ReadyFor(job, s, j) && j < job.Pipes()
    ensures Good(job, s') && Reaches(job, s, s') && s'.clients == s.clients && s'.hist.done == s.hist.done + 1
    decreases job.Pipes() - j
  {
    hide Inv, NoneEarly, Reaches, ReadyFor, Below;
    s' := FillStage(job, s, j);
    if s'.hist.done == s.hist.done {
      var s1 := s';
      s' := FillFrom(job, s1, j + 1);
      Further(job, s, s1, s');
    }
  }

  // ---------- answering a worker that is behind ----------

  /** One harvest pass of the oldest packet. */
  lemma HarvestHead(job: Job, s: System)
    requires Inv(job, s) && s.harvest != []
    ensures Shape(job, s)
    ensures var s', t := Next(job, s, Harvest(0)), s.harvest[0];
            && s'.clients == s.clients && s'.hist.done == s.hist.done
            && if t.pkt.md.packetType < HARVEST7 then
                 && |s'.harvest| == |s.harvest| && s'.harvest == s.harvest[0 := s'.harvest[0]]
                 && s'.harvest[0].pkt.md.packetType == t.pkt.md.packetType + 1
                 && (Leaves(t) ==> IsAnswer(s'.harvest[0], t.pkt.md.worker, t.round))
               else
                 && s'.harvest == s.harvest[1..]
                 && (Leaves(t) ==> HasReply(s', t.pkt.md.worker, t.round))
  {
    hide Below, BitOf, Inv, Collected, HarvestPass, Verdict, Holds, HarvestPort, HarvestPipe, LastReply;
    InvValid(job, s);
    HarvestAt(job, s, 0);
    var t, h := s.harvest[0], s.hist;
    var pipe := PipeOfPort(t.pkt.port);
    assert Cut(s.harvest, 0) == s.harvest[1..];
    if t.pkt.md.packetType < HARVEST7 {
      if LeavesInTime(t) {
        LeavingHolds(job, s, 0, pipe);
      }
      HarvestStage(job, s.pipes[pipe], t, WithPart(job, s, t), h.done, h.replied);
    } else {
      LastPipe(t.pkt.md.packetType);
      LastPass(job, s, 0);
      HarvestLast(job, s.pipes[0], t);
      var q := Next(job, s, Harvest(0)).down[t.pkt.md.worker];
      assert Leaves(t) ==> q[|q| - 1].round == t.round;
    }
  }

  ghost predicate HasReply(s: System, w: nat, r: nat) {
    w < |s.down| && exists k :: 0 <= k < |s.down[w]| && s.down[w][k].round == r
  }

  /** Harvesting in order, the i-th packet becomes a reply. */
  lemma {:induction false} Answer(job: Job, s: System, w: nat, r: nat, i: nat) returns (s': System)
    requires Good(job, s) && i < |s.harvest| && IsAnswer(s.harvest[i], w, r)
    ensures Good(job, s') && Reaches(job, s, s') && s'.clients == s.clients && s'.hist.done == s.hist.done
    ensures HasReply(s', w, r)
    decreases i, 16 - s.harvest[0].pkt.md.packetType
  {
    hide Inv, NoneEarly, Reaches, Below, Next, HasReply, Leaves;
    HarvestHead(job, s);
    Move(job, s, Harvest(0));
    var s1, t := Next(job, s, Harvest(0)), s.harvest[0];
    s' := s1;
    if t.pkt.md.packetType < HARVEST7 {
      s' := Answer(job, s1, w, r, i);
      Further(job, s, s1, s');
    } else if i != 0 {
      s' := Answer(job, s1, w, r, i - 1);
      Further(job, s, s1, s');
    }
  }

  /** Handling its replies in order, the client accepts the one for its outstanding chunk. */
  lemma {:induction false} Accept(job: Job, s: System, w: nat) returns (s': System)
    requires Good(job, s) && Shape(job, s) && w < job.n && HasReply(s, w, s.clients[w].chunk)
    ensures Good(job, s') && Reaches(job, s, s') && s'.hist.done == s.hist.done
    ensures |s'.clients| == |s.clients| && s'.clients[w].chunk == s.clients[w].chunk + 1
    ensures forall v | 0 <= v < |s.clients| && v != w :: s'.clients[v] == s.clients[v]
    decreases |s.down[w]|
  {
    hide Inv, Reaches, Below, Send, ReplyOk;
    assert !s.down[w][0].early;
    var q, r := s.down[w], s.clients[w].chunk;
    AcceptMeansOwnChunk(job, s, w);
    Move(job, s, Deliver(w));
    s' := Next(job, s, Deliver(w));
    if q[0].round != r {
      var s1 := s';
      InvValid(job, s1);
      var i :| 0 <= i < |q| && q[i].round == r;
      assert q[1..][i - 1].round == r;
      s' := Accept(job, s1, w);
      Further(job, s, s1, s');
    }
  }

  /** A worker that is one round behind gets its reply after a timeout. */
  lemma CatchUp(job: Job, s: System, w: nat) returns (s': System)
    requires Good(job, s) && Shape(job, s) && w < job.n && s.clients[w].chunk + 1 == s.hist.done
    ensures Good(job, s') && Reaches(job, s, s') && s'.hist.done == s.hist.done
    ensures |s'.clients| == |s.clients| && s'.clients[w].chunk == s.hist.done
    ensures forall v | 0 <= v < |s.clients| && v != w :: s'.clients[v] == s.clients[v]
  {
    hide Inv, NoneEarly, Reaches, Below, Next, Clean, HasReply, Leaves;
    var last := job.Pipes() - 1;
    var s1 := Bring(job, s, last, w);
    InvValid(job, s1);
    BehindMeansOld(job, s1, last, w);
    OldRoundStep(job, s1, last, w);
    Move(job, s1, Consume(last, w));
    var s2 := Next(job, s1, Consume(last, w));
    Further(job, s, s1, s2);
    var s3 := Answer(job, s2, w, s.clients[w].chunk, |s1.harvest|);
    Further(job, s, s2, s3);
    InvValid(job, s3);
    s' := Accept(job, s3, w);
    Further(job, s, s3, s');
  }

  /** Everybody below k catches up with the round being collected. */
  lemma {:induction false} CatchUpAll(job: Job, s: System, k: nat) returns (s': System)
    requires Good(job, s) && Shape(job, s) && k <= job.n
    ensures Good(job, s') && Shape(job, s') && Reaches(job, s, s') && s'.hist.done == s.hist.done
    ensures forall w | 0 <= w < k :: s'.clients[w].chunk == s.hist.done
  {
    hide Inv, NoneEarly, Reaches, Below;
    if k == 0 {
      Stay(job, s);
      s' := s;
    } else {
      s' := CatchUpAll(job, s, k - 1);
      InvClients(job, s');
      assert ClientOk(s'.clients[k - 1], s'.hist);
      if s'.clients[k - 1].chunk != s.hist.done {
        var s1 := s';
        s' := CatchUp(job, s1, k - 1);
        InvValid(job, s');
        Further(job, s, s1, s');
      }
    }
  }

  // ---------- answers that are too early ----------

  lemma LoseFirst(job: Job, s: System, ev: Event, evs: seq<Event>)
    requires Inv(job, s) && Enabled(job, s, ev) && Run(job, Next(job, s, ev), evs)
    requires LosesEarly(s, ev)
    requires SoundRun(job, Next(job, s, ev), evs) && LosesOnlyEarly(job, Next(job, s, ev), evs)
    ensures SoundRun(job, s, [ev] + evs) && LosesOnlyEarly(job, s, [ev] + evs)
    ensures After(job, s, [ev] + evs) == After(job, Next(job, s, ev), evs)
  {
    hide Inv, Next, Enabled;
    InvValid(job, s);
    OneEvent(job, s, ev);
    Concatenated(job, s, [ev], evs);
  }

  predicate QueuesNoneEarly(s: System) {
    forall i | 0 <= i < |s.harvest| :: !s.harvest[i].early
  }

  predicate LinksNoneEarly(s: System, k: nat) {
    forall w, i | 0 <= w < k && w < |s.down| && 0 <= i < |s.down[w]| :: !s.down[w][i].early
  }

  /** Lose the early answers among the packets being harvested. */
  lemma {:induction false} LoseHarvested(job: Job, s: System) returns (evs: seq<Event>)
    requires Inv(job, s)
    ensures SoundRun(job, s, evs) && LosesOnlyEarly(job, s, evs) && (QueuesNoneEarly(s) ==> evs == [])
    ensures var s' := After(job, s, evs);
            Inv(job, s') && SameExceptQueues(s, s') && s'.down == s.down && QueuesNoneEarly(s')
    decreases |s.harvest|
  {
    hide Inv;
    InvValid(job, s);
    if QueuesNoneEarly(s) {
      evs := [];
    } else {
      var i: nat :| i < |s.harvest| && s.harvest[i].early;
      var ev := LoseHarvest(i);
      StepInv(job, s, ev);
      var rest := LoseHarvested(job, Next(job, s, ev));
      LoseFirst(job, s, ev, rest);
      evs := [ev] + rest;
    }
  }

  /** Lose the early answers on the first k reply links. */
  lemma {:induction false} LoseReplies(job: Job, s: System, k: nat) returns (evs: seq<Event>)
    requires Inv(job, s) && Shape(job, s) && QueuesNoneEarly(s) && k <= job.n
    requires LinksNoneEarly(s, if k == 0 then 0 else k - 1)
    ensures SoundRun(job, s, evs) && LosesOnlyEarly(job, s, evs) && (LinksNoneEarly(s, k) ==> evs == [])
    ensures var s' := After(job, s, evs);
            Inv(job, s') && SameExceptQueues(s, s') && QueuesNoneEarly(s') && LinksNoneEarly(s', k)
            && forall w | k <= w < job.n :: s'.down[w] == s.down[w]
    decreases if k == 0 then 0 else |s.down[k - 1]|
  {
    hide Inv;
    InvValid(job, s);
    if LinksNoneEarly(s, k) {
      evs := [];
    } else {
      var i: nat :| i < |s.down[k - 1]| && s.down[k - 1][i].early;
      var ev := LoseReply(k - 1, i);
      StepInv(job, s, ev);
      InvValid(job, Next(job, s, ev));
      var rest := LoseReplies(job, Next(job, s, ev), k);
      LoseFirst(job, s, ev, rest);
      evs := [ev] + rest;
    }
  }

  lemma {:induction false} LoseAll(job: Job, s: System, k: nat) returns (evs: seq<Event>)
    requires Inv(job, s) && Shape(job, s) && k <= job.n
    ensures SoundRun(job, s, evs) && LosesOnlyEarly(job, s, evs)
    ensures (QueuesNoneEarly(s) && LinksNoneEarly(s, k) ==> evs == [])
    ensures var s' := After(job, s, evs);
            Inv(job, s') && SameExceptQueues(s, s') && QueuesNoneEarly(s') && LinksNoneEarly(s', k)
            && forall w | k <= w < job.n :: s'.down[w] == s.down[w]
  {
    hide Inv, LosesOnlyEarly, AcceptsEarly;
    if k == 0 {
      evs := LoseHarvested(job, s);
    } else {
      var a := LoseAll(job, s, k - 1);
      var b := LoseReplies(job, After(job, s, a), k);
      Concatenated(job, s, a, b);
      evs := a + b;
    }
  }

  /**
   * From every state of a sound run there is a continuation in which every client receives the result of its
   * outstanding chunk, and of every chunk up to the round being collected. After the loss of the answers that were too
   * early, if there are any on their way, it needs no further loss, and never queues an answer too early.
   */
  lemma Recovers(job: Job, s: System) returns (losses: seq<Event>, evs: seq<Event>)
    requires Reachable(job, s)
    ensures Shape(job, s) && SoundRun(job, s, losses) && LosesOnlyEarly(job, s, losses)
    ensures (NoneEarly(s) ==> losses == [])
    ensures var s1 := After(job, s, losses);
            && CleanRun(job, s1, evs) && SoundRun(job, s1, evs) && NoLoss(evs)
            && forall w | 0 <= w < job.n :: s.clients[w].chunk < After(job, s1, evs).clients[w].chunk == s.hist.done + 1
  {
    hide Inv, Below, Clean, Next, Enabled, AcceptsEarly, LosesOnlyEarly;
    ReachableInv(job, s);
    InvValid(job, s);
    InvClients(job, s);
    losses := LoseAll(job, s, job.n);
    var s0 := After(job, s, losses);
    var s1 := CatchUpAll(job, s0, job.n);
    var s2 := FillFrom(job, s1, 0);
    Further(job, s0, s1, s2);
    InvValid(job, s2);
    var s3 := CatchUpAll(job, s2, job.n);
    Further(job, s0, s2, s3);
    evs :| CleanRun(job, s0, evs) && NoLoss(evs) && After(job, s0, evs) == s3;
    CleanIsSound(job, s0, evs);
    assert forall w | 0 <= w < job.n :: ClientOk(s.clients[w], s.hist);
  }
}
