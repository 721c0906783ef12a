/**
 * What a client that accepts an answer too early leads to. It goes on to its next chunk, which takes it out of the
 * bitmaps of the sets that the other worker has still to complete. The other worker's late packet finds these sets
 * empty, overwrites what was there, and counts as the last one: an incomplete sum is broadcast.
 */
module WrongBroadcasts {
  import opened Jobs
  import opened SwitchTables
  import opened SwitchPass
  import opened PipeInvariant
  import opened Protocol
  import opened ProtocolInvariant
  import opened ConsumeInvariant
  import opened ProtocolSafety
  import opened Replies
  import opened SlotReuse
  import opened Recovery
  import opened Scenarios

  /**
   * The slot's registers in pipe j: before worker 0's chunk 1 (phase 0), after it (phase 1), and after worker 1's late
   * chunk 0 as well (phase 2). Worker 1 has been in pipe 0 in time.
   */
  ghost predicate RegsOk(job: Job, j: nat, regs: Registers, phase: nat) {
    var even, odd := regs.even, regs.odd;
    && (phase == 0 ==> odd.members == {} && odd.count == 0)
    && if j == 0 then even.d0 == job.Full(0, 0) && even.d1 == job.Full(0, 1)
       else if phase == 0 then even.members == {0} && even.count == 1
       else if phase == 1 then even.members == {} && even.count == 1
       else even.d0 == job.Own(1, 0, 2 * j) && even.d1 == job.Own(1, 0, 2 * j + 1)
  }

  /** Worker 0's next chunk is new everywhere; the rest of the slot only loses worker 0 from its other bitmap. */
  lemma NextChunk(job: Job, j: nat, regs: Registers, p: Packet)
    requires job.Valid() && job.n == 2 && job.size == Mtu1024 && j < 4 && RegsOk(job, j, regs, 0)
    requires Carries(job, p, 0, 1, j)
    ensures var pass := ConsumePass(regs, p);
            && RegsOk(job, j, pass.regs, 1)
            && (j == 3 ==> pass.outcome == Dropped)
            && (j < 3 ==>
                && pass.outcome.Recirculated? && Carries(job, pass.outcome.pkt, 0, 1, j + 1)
                && pass.outcome.pkt.port == 128 * (j + 1) + 4 * (0 % 16))
  {
    hide NextStep, ConsumePass, Below;
    ConsumeEffect(regs, p);
    ConsumeRow(job, p, 0, 1, j, 0, false);
    if j < 3 {
      ForwardCarries(job, p, 0, 1, j, ConsumePass(regs, p).outcome.pkt);
    }
  }

  /** Worker 1's late chunk overwrites the set, and sees the last flag. */
  lemma LateChunk(job: Job, j: nat, regs: Registers, p: Packet)
    requires job.Valid() && job.n == 2 && job.size == Mtu1024 && 1 <= j < 4 && RegsOk(job, j, regs, 1)
    requires Carries(job, p, 1, 0, j) && !p.md.firstFlag && !p.md.dupFlag
    ensures var pass := ConsumePass(regs, p);
            && RegsOk(job, j, pass.regs, 2) && pass.outcome.Recirculated? && !pass.dup
            && !pass.outcome.pkt.md.firstFlag && !pass.outcome.pkt.md.dupFlag && pass.outcome.pkt.md.lastFlag
            && (j < 3 ==>
                Carries(job, pass.outcome.pkt, 1, 0, j + 1) && pass.outcome.pkt.port == 128 * (j + 1) + 4 * (1 % 16))
            && (j == 3 ==>
                pass.outcome.pkt == Queued(job, MetadataAfter(p, pass.regs.even.e0, 1, false), job.Own(1, 0, 7), []))
  {
    hide NextStep, ConsumePass, Below;
    ConsumeEffect(regs, p);
    ConsumeRow(job, p, 1, 0, j, 1, false);
    if j < 3 {
      ForwardCarries(job, p, 1, 0, j, ConsumePass(regs, p).outcome.pkt);
    } else {
      assert p.payload[2..] == [];
      FirstHarvestPort(job);
    }
  }

  predicate Alone(q: seq<Tagged>, present: bool, round: nat) {
    if present then |q| == 1 && q[0].round == round else q == []
  }

  /** Worker 0's chunk 1 waits for pipe a, and worker 1's chunk 0 for pipe b. */
  ghost predicate Late(job: Job, s: System, a: nat, b: nat) {
    && job.Valid() && job.n == 2 && job.size == Mtu1024 && Shape(job, s)
    && s.hist.done == 0 && s.hist.contrib[3] == {0} && s.harvest == []
    && s.clients[1] == Client(0, 0) && s.down[1] == []
    && (forall j | 0 <= j < 4 :: RegsOk(job, j, s.pipes[j], if 1 <= j < b then 2 else if j < a then 1 else 0))
    && (forall j | 0 <= j < 4 :: Alone(s.links[Hop(j, 0)], j == a, 1) && Alone(s.links[Hop(j, 1)], j == b, 0))
    && (a < 4 ==> Carries(job, s.links[Hop(a, 0)][0].pkt, 0, 1, a))
    && (b < 4 ==> Carries(job, s.links[Hop(b, 1)][0].pkt, 1, 0, b)
                  && !s.links[Hop(b, 1)][0].pkt.md.firstFlag && !s.links[Hop(b, 1)][0].pkt.md.dupFlag)
  }

  lemma NotEverybody(job: Job)
    requires job.n == 2
    ensures job.Workers() != {0}
  {
    assert 1 in job.Workers();
  }

  lemma StepNext(job: Job, s: System, a: nat) returns (s': System)
    requires Late(job, s, a, 1) && a < 3
    ensures Late(job, s', a + 1, 1) && Goes(job, s, s')
  {
    hide RegsOk, Carries, ConsumePass, Goes, Next, Below;
    assert Alone(s.links[Hop(a, 0)], true, 1) && Alone(s.links[Hop(a + 1, 0)], false, 1);
    var p := s.links[Hop(a, 0)][0].pkt;
    NextChunk(job, a, s.pipes[a], p);
    var p' := ConsumePass(s.pipes[a], p).outcome.pkt;
    CarriesFields(job, p', 0, 1, a + 1);
    NotEverybody(job);
    PassedOn(job, s, a, 0, p');
    s' := Next(job, s, Consume(a, 0));
    GoesStep(job, s, Consume(a, 0));
  }

  lemma CarriesFields(job: Job, p: Packet, w: nat, r: nat, j: nat)
    requires Carries(job, p, w, r, j)
    ensures p.md.worker == w && p.md.packetType as int == CONSUME0 + j && p.md.setBit == BitOf(r)
    ensures p.md.size == job.size
    ensures p.md.workerType == job.workerType
  {
  }

  lemma StepNextEnds(job: Job, s: System) returns (s': System)
    requires Late(job, s, 3, 1)
    ensures Late(job, s', 4, 1) && Goes(job, s, s')
  {
    hide RegsOk, Carries, ConsumePass, Goes, Below;
    assert Alone(s.links[Hop(3, 0)], true, 1);
    var p := s.links[Hop(3, 0)][0].pkt;
    NextChunk(job, 3, s.pipes[3], p);
    NotEverybody(job);
    s' := Next(job, s, Consume(3, 0));
    GoesStep(job, s, Consume(3, 0));
  }

  lemma StepLate(job: Job, s: System, b: nat) returns (s': System)
    requires Late(job, s, 4, b) && 1 <= b < 3
    ensures Late(job, s', 4, b + 1) && Goes(job, s, s')
  {
    hide RegsOk, Carries, ConsumePass, Goes, Next, Below;
    assert Alone(s.links[Hop(b, 1)], true, 0) && Alone(s.links[Hop(b + 1, 1)], false, 0);
    var p := s.links[Hop(b, 1)][0].pkt;
    LateChunk(job, b, s.pipes[b], p);
    var p' := ConsumePass(s.pipes[b], p).outcome.pkt;
    CarriesFields(job, p', 1, 0, b + 1);
    NotEverybody(job);
    PassedOn(job, s, b, 1, p');
    s' := Next(job, s, Consume(b, 1));
    GoesStep(job, s, Consume(b, 1));
  }

  /** In the last pipe the late packet is taken for the one that completes the round. */
  lemma StepLateEnds(job: Job, s: System) returns (s': System, u: Tagged)
    requires Late(job, s, 4, 3)
    ensures Goes(job, s, s') && Harvesting(job, s', u) && Starts(job, u, 1) && IsBroadcastEntry(u)
    ensures u.pkt.payload == [job.Own(1, 0, 7)] && u.pkt.md.setBit == 0
    ensures s'.clients[1] == Client(0, 0) && s'.down[1] == []
    ensures forall j | 0 <= j < 4 :: RegsOk(job, j, s'.pipes[j], if j == 0 then 1 else 2)
  {
    hide RegsOk, Carries, ConsumePass, Goes, Below, Verdict, IsTooEarly;
    assert Alone(s.links[Hop(3, 1)], true, 0);
    var t := s.links[Hop(3, 1)][0];
    LateChunk(job, 3, s.pipes[3], t.pkt);
    var pass := ConsumePass(s.pipes[3], t.pkt);
    CarriesFields(job, t.pkt, 1, 0, 3);
    FirstHarvestPort(job);
    VerdictByFlags(job, pass.outcome.pkt.md);
    s' := Next(job, s, Consume(3, 1));
    u := s'.harvest[0];
    GoesStep(job, s, Consume(3, 1));
    assert u.pkt == pass.outcome.pkt;
  }

  // ---------- from the start of a job ----------

  /** The registers of the run that ends in Scenarios.AnswerTooEarly. */
  lemma RegsBefore(job: Job, s: System, j: nat)
    requires Inv(job, s) && job.n == 2 && job.size == Mtu1024 && j < 4 && s.hist.done == 0
    requires s.hist.contrib == [{0, 1}, {0}, {0}, {0}]
    ensures Shape(job, s) && RegsOk(job, j, s.pipes[j], 0)
  {
    hide Inv, Below;
    PipeAt(job, s, j);
    Pair(job);
    var one: set<nat> := {0};
    assert |one| == 1;
    assert BitOf(0) == 0;
  }

  lemma LinkBefore(job: Job, s: System)
    requires Inv(job, s) && job.n == 2 && job.size == Mtu1024 && Shape(job, s)
    requires OnLink(s.links[Hop(1, 1)], true, Mark(false, false, {0, 1}))
    ensures Carries(job, s.links[Hop(1, 1)][0].pkt, 1, 0, 1)
  {
    hide Inv, Carries;
    HeadCarries(job, s, 1, 1);
  }

  /** Client 0 accepts the answer and posts its next chunk. */
  lemma AcceptsAndGoesOn(job: Job, s1: System, s: System, r: TaggedReply)
    requires job.Valid() && job.n == 2 && job.size == Mtu1024 && Inv(job, s1) && Shape(job, s)
    requires s1.hist.done == 0 && s1.hist.contrib == [{0, 1}, {0}, {0}, {0}]
    requires s.hist.done == 0 && s.hist.contrib == s1.hist.contrib
    requires s.pipes == s1.pipes && s.links == s1.links && s.harvest == [] && s.clients == [Client(0, 0), Client(0, 0)]
    requires s.down == [[r], []] && r.reply.setBit == 0
    requires forall j, w | 0 <= j < 4 && 0 <= w < 2 ::
               OnLink(s1.links[Hop(j, w)], w == 1 && j == 1, Mark(false, false, {0, 1}))
    ensures Enabled(job, s, Deliver(0)) && Late(job, Next(job, s, Deliver(0)), 0, 1)
  {
    hide Inv, RegsOk, Carries, Send, Below;
    forall j | 0 <= j < 4
      ensures RegsOk(job, j, s.pipes[j], 0)
    {
      RegsBefore(job, s1, j);
    }
    assert OnLink(s1.links[Hop(1, 1)], true, Mark(false, false, {0, 1}));
    InvValid(job, s1);
    LinkBefore(job, s1);
    assert BitOf(1) == 1;
    SendCarries(job, 0, Client(1, 1));
    var s' := Next(job, s, Deliver(0));
    forall j | 0 <= j < 4
      ensures Alone(s'.links[Hop(j, 0)], j == 0, 1) && Alone(s'.links[Hop(j, 1)], j == 1, 0)
    {
      assert OnLink(s1.links[Hop(j, 0)], false, Mark(false, false, {0, 1}));
      assert OnLink(s1.links[Hop(j, 1)], j == 1, Mark(false, false, {0, 1}));
    }
  }

  lemma LatePackets(job: Job, s: System) returns (s': System, r: TaggedReply)
    requires Late(job, s, 0, 1)
    ensures Goes(job, s, s') && Shape(job, s')
    ensures s'.clients[1] == Client(0, 0) && s'.down[1] == [r] && r.reply.kind == IsBroadcast && r.reply.setBit == 0
    ensures |r.reply.payload| == 8 && forall k | 2 <= k < 8 :: r.reply.payload[k] == job.Own(1, 0, k)
  {
    hide Goes, Late, Verdict;
    var s1 := StepNext(job, s, 0);
    var s2 := StepNext(job, s1, 1);
    GoesOn(job, s, s1, s2);
    var s3 := StepNext(job, s2, 2);
    GoesOn(job, s, s2, s3);
    var s4 := StepNextEnds(job, s3);
    GoesOn(job, s, s3, s4);
    var s5 := StepLate(job, s4, 1);
    GoesOn(job, s, s4, s5);
    var s6 := StepLate(job, s5, 2);
    GoesOn(job, s, s5, s6);
    LateIsValid(job, s6, 4, 3);
    var s7, u := StepLateEnds(job, s6);
    GoesOn(job, s, s6, s7);
    s', r := HarvestAll(job, s7, u);
    GoesOn(job, s, s7, s');
    forall k | 2 <= k < 7
      ensures r.reply.payload[k] == job.Own(1, 0, k)
    {
      OwnSlice(job, s7.pipes, k);
    }
  }

  lemma LateIsValid(job: Job, s: System, a: nat, b: nat)
    requires Late(job, s, a, b)
    ensures job.Valid() && job.n == 2
  {
  }

  lemma OwnSlice(job: Job, pipes: seq<Registers>, k: nat)
    requires 2 <= k < 8 && |pipes| == 4 && RegsOk(job, k / 2, pipes[k / 2], 2)
    ensures SliceOf(pipes, 0, k) == job.Own(1, 0, k)
  {
    assert k == 2 * (k / 2) + k % 2;
  }

  /**
   * In every 1024-byte job of two workers, a run without losses in which client 0 accepts an answer too early leads
   * to a broadcast that client 1 accepts, and that has only worker 1's own contribution in slices 2 to 7: it is wrong
   * if worker 0 contributes anything to them.
   */
  lemma WrongBroadcastAccepted(job: Job, s: System, k: nat, i: nat) returns (evs: seq<Event>)
    requires job.Valid() && job.n == 2 && job.size == Mtu1024 && IsInit(job, s)
    requires 2 <= k < 8 && i < 32 && job.word(0, 0, 32 * k + i) != 0
    ensures Run(job, s, evs) && NoLoss(evs)
    ensures var s' := After(job, s, evs);
            && Enabled(job, s', Deliver(1)) && Accepts(s', Deliver(1), 1) && s'.clients[1].chunk == 0
            && s'.down[1][0].reply.kind == IsBroadcast && !HasSums(job, s'.down[1][0].reply, 0)
  {
    hide Goes, IsInit, Late, Next, Inv, HasSums;
    var s1, s2, r := AnswerTooEarly(job, s);
    var a := Evidence(job, s, s2);
    AcceptsAndGoesOn(job, s1, s2, r);
    var s3 := Next(job, s2, Deliver(0));
    var s4, r' := LatePackets(job, s3);
    var b := Evidence(job, s3, s4);
    var mid := [Deliver(0)];
    LateShape(job, s3, 0, 1);
    OneEvent(job, s2, Deliver(0));
    Concatenated(job, s, a, mid);
    Concatenated(job, s, a + mid, b);
    evs := a + mid + b;
    NotTheSum(job, r'.reply, k, i);
  }

  lemma LateShape(job: Job, s: System, a: nat, b: nat)
    requires Late(job, s, a, b)
    ensures Shape(job, s)
  {
  }

  lemma NotTheSum(job: Job, reply: Reply, k: nat, i: nat)
    requires job.n == 2 && job.size == Mtu1024 && reply.kind == IsBroadcast && |reply.payload| == 8 && 2 <= k < 8
    requires i < 32
    requires reply.payload[k] == job.Own(1, 0, k) && job.word(0, 0, 32 * k + i) != 0
    ensures !HasSums(job, reply, 0)
  {
    Pair(job);
    var x, y: nat := job.word(0, 0, 32 * k + i), job.word(1, 0, 32 * k + i);
    assert job.SumBelow(job.Workers(), 0, 32 * k + i, 0) == 0;
    assert job.SumBelow(job.Workers(), 0, 32 * k + i, 1) == x;
    assert job.Sum(job.Workers(), 0, 32 * k + i) == x + y;
    assert reply.payload[k][i] == y;
    AddsNothing(x, y);
  }
}
