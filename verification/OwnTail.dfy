/** A run with 256-byte packets that ends with a reply whose last slice is the worker's own data. */
module OwnTails {
  import opened Words
  import opened Jobs
  import opened SwitchTables
  import opened SwitchPass
  import opened PipeInvariant
  import opened Protocol
  import opened ProtocolInvariant
  import opened HarvestInvariant
  import opened ProtocolSafety
  import opened Replies
  import opened Recovery
  import opened Scenarios

  /** Both workers' packets arrive, and the broadcast of the complete round is lost. */
  const TO_LOSS: seq<Event> := [Consume(0, 0), Consume(0, 1), LoseHarvest(0)]

  /** Worker 0's timer fires, and its packet is answered. */
  const TO_ANSWER: seq<Event> := [Event.Retransmit(0), Consume(0, 0), Harvest(0)]

  lemma ThreeEvents(job: Job, s: System, a: Event, b: Event, c: Event)
    requires Shape(job, s) && Enabled(job, s, a)
    requires Shape(job, Next(job, s, a)) && Enabled(job, Next(job, s, a), b)
    requires Shape(job, Next(job, Next(job, s, a), b)) && Enabled(job, Next(job, Next(job, s, a), b), c)
    requires Shape(job, Next(job, Next(job, Next(job, s, a), b), c))
    ensures Run(job, s, [a, b, c]) && After(job, s, [a, b, c]) == Next(job, Next(job, Next(job, s, a), b), c)
  {
    hide Shape, Next, Enabled, Run, After;
    OneEvent(job, s, a);
    OneEvent(job, Next(job, s, a), b);
    OneEvent(job, Next(job, Next(job, s, a), b), c);
    Concatenated(job, s, [a], [b]);
    Concatenated(job, s, [a] + [b], [c]);
    assert [a] + [b] + [c] == [a, b, c];
  }

  /** An event of a 256-byte job keeps the invariant. */
  lemma SmallStep(job: Job, s: System, ev: Event)
    requires Inv(job, s) && job.size == Mtu256 && Enabled(job, s, ev)
    ensures Inv(job, Next(job, s, ev)) && Shape(job, Next(job, s, ev))
  {
    hide Inv, AcceptsEarly, Next, Enabled;
    InvValid(job, s);
    SmallNeverEarly(job, s, ev);
    StepInv(job, s, ev);
    InvValid(job, Next(job, s, ev));
  }

  /** The round is complete, and nothing for client 0 is on its way. */
  ghost predicate Waiting(job: Job, s: System) {
    && Inv(job, s) && Shape(job, s) && job.n == 2 && job.size == Mtu256 && s.hist.done == 1
    && s.clients[0] == Client(0, 0) && s.harvest == [] && s.down[0] == [] && s.links[Hop(0, 0)] == []
  }

  lemma FirstArrives(job: Job, s: System)
    requires job.Valid() && job.n == 2 && job.size == Mtu256 && IsInit(job, s)
    ensures Inv(job, s) && Enabled(job, s, Consume(0, 0))
    ensures var s1 := Next(job, s, Consume(0, 0));
            && Inv(job, s1) && Shape(job, s1) && s1.clients == s.clients && s1.down == s.down
            && s1.harvest == [] && s1.hist.done == 0 && s1.hist.contrib == [{0}]
            && s1.links == s.links[Hop(0, 0) := []]
  {
    hide Inv, Next, Below;
    InitInv(job, s);
    Pair(job);
    SmallStep(job, s, Consume(0, 0));
    NewStep(job, s, 0, 0);
    NewPacket(job, s, 0, 0);
    NoReplyFromConsume(job, s, 0, 0);
    assert {} + {0} == {0};
  }

  lemma SecondCompletes(job: Job, s: System)
    requires Inv(job, s) && Shape(job, s) && job.n == 2 && job.size == Mtu256 && s.harvest == []
    requires s.hist.done == 0 && s.hist.contrib == [{0}] && Enabled(job, s, Consume(0, 1))
    requires s.links[Hop(0, 1)][0].round == 0
    ensures var s1 := Next(job, s, Consume(0, 1));
            && Inv(job, s1) && Shape(job, s1) && s1.clients == s.clients && s1.down == s.down
            && |s1.harvest| == 1 && s1.hist.done == 1 && s1.links == s.links[Hop(0, 1) := s.links[Hop(0, 1)][1..]]
  {
    hide Inv, Next, Below;
    InvValid(job, s);
    Pair(job);
    assert {0} + {1} == job.Workers();
    SmallStep(job, s, Consume(0, 1));
    NewStep(job, s, 0, 1);
    NewPacket(job, s, 0, 1);
    NoReplyFromConsume(job, s, 0, 1);
  }

  lemma BroadcastLost(job: Job, s: System)
    requires job.Valid() && job.n == 2 && job.size == Mtu256 && IsInit(job, s)
    ensures Run(job, s, TO_LOSS) && Waiting(job, After(job, s, TO_LOSS))
  {
    hide Inv, Next, Below, Run, After;
    FirstArrives(job, s);
    var s1 := Next(job, s, Consume(0, 0));
    SecondCompletes(job, s1);
    var s2 := Next(job, s1, Consume(0, 1));
    SmallStep(job, s2, LoseHarvest(0));
    Lost(job, s2);
    ThreeEvents(job, s, Consume(0, 0), Consume(0, 1), LoseHarvest(0));
  }

  lemma Lost(job: Job, s: System)
    requires Shape(job, s) && |s.harvest| == 1
    ensures Next(job, s, LoseHarvest(0)) == s.(harvest := [])
  {
    assert Cut(s.harvest, 0) == [];
  }

  lemma Posted(job: Job, s: System)
    requires Waiting(job, s)
    ensures var s' := Next(job, s, Event.Retransmit(0));
            && s'.links[Hop(0, 0)] == [Fresh(job, 0, Client(0, 0))]
            && s'.clients == s.clients && s'.harvest == [] && s'.down == s.down && s'.hist == s.hist
  {
    hide Inv, Below;
  }

  lemma Answered(job: Job, s: System)
    requires Waiting(job, s)
    ensures Run(job, s, TO_ANSWER)
    ensures var s' := After(job, s, TO_ANSWER);
            && Inv(job, s') && s'.clients[0] == Client(0, 0)
            && |s'.down[0]| == 1 && s'.down[0][0].round == 0 && s'.down[0][0].reply.kind == IsRetransmit
  {
    hide Inv, Next, Below, Leaves, IsBroadcastEntry, Fresh;
    SmallStep(job, s, Event.Retransmit(0));
    Posted(job, s);
    var s1 := Next(job, s, Event.Retransmit(0));
    FreshRound(job);
    SmallStep(job, s1, Consume(0, 0));
    OldRoundStep(job, s1, 0, 0);
    OldPacket(job, s1, 0, 0);
    NoReplyFromConsume(job, s1, 0, 0);
    var s2 := Next(job, s1, Consume(0, 0));
    SmallStep(job, s2, Harvest(0));
    LastAnswer(job, s2);
    ThreeEvents(job, s, Event.Retransmit(0), Consume(0, 0), Harvest(0));
  }

  lemma FreshRound(job: Job)
    ensures Fresh(job, 0, Client(0, 0)).round == 0
  {
  }

  lemma LastAnswer(job: Job, s: System)
    requires Inv(job, s) && Shape(job, s) && job.size == Mtu256 && job.n == 2 && |s.harvest| == 1 && s.down[0] == []
    requires IsAnswer(s.harvest[0], 0, 0) && !IsBroadcastEntry(s.harvest[0])
    ensures Enabled(job, s, Harvest(0)) && Shape(job, Next(job, s, Harvest(0)))
    ensures var s' := Next(job, s, Harvest(0));
            && s'.clients == s.clients && |s'.down[0]| == 1
            && s'.down[0][0].round == 0 && s'.down[0][0].reply.kind == IsRetransmit
  {
    hide Inv, Below, BitOf, HarvestPass, Verdict, Collected;
    InvValid(job, s);
    HarvestAt(job, s, 0);
    LastPass(job, s, 0);
    HarvestLast(job, s.pipes[0], s.harvest[0]);
  }

  /**
   * In every 256-byte job of two workers, after the loss of a broadcast client 0 accepts a retransmission whose last
   * slice is its own. Where worker 1 has anything but zero, this is not the sum.
   */
  lemma OwnTailAccepted(job: Job, s: System, i: nat) returns (evs: seq<Event>)
    requires job.Valid() && job.n == 2 && job.size == Mtu256 && IsInit(job, s)
    requires i < 32 && job.word(1, 0, 32 + i) != 0
    ensures SoundRun(job, s, evs)
    ensures var s' := After(job, s, evs);
            && Enabled(job, s', Deliver(0)) && Accepts(s', Deliver(0), 0) && s'.clients[0].chunk == 0
            && |s'.down[0][0].reply.payload| == 2 && s'.down[0][0].reply.payload[1] == job.Own(0, 0, 1)
            && s'.down[0][0].reply.payload[1][i] != job.Sum(job.Workers(), 0, 32 + i) % MODULUS
  {
    hide Inv, Next, Below, Run, After;
    BroadcastLost(job, s);
    var s1 := After(job, s, TO_LOSS);
    Answered(job, s1);
    Concatenated(job, s, TO_LOSS, TO_ANSWER);
    evs := TO_LOSS + TO_ANSWER;
    InitInv(job, s);
    SmallIsSound(job, s, evs);
    var s' := After(job, s1, TO_ANSWER);
    SmallReplies(job, s', 0);
    AcceptMeansOwnChunk(job, s', 0);
    RetransmittedTail(job, s', 0, i);
    OtherWord(job, i);
  }

  lemma OtherWord(job: Job, i: nat)
    requires job.n == 2 && i < 32 && job.word(1, 0, 32 + i) != 0
    ensures job.Sum(job.Workers() - {0}, 0, 32 * 1 + i) % MODULUS != 0
  {
    Pair(job);
    assert job.Workers() - {0} == {1};
    assert job.SumBelow({1}, 0, 32 + i, 0) == 0;
    assert job.SumBelow({1}, 0, 32 + i, 1) == 0;
  }
}
