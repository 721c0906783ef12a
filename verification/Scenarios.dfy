/**
 * Runs from the start of a job with 1024-byte packets, without any loss, that end where one would not expect it. The
 * four pipes decide separately, and packets of different workers overtake each other between them.
 */
module Scenarios {
  import opened Words
  import opened Jobs
  import opened SwitchTables
  import opened SwitchPass
  import opened PipeInvariant
  import opened Protocol
  import opened ProtocolInvariant
  import opened HarvestInvariant
  import opened ConsumeInvariant
  import opened ProtocolSafety
  import opened EarlyAnswers
  import opened Replies
  import opened Recovery

  /** Some sound run without losses leads from s to s'. */
  ghost predicate Goes(job: Job, s: System, s': System) {
    exists evs :: SoundRun(job, s, evs) && NoLoss(evs) && After(job, s, evs) == s'
  }

  lemma GoesNowhere(job: Job, s: System)
    requires Shape(job, s)
    ensures Goes(job, s, s)
  {
    assert SoundRun(job, s, []) && NoLoss([]) && After(job, s, []) == s;
  }

  lemma GoesOn(job: Job, s: System, s1: System, s2: System)
    requires Goes(job, s, s1) && Goes(job, s1, s2)
    ensures Goes(job, s, s2)
  {
    hide Next, Enabled, Shape, AcceptsEarly, LosesOnlyEarly;
    var a :| SoundRun(job, s, a) && NoLoss(a) && After(job, s, a) == s1;
    var b :| SoundRun(job, s1, b) && NoLoss(b) && After(job, s1, b) == s2;
    Concatenated(job, s, a, b);
    assert NoLoss(a + b);
  }

  lemma GoesStep(job: Job, s: System, ev: Event)
    requires Shape(job, s) && Enabled(job, s, ev) && !IsLoss(ev) && !ev.Deliver? && Shape(job, Next(job, s, ev))
    ensures Goes(job, s, Next(job, s, ev))
  {
    hide Next, Enabled;
    OneEvent(job, s, ev);
    assert SoundRun(job, s, [ev]) && NoLoss([ev]) && After(job, s, [ev]) == Next(job, s, ev);
  }

  // ---------- workers in their first round ----------

  /** What a packet's tags and flags say. */
  datatype Mark = Mark(first: bool, dup: bool, seen: set<nat>)

  /**
   * Every worker has at most one packet in flight: `pos[w]` is the pipe it waits for (4 if there is none), `marks[w]`
   * its flags, and K[j] are the workers pipe j has counted. Nothing is harvested and nobody has a reply.
   */
  ghost predicate Track(job: Job, s: System, K: seq<set<nat>>, pos: seq<nat>, marks: seq<Mark>) {
    && Inv(job, s) && Shape(job, s) && 2 <= job.n && job.size == Mtu1024
    && s.hist.done == 0 && s.hist.contrib == K && |K| == 4 && |pos| == |marks| == job.n
    && s.harvest == []
    && (forall w | 0 <= w < job.n :: s.clients[w] == Client(0, 0) && s.down[w] == [])
    && forall j, w | 0 <= j < 4 && 0 <= w < job.n :: OnLink(s.links[Hop(j, w)], j == pos[w], marks[w])
  }

  predicate OnLink(q: seq<Tagged>, present: bool, m: Mark) {
    if present then
      && |q| == 1 && q[0].round == 0 && q[0].seen == m.seen
      && q[0].pkt.md.firstFlag == m.first && q[0].pkt.md.dupFlag == m.dup
    else q == []
  }

  /** The first flag is set when nobody has been counted before, or everybody has. */
  predicate SetsFirst(job: Job, K: set<nat>) {
    |K| == 0 || |K| == job.n
  }

  function Marked(job: Job, m: Mark, j: nat, K: set<nat>, w: nat): Mark {
    Mark(m.first || SetsFirst(job, K), m.dup || w in K, if j == 0 then K + {w} else m.seen)
  }

  /** A packet of the round being collected makes a pass and goes on to the next pipe. */
  lemma PassEffect(job: Job, s: System, j: nat, w: nat)
    requires Inv(job, s) && Enabled(job, s, Consume(j, w)) && j < 3 && job.size == Mtu1024 && 2 <= job.n
    requires s.links[Hop(j, w)][0].round == s.hist.done
    requires w in s.hist.contrib[j] && j == 0 ==> |s.hist.contrib[0]| == job.n
    ensures var s', t, K := Next(job, s, Consume(j, w)), s.links[Hop(j, w)][0], s.hist.contrib[j];
            && s'.clients == s.clients && s'.harvest == s.harvest && s'.down == s.down
            && s'.hist == s.hist.(contrib := s.hist.contrib[j := K + {w}])
            && Hop(j + 1, w) in s'.links
            && s'.links == s.links[Hop(j, w) := s.links[Hop(j, w)][1..]][Hop(j + 1, w) := s'.links[Hop(j + 1, w)]]
            && |s'.links[Hop(j + 1, w)]| == |s.links[Hop(j + 1, w)]| + 1
            && var u, m := s'.links[Hop(j + 1, w)][|s.links[Hop(j + 1, w)]|],
                           Marked(job, Mark(t.pkt.md.firstFlag, t.pkt.md.dupFlag, t.seen), j, K, w);
               u.round == t.round && m == Mark(u.pkt.md.firstFlag, u.pkt.md.dupFlag, u.seen)
  {
    hide Inv, Below, BitOf, PipeOk, Carries, NextStep, ConsumePass, Next, PacketOk;
    Head(job, s, j, w);
    HeadCarries(job, s, j, w);
    var t, K, done := s.links[Hop(j, w)][0], s.hist.contrib[j], s.hist.done;
    if w in K {
      assert K + {w} == K;
      ConsumeOld(job, j, s.pipes[j], done, K, t.pkt, w, done);
      ConsumeRow(job, t.pkt, w, done, j, CountOf(job, K), true);
      SubsetSize({w}, K);
    } else {
      var e0 := ConsumeNew(job, j, s.pipes[j], done, K, t.pkt, w);
      ConsumeRow(job, t.pkt, w, done, j, NewFlag(job, K), false);
    }
    var pass := ConsumePass(s.pipes[j], t.pkt);
    PassedOn(job, s, j, w, pass.outcome.pkt);
    PassedTags(job, s, j, w, pass.dup, pass.outcome.pkt);
  }

  lemma HeadCarries(job: Job, s: System, j: nat, w: nat)
    requires Inv(job, s) && Enabled(job, s, Consume(j, w))
    ensures Carries(job, s.links[Hop(j, w)][0].pkt, w, s.links[Hop(j, w)][0].round, j)
  {
    hide Inv, Below, BitOf, PipeOk, Carries;
    Head(job, s, j, w);
  }

  /** Worker w's packet makes a pass and goes on to the next pipe. */
  lemma Advance(job: Job, s: System, K: seq<set<nat>>, pos: seq<nat>, marks: seq<Mark>, w: nat) returns (s': System)
    requires Track(job, s, K, pos, marks) && w < job.n && pos[w] < 3
    requires w in K[pos[w]] && pos[w] == 0 ==> |K[0]| == job.n
    ensures var j := pos[w];
            Track(job, s', K[j := K[j] + {w}], pos[w := j + 1], marks[w := Marked(job, marks[w], j, K[j], w)])
    ensures Goes(job, s, s')
  {
    hide Inv, Next, Goes, SetsFirst, AcceptsEarly;
    var j := pos[w];
    assert OnLink(s.links[Hop(j, w)], true, marks[w]);
    assert OnLink(s.links[Hop(j + 1, w)], false, marks[w]);
    PassEffect(job, s, j, w);
    NotADelivery(s, Consume(j, w));
    StepInv(job, s, Consume(j, w));
    s' := Next(job, s, Consume(j, w));
    InvValid(job, s');
    GoesStep(job, s, Consume(j, w));
  }

  lemma NotADelivery(s: System, ev: Event)
    requires !ev.Deliver?
    ensures !AcceptsEarly(s, ev)
  {
  }

  /** Worker w's packet makes its last consume pass and is not the one that completes the round. */
  lemma Arrive(job: Job, s: System, K: seq<set<nat>>, pos: seq<nat>, marks: seq<Mark>, w: nat) returns (s': System)
    requires Track(job, s, K, pos, marks) && w < job.n && pos[w] == 3 && w !in K[3] && K[3] + {w} != job.Workers()
    ensures Track(job, s', K[3 := K[3] + {w}], pos[w := 4], marks) && Goes(job, s, s')
  {
    hide Inv, Next, Goes, AcceptsEarly;
    assert OnLink(s.links[Hop(3, w)], true, marks[w]);
    NewStep(job, s, 3, w);
    NewPacket(job, s, 3, w);
    NoReplyFromConsume(job, s, 3, w);
    NotADelivery(s, Consume(3, w));
    StepInv(job, s, Consume(3, w));
    s' := Next(job, s, Consume(3, w));
    InvValid(job, s');
    GoesStep(job, s, Consume(3, w));
  }

  lemma NoReplyFromConsume(job: Job, s: System, j: nat, w: nat)
    requires Inv(job, s) && Enabled(job, s, Consume(j, w))
    ensures Next(job, s, Consume(j, w)).down == s.down && Next(job, s, Consume(j, w)).clients == s.clients
  {
    hide Inv, Below, ConsumePass;
    InvValid(job, s);
    HarvestOnlyFromLast(job, s, j, w);
  }

  /** Worker w's timer fires. */
  lemma Resend(job: Job, s: System, K: seq<set<nat>>, pos: seq<nat>, marks: seq<Mark>, w: nat) returns (s': System)
    requires Track(job, s, K, pos, marks) && w < job.n && pos[w] == 4
    ensures Track(job, s', K, pos[w := 0], marks[w := Mark(false, false, {})]) && Goes(job, s, s')
  {
    hide Inv, Goes, Below;
    StepInv(job, s, Event.Retransmit(w));
    s' := Next(job, s, Event.Retransmit(w));
    InvValid(job, s');
    GoesStep(job, s, Event.Retransmit(w));
    assert OnLink(s.links[Hop(0, w)], false, marks[w]);
  }

  function Positions(n: nat): (pos: seq<nat>)
    ensures |pos| == n && forall w | 0 <= w < n :: pos[w] == 0
  {
    seq(n, _ => 0)
  }

  function Unmarked(n: nat): (marks: seq<Mark>)
    ensures |marks| == n && forall w | 0 <= w < n :: marks[w] == Mark(false, false, {})
  {
    seq(n, _ => Mark(false, false, {}))
  }

  lemma Departure(job: Job, s: System)
    requires job.Valid() && 2 <= job.n && job.size == Mtu1024 && IsInit(job, s)
    ensures Track(job, s, [{}, {}, {}, {}], Positions(job.n), Unmarked(job.n))
  {
    hide Inv, Below;
    InitInv(job, s);
    assert s.hist.contrib == [{}, {}, {}, {}];
  }

  /** Worker w's packet travels on to the last pipe. */
  lemma {:induction false} Travel(job: Job, s: System, K: seq<set<nat>>, pos: seq<nat>, marks: seq<Mark>, w: nat)
    returns (s': System, K': seq<set<nat>>, marks': seq<Mark>)
    requires Track(job, s, K, pos, marks) && w < job.n && pos[w] <= 3
    requires w in K[pos[w]] && pos[w] == 0 ==> |K[0]| == job.n
    ensures Track(job, s', K', pos[w := 3], marks') && Goes(job, s, s')
    ensures |K'| == 4 && forall j | 0 <= j < 4 :: K'[j] == if pos[w] <= j < 3 then K[j] + {w} else K[j]
    ensures |marks'| == |marks| && forall v | 0 <= v < job.n && v != w :: marks'[v] == marks[v]
    ensures marks'[w].first <==> marks[w].first || exists j :: pos[w] <= j < 3 && SetsFirst(job, K[j])
    ensures marks'[w].dup <==> marks[w].dup || exists j :: pos[w] <= j < 3 && w in K[j]
    ensures 1 <= pos[w] ==> marks'[w].seen == marks[w].seen
    decreases 3 - pos[w]
  {
    hide Inv, Goes, SetsFirst;
    if pos[w] == 3 {
      GoesNowhere(job, s);
      assert pos[w := 3] == pos;
      s', K', marks' := s, K, marks;
    } else {
      var j := pos[w];
      var s1 := Advance(job, s, K, pos, marks, w);
      assert pos[w := j + 1][w := 3] == pos[w := 3];
      s', K', marks' := Travel(job, s1, K[j := K[j] + {w}], pos[w := j + 1],
                               marks[w := Marked(job, marks[w], j, K[j], w)], w);
      GoesOn(job, s, s1, s');
    }
  }

  // ---------- a single packet being harvested ----------

  /** The slice of number k in the registers of the pipes. */
  function SliceOf(pipes: seq<Registers>, bit: nat, k: nat): Slice
    requires k / 2 < |pipes|
  {
    if k % 2 == 0 then pipes[k / 2].At(bit).d0 else pipes[k / 2].At(bit).d1
  }

  /** The only packet in the harvest queue, on its way through the harvest passes. */
  ghost predicate Harvesting(job: Job, s: System, u: Tagged) {
    && Shape(job, s) && job.size == Mtu1024 && s.harvest == [u] && u.pkt.md.size == Mtu1024
    && HARVEST1 <= u.pkt.md.packetType && u.pkt.port == HarvestPort(u.pkt.md.packetType)
  }

  /** The packet after its next pass, if that is not the last one. */
  function Harvested(job: Job, s: System, u: Tagged): Tagged
    requires |s.pipes| == 4 && HARVEST1 <= u.pkt.md.packetType < HARVEST7
  {
    var t := u.pkt.md.packetType;
    u.(pkt := Packet(u.pkt.md.(packetType := t + 1), HarvestPort(t + 1),
                     [SliceOf(s.pipes, u.pkt.md.setBit, 15 - t)] + u.pkt.payload),
       parts := [SeenBy(job, s.hist, (15 - t) / 2, u.round)] + u.parts)
  }

  lemma HarvestOnce(job: Job, s: System, u: Tagged)
    requires Harvesting(job, s, u) && u.pkt.md.packetType < HARVEST7
    ensures Enabled(job, s, Harvest(0)) && Next(job, s, Harvest(0)) == s.(harvest := [Harvested(job, s, u)])
    ensures Harvesting(job, s.(harvest := [Harvested(job, s, u)]), Harvested(job, s, u))
  {
    hide HarvestPass, Below;
    var t := u.pkt.md.packetType;
    PortAndPipe(t);
    HarvestStep(job, s.pipes[HarvestPipe(t)], u.pkt);
  }

  lemma HarvestedFields(job: Job, s: System, u: Tagged)
    requires |s.pipes| == 4 && HARVEST1 <= u.pkt.md.packetType < HARVEST7
    ensures var v := Harvested(job, s, u);
            && v.pkt.md == u.pkt.md.(packetType := u.pkt.md.packetType + 1)
            && v.round == u.round && v.own == u.own && v.early == u.early && v.seen == u.seen
            && v.pkt.payload == [SliceOf(s.pipes, u.pkt.md.setBit, 15 - u.pkt.md.packetType)] + u.pkt.payload
            && v.parts == [SeenBy(job, s.hist, (15 - u.pkt.md.packetType) / 2, u.round)] + u.parts
  {
  }

  lemma PortAndPipe(t: PacketType)
    requires HARVEST1 <= t
    ensures PipeOfPort(HarvestPort(t)) == HarvestPipe(t) == (15 - t) / 2 < 4
    ensures HarvestHalf(t) == D0 <==> (15 - t) % 2 == 0
  {
  }

  /** In v, the slices of numbers 1 to n have been put in front of what u holds. */
  ghost predicate Extends(job: Job, pipes: seq<Registers>, h: History, u: Tagged, v: Tagged, n: nat) {
    && |pipes| == 4 && n <= 6
    && |v.pkt.payload| == n + |u.pkt.payload| && v.pkt.payload[n..] == u.pkt.payload
    && |v.parts| == n + |u.parts| && v.parts[n..] == u.parts
    && forall k | 0 <= k < n ::
         && v.pkt.payload[k] == SliceOf(pipes, u.pkt.md.setBit, k + 1)
         && v.parts[k] == SeenBy(job, h, (k + 1) / 2, u.round)
  }

  lemma ExtendsFurther(job: Job, pipes: seq<Registers>, h: History, u: Tagged, u1: Tagged, v: Tagged, n: nat)
    requires n < 6 && Extends(job, pipes, h, u1, v, n) && u1.pkt.md.setBit == u.pkt.md.setBit && u1.round == u.round
    requires u1.pkt.payload == [SliceOf(pipes, u.pkt.md.setBit, n + 1)] + u.pkt.payload
    requires u1.parts == [SeenBy(job, h, (n + 1) / 2, u.round)] + u.parts
    ensures Extends(job, pipes, h, u, v, n + 1)
  {
    hide SliceOf, SeenBy;
    assert v.pkt.payload[n + 1..] == v.pkt.payload[n..][1..];
    assert v.parts[n + 1..] == v.parts[n..][1..];
    assert v.pkt.payload[n] == v.pkt.payload[n..][0] && v.parts[n] == v.parts[n..][0];
  }

  lemma HarvestGoes(job: Job, s: System, u: Tagged)
    requires Harvesting(job, s, u) && u.pkt.md.packetType < HARVEST7
    ensures |s.pipes| == 4 && Goes(job, s, s.(harvest := [Harvested(job, s, u)]))
  {
    hide Goes, Next, Harvested;
    HarvestOnce(job, s, u);
    GoesStep(job, s, Harvest(0));
  }

  /** All passes but the last one. */
  lemma {:induction false} HarvestChain(job: Job, s: System, u: Tagged) returns (s': System, v: Tagged)
    requires Harvesting(job, s, u)
    ensures Goes(job, s, s') && s' == s.(harvest := [v]) && Harvesting(job, s', v)
    ensures v.pkt.md == u.pkt.md.(packetType := HARVEST7)
    ensures v.round == u.round && v.own == u.own && v.early == u.early && v.seen == u.seen
    ensures Extends(job, s.pipes, s.hist, u, v, 15 - u.pkt.md.packetType)
    decreases 15 - u.pkt.md.packetType
  {
    if u.pkt.md.packetType == HARVEST7 {
      hide Goes;
      GoesNowhere(job, s);
      s', v := s, u;
    } else {
      hide Goes, SliceOf, SeenBy, HarvestPort, Next, Enabled, Shape, Extends, Harvested;
      var u1 := Harvested(job, s, u);
      var s1 := s.(harvest := [u1]);
      HarvestOnce(job, s, u);
      HarvestedFields(job, s, u);
      HarvestGoes(job, s, u);
      s', v := HarvestChain(job, s1, u1);
      GoesOn(job, s, s1, s');
      ExtendsFurther(job, s.pipes, s.hist, u, u1, v, 14 - u.pkt.md.packetType);
    }
  }

  /** The last pass: everybody, one worker or nobody gets a reply. */
  lemma HarvestEnd(job: Job, s: System, u: Tagged)
    requires Harvesting(job, s, u) && u.pkt.md.packetType == HARVEST7 && job.Valid() && u.pkt.md.worker < job.n
    ensures var s' := Next(job, s, Harvest(0));
            var reply := AsReply(LastReply(s.pipes[0].At(u.pkt.md.setBit), u),
                                 u.(parts := [SeenBy(job, s.hist, 0, u.round)] + u.parts));
            && s'.harvest == [] && s'.clients == s.clients && s'.pipes == s.pipes && s'.links == s.links
            && s'.hist.done == s.hist.done && s'.hist.contrib == s.hist.contrib && Shape(job, s')
            && forall w | 0 <= w < job.n ::
                 s'.down[w] == s.down[w] +
                               if IsBroadcastEntry(u) || (Leaves(u) && w == u.pkt.md.worker) then [reply] else []
  {
    hide HarvestPass, Verdict, LastReply, Below;
    PortAndPipe(HARVEST7);
    LastPass(job, s, 0);
    HarvestLast(job, s.pipes[0], u);
    assert Cut(s.harvest, 0) == [];
  }

  /** From the first harvest pass to the reply. */
  lemma HarvestAll(job: Job, s: System, u: Tagged) returns (s': System, r: TaggedReply)
    requires Harvesting(job, s, u) && u.pkt.md.packetType == HARVEST1 && job.Valid() && u.pkt.md.worker < job.n
    requires |u.pkt.payload| == |u.parts| == 1
    ensures Goes(job, s, s') && Shape(job, s')
    ensures s'.harvest == [] && s'.clients == s.clients && s'.pipes == s.pipes && s'.links == s.links
    ensures s'.hist.done == s.hist.done && s'.hist.contrib == s.hist.contrib
    ensures forall w | 0 <= w < job.n ::
              s'.down[w] == s.down[w] + if IsBroadcastEntry(u) || (Leaves(u) && w == u.pkt.md.worker) then [r] else []
    ensures r.round == u.round && r.own == u.own && r.early == u.early && r.seen == u.seen
    ensures r.reply.kind == (if IsBroadcastEntry(u) then IsBroadcast else IsRetransmit)
    ensures r.reply.setBit == u.pkt.md.setBit && r.reply.e0 == u.pkt.md.e0
    ensures |r.reply.payload| == |r.parts| == 8 && r.reply.payload[7] == u.pkt.payload[0]
    ensures forall k | 0 <= k < 7 ::
              && r.reply.payload[k] == SliceOf(s.pipes, u.pkt.md.setBit, k)
              && r.parts[k] == SeenBy(job, s.hist, k / 2, u.round)
  {
    hide Goes, SeenBy, Verdict, HarvestPort;
    var s1, v := HarvestChain(job, s, u);
    SameVerdict(u.pkt.md, v.pkt.md);
    HarvestEnd(job, s1, v);
    s' := Next(job, s1, Harvest(0));
    GoesStep(job, s1, Harvest(0));
    GoesOn(job, s, s1, s');
    r := AsReply(LastReply(s1.pipes[0].At(v.pkt.md.setBit), v),
                 v.(parts := [SeenBy(job, s1.hist, 0, v.round)] + v.parts));
    forall k | 0 <= k < 7
      ensures r.reply.payload[k] == SliceOf(s.pipes, u.pkt.md.setBit, k)
      ensures r.parts[k] == SeenBy(job, s.hist, k / 2, u.round)
    {
      if k != 0 {
        assert r.reply.payload[k] == v.pkt.payload[k - 1] && r.parts[k] == v.parts[k - 1];
      }
    }
    assert v.pkt.payload[6..] == u.pkt.payload;
  }

  lemma SameVerdict(a: Metadata, b: Metadata)
    requires b == a.(packetType := HARVEST7)
    ensures Verdict(a) == Verdict(b)
  {
  }

  // ---------- the packet that leaves the last pipe ----------

  /** A packet in the harvest queue before its first harvest pass, as worker w's packet became it in the last pipe. */
  ghost predicate Starts(job: Job, u: Tagged, w: nat) {
    && u.pkt.md.packetType == HARVEST1 && u.pkt.port == HarvestPort(HARVEST1) && u.pkt.md.size == Mtu1024
    && u.pkt.md.worker == w && u.pkt.md.setBit == BitOf(u.round) && |u.pkt.payload| == |u.parts| == 1
  }

  lemma QueuedStarts(job: Job, s: System, w: nat, dup: bool, md: Metadata, d: Slice, rest: seq<Slice>)
    requires Inv(job, s) && Enabled(job, s, Consume(3, w)) && job.size == Mtu1024 && rest == []
    requires md.size == Mtu1024 && md.worker == w && md.setBit == BitOf(s.links[Hop(3, w)][0].round)
    ensures job.Valid()
    ensures var u := Passed(job, s, 3, w, dup, Queued(job, md, d, rest));
            && Starts(job, u, w) && u.pkt.payload == [d] && u.pkt.md == md.(packetType := HARVEST1)
            && u.round == s.links[Hop(3, w)][0].round && u.own == dup && u.seen == s.links[Hop(3, w)][0].seen
            && (u.early <==> IsTooEarly(s.pipes[3], s.links[Hop(3, w)][0].pkt))
  {
    hide Inv, Below, BitOf, IsTooEarly;
    InvValid(job, s);
    PassedTags(job, s, 3, w, dup, Queued(job, md, d, rest));
  }

  /** Worker w's packet completes the round in the last pipe. */
  lemma Complete4(job: Job, s: System, K: seq<set<nat>>, pos: seq<nat>, marks: seq<Mark>, w: nat)
    returns (s': System, u: Tagged)
    requires Track(job, s, K, pos, marks) && w < job.n && pos[w] == 3 && w !in K[3] && K[3] + {w} == job.Workers()
    ensures job.Valid() && Inv(job, s') && Goes(job, s, s') && Harvesting(job, s', u) && Starts(job, u, w)
    ensures s'.clients == s.clients && s'.down == s.down && s'.hist.done == 1
    ensures u.round == 0 && !u.early && u.seen == marks[w].seen
    ensures IsBroadcastEntry(u) <==> !marks[w].first && !marks[w].dup
    ensures Leaves(u) <==> marks[w].first == marks[w].dup
  {
    hide Inv, Below, BitOf, PipeOk, NextStep, ConsumePass, Carries, Verdict, Route, SeenOk, IsTooEarly, Goes;
    hide AcceptsEarly;
    assert OnLink(s.links[Hop(3, w)], true, marks[w]);
    var ev := Consume(3, w);
    Head(job, s, 3, w);
    var t := s.links[Hop(3, w)][0];
    var e0 := ConsumeNew(job, 3, s.pipes[3], 0, K[3], t.pkt, w);
    var pass := ConsumePass(s.pipes[3], t.pkt);
    LastIffComplete(job, K[3], w);
    ConsumeRow(job, t.pkt, w, 0, 3, 1, false);
    NewPacket(job, s, 3, w);
    var md, d1, rest := MetadataAfter(t.pkt, e0, 1, false), job.Part(K[3] + {w}, 0, 7), t.pkt.payload[2..];
    u := Passed(job, s, 3, w, false, Queued(job, md, d1, rest));
    QueuedByRoute(job, Popped(job, s, 3, w, pass.regs), pass.outcome, u, md, t.pkt.payload[0], d1, rest);
    QueuedStarts(job, s, w, false, md, d1, rest);
    NoReplyFromConsume(job, s, 3, w);
    NotADelivery(s, ev);
    StepInv(job, s, ev);
    s' := Next(job, s, ev);
    InvValid(job, s');
    GoesStep(job, s, ev);
  }

  lemma TrackShape(job: Job, s: System, K: seq<set<nat>>, pos: seq<nat>, marks: seq<Mark>)
    requires Track(job, s, K, pos, marks)
    ensures job.Valid() && Shape(job, s) && |K| == 4 && |pos| == |marks| == job.n && s.hist.done == 0
    ensures forall w | 0 <= w < job.n :: s.clients[w] == Client(0, 0) && s.down[w] == []
  {
    hide Inv;
    InvValid(job, s);
  }

  /** Worker 0 is the first one in pipe 0, and worker 1 in the pipes behind it, where it arrives in the last one. */
  lemma Overtake(job: Job, s: System) returns (s': System, K: seq<set<nat>>, m: seq<Mark>)
    requires job.Valid() && job.n == 2 && job.size == Mtu1024 && IsInit(job, s)
    ensures Track(job, s', K, [1, 4], m) && Goes(job, s, s')
    ensures |K| == 4 && |m| == 2 && K[1] == K[2] == K[3] == {1} && m[0] == Mark(true, false, {0})
  {
    hide Inv, Goes, Shape, Track;
    Departure(job, s);
    var K0: seq<set<nat>>, m0 := [{}, {}, {}, {}], Unmarked(2);
    TrackShape(job, s, K0, Positions(2), m0);
    assert Positions(2) == [0, 0];
    var s1 := Advance(job, s, K0, [0, 0], m0, 0);
    assert {} + {0} == {0};
    var K1, m1 := K0[0 := {} + {0}], m0[0 := Marked(job, m0[0], 0, {}, 0)];
    assert [0, 0][0 := 1] == [1, 0];
    TrackShape(job, s1, K1, [1, 0], m1);
    var s2, K2, m2 := Travel(job, s1, K1, [1, 0], m1, 1);
    GoesOn(job, s, s1, s2);
    assert [1, 0][1 := 3] == [1, 3];
    TrackShape(job, s2, K2, [1, 3], m2);
    assert {} + {1} == {1};
    Pair(job);
    s' := Arrive(job, s2, K2, [1, 3], m2, 1);
    GoesOn(job, s, s2, s');
    assert [1, 3][1 := 4] == [1, 4];
    K, m := K2[3 := {1}], m2;
  }

  /**
   * The packet that completes a round is dropped in its last pass if it was the first one in some pipe, as when
   * worker 1 overtakes worker 0 behind pipe 0. The round is complete then, and nobody gets a reply.
   */
  lemma CompletingIsDropped(job: Job, s: System) returns (evs: seq<Event>)
    requires job.Valid() && job.n == 2 && job.size == Mtu1024 && IsInit(job, s)
    ensures SoundRun(job, s, evs) && NoLoss(evs)
    ensures var s' := After(job, s, evs);
            s'.hist.done == 1 && s'.harvest == [] && forall w | 0 <= w < 2 :: s'.down[w] == []
  {
    hide Inv, Goes, Verdict, Run;
    var s1, u := OvertakenCompletes(job, s);
    var s2, r := HarvestAll(job, s1, u);
    GoesOn(job, s, s1, s2);
    evs := Evidence(job, s, s2);
  }

  /** Worker 0's packet follows and completes the round. */
  lemma OvertakenCompletes(job: Job, s: System) returns (s': System, u: Tagged)
    requires job.Valid() && job.n == 2 && job.size == Mtu1024 && IsInit(job, s)
    ensures Goes(job, s, s') && Harvesting(job, s', u) && Starts(job, u, 0) && !Leaves(u)
    ensures s'.hist.done == 1 && s'.down == [[], []]
  {
    hide Inv, Goes, Verdict, Run, Track, SetsFirst;
    var s1, K1, m1 := Overtake(job, s);
    TrackShape(job, s1, K1, [1, 4], m1);
    var s2, K2, m2 := Travel(job, s1, K1, [1, 4], m1, 0);
    GoesOn(job, s, s1, s2);
    assert [1, 4][0 := 3] == [3, 4];
    TrackShape(job, s2, K2, [3, 4], m2);
    Pair(job);
    assert K2[3] + {0} == job.Workers();
    s', u := Complete4(job, s2, K2, [3, 4], m2, 0);
    GoesOn(job, s, s2, s');
  }

  // ---------- a broadcast with the wrong first exponent ----------

  lemma Three(job: Job)
    requires job.n == 3
    ensures job.Workers() == {0, 1, 2}
  {
  }

  /** Three workers pass pipe 0 one after the other. */
  lemma InTurn(job: Job, s: System) returns (s': System, m: seq<Mark>)
    requires job.Valid() && job.n == 3 && job.size == Mtu1024 && IsInit(job, s)
    ensures Track(job, s', [{0, 1, 2}, {}, {}, {}], [1, 1, 1], m) && Goes(job, s, s')
    ensures |m| == 3 && m[1] == Mark(false, false, {0, 1})
  {
    hide Inv, Goes, Shape, Track, SetsFirst;
    Departure(job, s);
    var none: set<nat>, one: set<nat>, two: set<nat> := {}, {0}, {0, 1};
    assert none + {0} == one && one + {1} == two && two + {2} == {0, 1, 2} && !SetsFirst(job, one) by {
      OneIsNotFirst(job, one);
    }
    var m0 := Unmarked(3);
    assert Positions(3) == [0, 0, 0];
    var s1 := Advance(job, s, [none, none, none, none], [0, 0, 0], m0, 0);
    var m1 := m0[0 := Marked(job, m0[0], 0, none, 0)];
    assert [none, none, none, none][0 := one] == [one, none, none, none] && [0, 0, 0][0 := 1] == [1, 0, 0];
    var s2 := Advance(job, s1, [one, none, none, none], [1, 0, 0], m1, 1);
    GoesOn(job, s, s1, s2);
    var m2 := m1[1 := Marked(job, m1[1], 0, one, 1)];
    assert [one, none, none, none][0 := two] == [two, none, none, none] && [1, 0, 0][1 := 1] == [1, 1, 0];
    s' := Advance(job, s2, [two, none, none, none], [1, 1, 0], m2, 2);
    GoesOn(job, s, s2, s');
    m := m2[2 := Marked(job, m2[2], 0, two, 2)];
    assert [two, none, none, none][0 := {0, 1, 2}] == [{0, 1, 2}, none, none, none] && [1, 1, 0][2 := 1] == [1, 1, 1];
  }

  lemma OneIsNotFirst(job: Job, one: set<nat>)
    requires job.n == 3 && one == {0}
    ensures !SetsFirst(job, one)
  {
  }

  lemma TwoIsNotFirst(job: Job, two: set<nat>)
    requires job.n == 3 && two == {0, 2}
    ensures !SetsFirst(job, two)
  {
    assert |two| == 2;
  }

  /** A worker goes all the way from pipe 1, and is not the last one. */
  lemma GoThrough(job: Job, s: System, K: set<nat>, pos: seq<nat>, m: seq<Mark>, w: nat)
    returns (s': System, m': seq<Mark>)
    requires Track(job, s, [{0, 1, 2}, K, K, K], pos, m) && job.n == 3 && w < 3 && pos[w] == 1 && w !in K
    requires K + {w} != {0, 1, 2}
    ensures Track(job, s', [{0, 1, 2}, K + {w}, K + {w}, K + {w}], pos[w := 4], m') && Goes(job, s, s')
    ensures |m'| == |m| == 3 && forall v | 0 <= v < 3 && v != w :: m'[v] == m[v]
  {
    hide Inv, Goes, Shape, Track, SetsFirst;
    TrackShape(job, s, [{0, 1, 2}, K, K, K], pos, m);
    var s1, K1, m1 := Travel(job, s, [{0, 1, 2}, K, K, K], pos, m, w);
    assert K1 == [{0, 1, 2}, K + {w}, K + {w}, K];
    Three(job);
    s' := Arrive(job, s1, K1, pos[w := 3], m1, w);
    GoesOn(job, s, s1, s');
    assert pos[w := 3][w := 4] == pos[w := 4];
    assert K1[3 := K + {w}] == [{0, 1, 2}, K + {w}, K + {w}, K + {w}];
    m' := m1;
  }

  /** The second one in pipe 0 is the last one in the others: its broadcast has not seen the third one's exponent. */
  lemma SecondIsLast(job: Job, s: System) returns (s': System, u: Tagged)
    requires job.Valid() && job.n == 3 && job.size == Mtu1024 && IsInit(job, s)
    ensures Goes(job, s, s') && Harvesting(job, s', u) && Starts(job, u, 1) && IsBroadcastEntry(u)
    ensures u.round == 0 && !u.early && u.seen == {0, 1} && s'.down == [[], [], []] && s'.clients[0] == Client(0, 0)
  {
    hide Inv, Goes, Verdict, Track, SetsFirst;
    var s1, m1 := InTurn(job, s);
    var s2, m2 := GoThrough(job, s1, {}, [1, 1, 1], m1, 0);
    GoesOn(job, s, s1, s2);
    assert {} + {0} == {0} && [1, 1, 1][0 := 4] == [4, 1, 1];
    var s3, m3 := GoThrough(job, s2, {0}, [4, 1, 1], m2, 2);
    GoesOn(job, s, s2, s3);
    assert {0} + {2} == {0, 2} && [4, 1, 1][2 := 4] == [4, 1, 4];
    s', u := LastOfThree(job, s3, m3);
    GoesOn(job, s, s3, s');
  }

  lemma LastOfThree(job: Job, s: System, m: seq<Mark>) returns (s': System, u: Tagged)
    requires Track(job, s, [{0, 1, 2}, {0, 2}, {0, 2}, {0, 2}], [4, 1, 4], m) && job.n == 3
    requires |m| == 3 && m[1] == Mark(false, false, {0, 1})
    ensures Goes(job, s, s') && Harvesting(job, s', u) && Starts(job, u, 1) && IsBroadcastEntry(u)
    ensures u.round == 0 && !u.early && u.seen == {0, 1} && s'.down == [[], [], []] && s'.clients[0] == Client(0, 0)
  {
    hide Inv, Goes, Verdict, Track, SetsFirst, Harvesting, Starts;
    var K: seq<set<nat>>, two: set<nat> := [{0, 1, 2}, {0, 2}, {0, 2}, {0, 2}], {0, 2};
    TrackShape(job, s, K, [4, 1, 4], m);
    var s1, K1, m1 := Travel(job, s, K, [4, 1, 4], m, 1);
    assert [4, 1, 4][1 := 3] == [4, 3, 4];
    TrackShape(job, s1, K1, [4, 3, 4], m1);
    TwoIsNotFirst(job, two);
    assert K[1] == K[2] == two;
    Three(job);
    assert K1[3] + {1} == job.Workers();
    s', u := Complete4(job, s1, K1, [4, 3, 4], m1, 1);
    GoesOn(job, s, s1, s');
  }

  /**
   * If worker 2 has the greatest first exponent, a run without losses leads to a broadcast that every client accepts,
   * with all sums right and the first exponent too small.
   */
  lemma WrongExponent(job: Job, s: System) returns (evs: seq<Event>)
    requires job.Valid() && job.n == 3 && job.size == Mtu1024 && IsInit(job, s)
    requires job.exponent(0, 0, 0) < job.exponent(2, 0, 0) && job.exponent(1, 0, 0) < job.exponent(2, 0, 0)
    ensures SoundRun(job, s, evs) && NoLoss(evs)
    ensures var s' := After(job, s, evs);
            && Enabled(job, s', Deliver(0)) && Accepts(s', Deliver(0), 0)
            && s'.down[0][0].reply.kind == IsBroadcast && IsResult(job, s'.down[0][0], 0)
            && s'.down[0][0].reply.e0 < job.MaxExponent(job.Workers(), 0, 0)
  {
    hide Inv, Goes, Verdict, Run, IsResult, Below;
    var s1, u := SecondIsLast(job, s);
    var s2, r := HarvestAll(job, s1, u);
    GoesOn(job, s, s1, s2);
    evs := Evidence(job, s, s2);
    InitInv(job, s);
    RunInv(job, s, evs);
    assert s2.down[0] == [r];
    AcceptedIsOwnResult(job, s2, 0);
    ThirdIsGreater(job, r);
  }

  lemma ThirdIsGreater(job: Job, t: TaggedReply)
    requires IsResult(job, t, 0) && t.seen == {0, 1} && job.n == 3
    requires job.exponent(0, 0, 0) < job.exponent(2, 0, 0) && job.exponent(1, 0, 0) < job.exponent(2, 0, 0)
    ensures t.reply.e0 < job.MaxExponent(job.Workers(), 0, 0)
  {
    hide HasSums;
    var top: nat := job.exponent(2, 0, 0);
    job.MaxBelowAtMost({0, 1}, 0, 0, 3, top - 1);
    job.MaxBelowAtMost(job.Workers(), 0, 0, 3, top - 1);
    assert 2 in job.Workers();
  }

  // ---------- an answer that is too early ----------

  /** A retransmission that finds one worker missing in the last pipe, and carries the first flag. */
  lemma QueuesEarly(job: Job, s: System, K: seq<set<nat>>, pos: seq<nat>, marks: seq<Mark>, w: nat)
    returns (s': System, u: Tagged)
    requires Track(job, s, K, pos, marks) && w < job.n && pos[w] == 3 && w in K[3] && |K[3]| == job.n - 1
    requires marks[w].first
    ensures job.Valid() && Inv(job, s') && Goes(job, s, s') && Harvesting(job, s', u) && Starts(job, u, w)
    ensures s' == s.(links := s.links[Hop(3, w) := []], harvest := [u])
    ensures u.round == 0 && u.early && Leaves(u) && !IsBroadcastEntry(u)
  {
    hide Inv, Below, BitOf, PipeOk, NextStep, ConsumePass, Carries, Verdict, Route, SeenOk, IsTooEarly, Goes;
    hide AcceptsEarly;
    assert OnLink(s.links[Hop(3, w)], true, marks[w]);
    var ev := Consume(3, w);
    Head(job, s, 3, w);
    var t := s.links[Hop(3, w)][0];
    ConsumeOld(job, 3, s.pipes[3], 0, K[3], t.pkt, w, 0);
    var pass := ConsumePass(s.pipes[3], t.pkt);
    EarlyByFlag(job, s, 3, w, 1);
    ConsumeRow(job, t.pkt, w, 0, 3, 1, true);
    assert K[3] + {w} == K[3] && K[3 := K[3]] == K;
    var md := MetadataAfter(t.pkt, s.pipes[3].At(BitOf(0)).e0, 1, true);
    var d1, rest := t.pkt.payload[1], t.pkt.payload[2..];
    var p := Queued(job, md, d1, rest);
    u := Passed(job, s, 3, w, true, p);
    QueuedByRoute(job, Popped(job, s, 3, w, pass.regs), pass.outcome, u, md, s.pipes[3].At(BitOf(0)).d0, d1, rest);
    QueuedStarts(job, s, w, true, md, d1, rest);
    VerdictByFlags(job, p.md);
    SameVerdictOf(p.md, u.pkt.md);
    NotADelivery(s, ev);
    StepInv(job, s, ev);
    s' := Next(job, s, ev);
    InvValid(job, s');
    GoesStep(job, s, ev);
  }

  lemma SameVerdictOf(a: Metadata, b: Metadata)
    requires a == b
    ensures Verdict(a) == Verdict(b)
  {
  }

  /** Worker 0 is counted in every pipe, and worker 1 in pipe 0 only. */
  lemma OneAhead(job: Job, s: System) returns (s': System, m: seq<Mark>)
    requires job.Valid() && job.n == 2 && job.size == Mtu1024 && IsInit(job, s)
    ensures Track(job, s', [{0, 1}, {0}, {0}, {0}], [4, 1], m) && Goes(job, s, s')
    ensures |m| == 2 && m[1] == Mark(false, false, {0, 1})
  {
    hide Inv, Goes, Shape, Track, SetsFirst;
    var none: set<nat>, one: set<nat>, both: set<nat> := {}, {0}, {0, 1};
    assert none + {0} == one && one + {1} == both;
    assert !SetsFirst(job, one) by {
      HalfIsNotFirst(job, one);
    }
    Departure(job, s);
    assert Positions(2) == [0, 0];
    var m0 := Unmarked(2);
    var s1, K1, m1 := Travel(job, s, [none, none, none, none], [0, 0], m0, 0);
    assert K1 == [one, one, one, none] && [0, 0][0 := 3] == [3, 0];
    Pair(job);
    var s2 := Arrive(job, s1, K1, [3, 0], m1, 0);
    GoesOn(job, s, s1, s2);
    assert K1[3 := one] == [one, one, one, one] && [3, 0][0 := 4] == [4, 0];
    s' := Advance(job, s2, [one, one, one, one], [4, 0], m1, 1);
    GoesOn(job, s, s2, s');
    m := m1[1 := Marked(job, m1[1], 0, one, 1)];
    assert [one, one, one, one][0 := both] == [both, one, one, one] && [4, 0][1 := 1] == [4, 1];
  }

  lemma HalfIsNotFirst(job: Job, one: set<nat>)
    requires job.n == 2 && one == {0}
    ensures !SetsFirst(job, one)
  {
  }

  lemma BothAreFirst(job: Job, both: set<nat>)
    requires job.n == 2 && both == {0, 1}
    ensures SetsFirst(job, both) && |both| == 2
  {
  }

  /** Then worker 0's timer fires; pipe 0, which has counted everybody, passes its packet on with the first flag set. */
  lemma Approach(job: Job, s: System) returns (s': System, m: seq<Mark>)
    requires job.Valid() && job.n == 2 && job.size == Mtu1024 && IsInit(job, s)
    ensures Track(job, s', [{0, 1}, {0}, {0}, {0}], [3, 1], m) && Goes(job, s, s')
    ensures |m| == 2 && m[0].first && m[1] == Mark(false, false, {0, 1})
  {
    hide Inv, Goes, Shape, Track, SetsFirst;
    var s1, m1 := OneAhead(job, s);
    var one: set<nat>, both: set<nat> := {0}, {0, 1};
    var K := [both, one, one, one];
    BothAreFirst(job, both);
    var s2 := Resend(job, s1, K, [4, 1], m1, 0);
    GoesOn(job, s, s1, s2);
    assert [4, 1][0 := 0] == [0, 1];
    var m2 := m1[0 := Mark(false, false, {})];
    var s3, K3, m3 := Travel(job, s2, K, [0, 1], m2, 0);
    GoesOn(job, s, s2, s3);
    assert both + {0} == both && one + {0} == one;
    assert K3 == K && [0, 1][0 := 3] == [3, 1];
    s', m := s3, m3;
  }

  /**
   * In every 1024-byte job of two workers, a run without losses leads to a state in which worker 0 is handed an answer
   * to its retransmission that it accepts, and that has only its own contribution in slices 2 to 6.
   */
  lemma AnswerTooEarly(job: Job, s: System) returns (s1: System, s2: System, r: TaggedReply)
    requires job.Valid() && job.n == 2 && job.size == Mtu1024 && IsInit(job, s)
    ensures Goes(job, s, s2) && Inv(job, s1) && Shape(job, s2)
    ensures s1.hist.done == 0 && s1.hist.contrib == [{0, 1}, {0}, {0}, {0}]
    ensures s2.hist.done == 0 && s2.hist.contrib == s1.hist.contrib
    ensures s2.pipes == s1.pipes && s2.links == s1.links && s2.harvest == []
    ensures s2.clients == [Client(0, 0), Client(0, 0)]
    ensures s2.down == [[r], []] && r.early && r.round == 0 && r.reply.setBit == 0 && |r.parts| == 8
    ensures forall k | 0 <= k < 7 :: r.parts[k] == if k < 2 then {0, 1} else {0}
    ensures forall j, w | 0 <= j < 4 && 0 <= w < 2 ::
              OnLink(s1.links[Hop(j, w)], w == 1 && j == 1, Mark(false, false, {0, 1}))
  {
    hide Inv, Goes, Verdict, SetsFirst, IsInit, Leaves, IsBroadcastEntry;
    var s0, m := Approach(job, s);
    var one: set<nat>, both: set<nat> := {0}, {0, 1};
    var K := [both, one, one, one];
    assert |one| == 1;
    var u;
    s1, u := QueuesEarly(job, s0, K, [3, 1], m, 0);
    GoesOn(job, s, s0, s1);
    s2, r := HarvestAll(job, s1, u);
    GoesOn(job, s, s1, s2);
    assert forall j, w | 0 <= j < 4 && 0 <= w < 2 :: OnLink(s0.links[Hop(j, w)], j == [3, 1][w], m[w]);
    assert r.reply.setBit == BitOf(0) == 0;
    assert s0.down[0] == [] && s0.down[1] == [];
    assert s2.down[0] == [r] && s2.down[1] == [];
    assert |s2.down| == 2;
  }

  /** Client 0 accepts this answer, and it is wrong if worker 1 contributes anything to slices 2 to 6. */
  lemma WrongReplyAccepted(job: Job, s: System, k: nat, i: nat) returns (evs: seq<Event>)
    requires job.Valid() && job.n == 2 && job.size == Mtu1024 && IsInit(job, s)
    requires 2 <= k < 7 && i < 32 && job.word(1, 0, 32 * k + i) != 0
    ensures SoundRun(job, s, evs) && NoLoss(evs)
    ensures var s' := After(job, s, evs);
            && Enabled(job, s', Deliver(0)) && Accepts(s', Deliver(0), 0) && s'.clients[0].chunk == 0
            && !HasSums(job, s'.down[0][0].reply, 0)
  {
    hide Inv, Goes, Run, HasSums, IsInit;
    var s1, s2, r := AnswerTooEarly(job, s);
    evs := Evidence(job, s, s2);
    assert Reachable(job, s2);
    EarlyAnswerIff(job, s2, 0);
    MissingOne(job, r.parts[k], k, i);
  }

  lemma MissingOne(job: Job, K: set<nat>, k: nat, i: nat)
    requires job.n == 2 && K == {0} && job.word(1, 0, 32 * k + i) != 0
    ensures !OthersAddNothing(job, K, 0, k, i)
  {
    Pair(job);
    assert job.Workers() - K == {1};
    assert job.SumBelow({1}, 0, 32 * k + i, 0) == 0;
    assert job.SumBelow({1}, 0, 32 * k + i, 1) == 0;
  }

  lemma Evidence(job: Job, s: System, s': System) returns (evs: seq<Event>)
    requires Goes(job, s, s')
    ensures SoundRun(job, s, evs) && NoLoss(evs) && After(job, s, evs) == s'
  {
    evs :| SoundRun(job, s, evs) && NoLoss(evs) && After(job, s, evs) == s';
  }

  lemma Pair(job: Job)
    requires job.n == 2
    ensures job.Workers() == {0, 1}
  {
  }
}
