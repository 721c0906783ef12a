/**
 * A stream without disturbance: if nothing is lost and no timer fires, the broadcasts alone bring every client the
 * result of every chunk, with any number of workers and for both packet sizes.
 */
module Streaming {
  import opened Jobs
  import opened SwitchTables
  import opened SwitchPass
  import opened PipeInvariant
  import opened Protocol
  import opened ProtocolInvariant
  import opened HarvestInvariant
  import opened ConsumeInvariant
  import opened ProtocolSafety
  import opened Replies
  import opened Recovery
  import opened Scenarios

  /** Nothing is lost, and no timer fires. */
  predicate Undisturbed(evs: seq<Event>) {
    forall k | 0 <= k < |evs| :: !IsLoss(evs[k]) && !evs[k].Retransmit?
  }

  predicate JustOne(q: seq<Tagged>, r: nat) {
    |q| == 1 && q[0].round == r
  }

  ghost predicate Common(job: Job, s: System) {
    Inv(job, s) && Shape(job, s) && job.Valid()
  }

  /** In round r, the workers before w are counted, w's packet waits for pipe j, and the others are still to come. */
  ghost predicate Moving(job: Job, s: System, r: nat, w: nat, j: nat) {
    Common(job, s) && InTurn(job, s, r, w, j)
  }

  ghost predicate InTurn(job: Job, s: System, r: nat, w: nat, j: nat)
    requires Shape(job, s)
  {
    && w < job.n && j < job.Pipes() && s.hist.done == r && s.harvest == []
    && (forall v | 0 <= v < job.n :: s.clients[v].chunk == r && s.down[v] == [])
    && (forall i | 0 <= i < job.Pipes() :: s.hist.contrib[i] == Below(if i < j then w + 1 else w))
    && (forall i, v | 0 <= i < job.Pipes() && 0 <= v < job.n :: AtPipe(s.links[Hop(i, v)], job.n, r, w, j, i, v))
  }

  /** What link (i, v) holds then. */
  predicate AtPipe(q: seq<Tagged>, n: nat, r: nat, w: nat, j: nat, i: nat, v: nat) {
    if v == w && i == j then JustOne(q, r) && Plain(q[0], n, w)
    else if w < v && i == 0 then JustOne(q, r)
    else q == []
  }

  /** The packet is no retransmission, and only the first worker's is marked as first, unless it is the only one. */
  predicate Plain(t: Tagged, n: nat, w: nat) {
    !t.pkt.md.dupFlag && (t.pkt.md.firstFlag ==> w == 0 && n != 1)
  }

  /** The round is complete, and its broadcast is on its way through the harvest passes. */
  ghost predicate Finishing(job: Job, s: System, r: nat) {
    && Common(job, s) && Emptied(job, s, r)
    && |s.harvest| == 1 && s.harvest[0].round == r && IsBroadcastEntry(s.harvest[0])
    && forall v | 0 <= v < job.n :: s.clients[v].chunk == r && s.down[v] == []
  }

  /** Round r is complete, and no packet is on its way to be counted. */
  ghost predicate Emptied(job: Job, s: System, r: nat)
    requires Shape(job, s)
  {
    && s.hist.done == r + 1 && (forall i | 0 <= i < job.Pipes() :: s.hist.contrib[i] == {})
    && forall i, v | 0 <= i < job.Pipes() && 0 <= v < job.n :: s.links[Hop(i, v)] == []
  }

  /** The clients before w have accepted the reply and gone on, the others have it on their links. */
  ghost predicate Handing(job: Job, s: System, r: nat, w: nat) {
    && Common(job, s) && w <= job.n && s.hist.done == r + 1 && s.harvest == []
    && (forall i | 0 <= i < job.Pipes() :: s.hist.contrib[i] == {})
    && (forall v | 0 <= v < job.n :: Handed(s, r, w, v))
    && (forall i, v | 0 <= i < job.Pipes() && 0 <= v < job.n ::
          if i == 0 && v < w then JustOne(s.links[Hop(i, v)], r + 1) else s.links[Hop(i, v)] == [])
  }

  predicate Handed(s: System, r: nat, w: nat, v: nat)
    requires v < |s.clients| && v < |s.down|
  {
    if v < w then s.clients[v].chunk == r + 1 && s.down[v] == []
    else s.clients[v].chunk == r && |s.down[v]| == 1 && s.down[v][0].round == r && !s.down[v][0].early
  }

  // ---------- events ----------

  /** An event in which no early answer is accepted, followed by a run. */
  lemma Then(job: Job, s: System, ev: Event, rest: seq<Event>)
    requires Common(job, s) && Enabled(job, s, ev) && !AcceptsEarly(s, ev) && !IsLoss(ev) && !ev.Retransmit?
    requires SoundRun(job, Next(job, s, ev), rest) && Undisturbed(rest)
    ensures SoundRun(job, s, [ev] + rest) && Undisturbed([ev] + rest)
    ensures After(job, s, [ev] + rest) == After(job, Next(job, s, ev), rest)
  {
    hide Inv, Next, Enabled, AcceptsEarly, Shape;
    OneEvent(job, s, ev);
    Concatenated(job, s, [ev], rest);
  }

  lemma Nothing(job: Job, s: System)
    requires Shape(job, s)
    ensures SoundRun(job, s, []) && Undisturbed([]) && After(job, s, []) == s
  {
  }

  lemma CommonNext(job: Job, s: System, ev: Event)
    requires Common(job, s) && Enabled(job, s, ev) && !AcceptsEarly(s, ev)
    ensures Common(job, Next(job, s, ev))
  {
    hide Inv, Next, Enabled, AcceptsEarly;
    StepInv(job, s, ev);
    InvValid(job, Next(job, s, ev));
  }

  // ---------- counting ----------

  lemma OneMore(w: nat)
    ensures Below(w) + {w} == Below(w + 1) && w !in Below(w)
  {
  }

  /** A packet that is new in a pipe before the last one goes on to the next one, and keeps its flags plain. */
  lemma NewGoesOn(job: Job, s: System, j: nat, w: nat)
    requires Inv(job, s) && Enabled(job, s, Consume(j, w)) && IsNew(job, s, j, w) && j + 1 < job.Pipes()
    requires Plain(s.links[Hop(j, w)][0], job.n, w) && (s.hist.contrib[j] == {} ==> w == 0)
    ensures Hop(j + 1, w) in s.links
    ensures var s', q := Next(job, s, Consume(j, w)), s.links[Hop(j + 1, w)];
            && s'.clients == s.clients && s'.harvest == s.harvest && s'.down == s.down
            && s'.hist == s.hist.(contrib := s.hist.contrib[j := s.hist.contrib[j] + {w}])
            && Hop(j + 1, w) in s'.links && |s'.links[Hop(j + 1, w)]| == |q| + 1
            && s'.links == s.links[Hop(j, w) := s.links[Hop(j, w)][1..]][Hop(j + 1, w) := s'.links[Hop(j + 1, w)]]
            && s'.links[Hop(j + 1, w)][|q|].round == s.hist.done && Plain(s'.links[Hop(j + 1, w)][|q|], job.n, w)
  {
    hide Inv, Below, BitOf, PipeOk, Carries, NextStep, ConsumePass, Next, PacketOk;
    Head(job, s, j, w);
    HeadCarries(job, s, j, w);
    var t, K := s.links[Hop(j, w)][0], s.hist.contrib[j];
    var e0 := ConsumeNew(job, j, s.pipes[j], s.hist.done, K, t.pkt, w);
    ConsumeRow(job, t.pkt, w, s.hist.done, j, NewFlag(job, K), false);
    job.ContributorCount(K);
    var pass := ConsumePass(s.pipes[j], t.pkt);
    PassedOn(job, s, j, w, pass.outcome.pkt);
    PassedTags(job, s, j, w, pass.dup, pass.outcome.pkt);
  }

  lemma FreshIsPlain(job: Job, s: System, w: nat)
    requires Inv(job, s) && Enabled(job, s, Consume(0, w))
    ensures Plain(s.links[Hop(0, w)][0], job.n, w)
  {
    hide Inv;
    HeadCarries(job, s, 0, w);
  }

  /** Worker w's packet goes on to the next pipe. */
  lemma Advances(job: Job, s: System, r: nat, w: nat, j: nat)
    requires Moving(job, s, r, w, j) && j + 1 < job.Pipes()
    ensures Enabled(job, s, Consume(j, w)) && !AcceptsEarly(s, Consume(j, w))
    ensures Moving(job, Next(job, s, Consume(j, w)), r, w, j + 1)
  {
    hide Inv, Next, Below, Plain;
    assert AtPipe(s.links[Hop(j, w)], job.n, r, w, j, j, w);
    assert AtPipe(s.links[Hop(j + 1, w)], job.n, r, w, j, j + 1, w);
    OneMore(w);
    BelowNone(w);
    NewGoesOn(job, s, j, w);
    CommonNext(job, s, Consume(j, w));
  }

  lemma BelowNone(w: nat)
    ensures Below(w) == {} ==> w == 0
  {
    assert w != 0 ==> 0 in Below(w);
  }

  /** What completing a round leaves of the count of workers. */
  lemma NextRoundIsEmpty(job: Job, s: System, j: nat, w: nat)
    requires Shape(job, s) && Enabled(job, s, Consume(j, w))
    requires Next(job, s, Consume(j, w)).hist.done == s.hist.done + 1
    ensures forall i | 0 <= i < job.Pipes() :: i < |Next(job, s, Consume(j, w)).hist.contrib|
              && Next(job, s, Consume(j, w)).hist.contrib[i] == {}
  {
    hide ConsumePass, Below;
  }

  /** Its last consume pass: the next worker's turn, or the broadcast of the complete round. */
  lemma Arrives(job: Job, s: System, r: nat, w: nat)
    requires Moving(job, s, r, w, job.Pipes() - 1)
    ensures Enabled(job, s, Consume(job.Pipes() - 1, w)) && !AcceptsEarly(s, Consume(job.Pipes() - 1, w))
    ensures var s' := Next(job, s, Consume(job.Pipes() - 1, w));
            if w + 1 < job.n then Moving(job, s', r, w + 1, 0) else Finishing(job, s', r)
  {
    hide Inv, Next, Below, Verdict;
    var j := job.Pipes() - 1;
    var s' := Next(job, s, Consume(j, w));
    assert AtPipe(s.links[Hop(j, w)], job.n, r, w, j, j, w);
    OneMore(w);
    NewStep(job, s, j, w);
    NewPacket(job, s, j, w);
    NoReplyFromConsume(job, s, j, w);
    CommonNext(job, s, Consume(j, w));
    WorkersBelow(job, w + 1);
    if w + 1 < job.n {
      assert AtPipe(s.links[Hop(0, w + 1)], job.n, r, w, j, 0, w + 1);
      FreshIsPlain(job, s', w + 1);
    } else {
      NextRoundIsEmpty(job, s, j, w);
    }
  }

  lemma WorkersBelow(job: Job, m: nat)
    requires m <= job.n
    ensures Below(m) == job.Workers() <==> m == job.n
  {
    assert m < job.n ==> m in job.Workers() && m !in Below(m);
  }

  /** Every worker's packet makes its passes. */
  lemma {:induction false} Counts(job: Job, s: System, r: nat, w: nat, j: nat) returns (evs: seq<Event>)
    requires Moving(job, s, r, w, j)
    ensures SoundRun(job, s, evs) && Undisturbed(evs) && Finishing(job, After(job, s, evs), r)
    decreases job.n - w, job.Pipes() - j
  {
    hide Inv, Next, Finishing, Below, AcceptsEarly, Enabled, Shape;
    var ev := Consume(j, w);
    var rest;
    if j + 1 < job.Pipes() {
      Advances(job, s, r, w, j);
      rest := Counts(job, Next(job, s, ev), r, w, j + 1);
    } else {
      Arrives(job, s, r, w);
      if w + 1 < job.n {
        rest := Counts(job, Next(job, s, ev), r, w + 1, 0);
      } else {
        FinishingShape(job, Next(job, s, ev), r);
        Nothing(job, Next(job, s, ev));
        rest := [];
      }
    }
    Then(job, s, ev, rest);
    evs := [ev] + rest;
  }

  lemma FinishingShape(job: Job, s: System, r: nat)
    requires Finishing(job, s, r)
    ensures Common(job, s) && |s.harvest| == 1
  {
  }

  // ---------- the broadcast ----------

  lemma HarvestsOnce(job: Job, s: System, r: nat)
    requires Finishing(job, s, r)
    ensures Enabled(job, s, Harvest(0)) && !AcceptsEarly(s, Harvest(0))
    ensures var s', t := Next(job, s, Harvest(0)), s.harvest[0];
            if t.pkt.md.packetType < HARVEST7 then
              Finishing(job, s', r) && s'.harvest[0].pkt.md.packetType == t.pkt.md.packetType + 1
            else Handing(job, s', r, 0)
  {
    hide Inv, Next, Below, Verdict, IsResult;
    HarvestHead(job, s);
    HarvestEffect(job, s, 0);
    var reply := ReplyReaches(job, s, 0);
    CommonNext(job, s, Harvest(0));
    EntryIsInTime(job, s);
  }

  lemma EntryIsInTime(job: Job, s: System)
    requires Inv(job, s) && s.harvest != [] && IsBroadcastEntry(s.harvest[0])
    ensures !s.harvest[0].early
  {
    hide Inv, Verdict, Collected;
    HarvestAt(job, s, 0);
  }

  lemma {:induction false} Broadcast(job: Job, s: System, r: nat) returns (evs: seq<Event>)
    requires Finishing(job, s, r)
    ensures SoundRun(job, s, evs) && Undisturbed(evs) && Handing(job, After(job, s, evs), r, 0)
    decreases 16 - s.harvest[0].pkt.md.packetType
  {
    hide Inv, Next, Finishing, Handing, Below, AcceptsEarly, Enabled, Shape;
    FinishingShape(job, s, r);
    HarvestsOnce(job, s, r);
    var s' := Next(job, s, Harvest(0));
    var rest;
    if s.harvest[0].pkt.md.packetType < HARVEST7 {
      FinishingShape(job, s', r);
      rest := Broadcast(job, s', r);
    } else {
      HandingShape(job, s', r, 0);
      Nothing(job, s');
      rest := [];
    }
    Then(job, s, Harvest(0), rest);
    evs := [Harvest(0)] + rest;
  }

  lemma HandingShape(job: Job, s: System, r: nat, w: nat)
    requires Handing(job, s, r, w)
    ensures Common(job, s)
  {
  }

  // ---------- the clients ----------

  lemma TakesReply(job: Job, s: System, r: nat, w: nat)
    requires Handing(job, s, r, w) && w < job.n
    ensures Enabled(job, s, Deliver(w)) && !AcceptsEarly(s, Deliver(w))
    ensures Handing(job, Next(job, s, Deliver(w)), r, w + 1)
  {
    hide Inv, Below, Send, ReplyOk;
    assert Handed(s, r, w, w);
    AcceptMeansOwnChunk(job, s, w);
    CommonNext(job, s, Deliver(w));
    var s', w' := Next(job, s, Deliver(w)), w + 1;
    forall v | 0 <= v < job.n
      ensures Handed(s', r, w', v)
    {
      assert Handed(s, r, w, v);
    }
  }

  lemma NextRound(job: Job, s: System, r: nat)
    requires Handing(job, s, r, job.n)
    ensures Moving(job, s, r + 1, 0, 0)
  {
    hide Inv, Plain;
    forall v | 0 <= v < job.n
      ensures s.clients[v].chunk == r + 1 && s.down[v] == []
    {
      assert Handed(s, r, job.n, v);
    }
    assert Below(0) == {};
    assert JustOne(s.links[Hop(0, 0)], r + 1);
    FreshIsPlain(job, s, 0);
  }

  /** Every client accepts the reply and posts its next chunk. */
  lemma {:induction false} Delivers(job: Job, s: System, r: nat, w: nat) returns (evs: seq<Event>)
    requires Handing(job, s, r, w)
    ensures SoundRun(job, s, evs) && Undisturbed(evs) && Moving(job, After(job, s, evs), r + 1, 0, 0)
    decreases job.n - w
  {
    hide Inv, Next, Moving, Handing, Below, AcceptsEarly, Enabled, Shape;
    HandingShape(job, s, r, w);
    if w < job.n {
      TakesReply(job, s, r, w);
      var rest := Delivers(job, Next(job, s, Deliver(w)), r, w + 1);
      Then(job, s, Deliver(w), rest);
      evs := [Deliver(w)] + rest;
    } else {
      HandingLast(job, s, r, w);
      NextRound(job, s, r);
      Nothing(job, s);
      evs := [];
    }
  }

  lemma HandingLast(job: Job, s: System, r: nat, w: nat)
    requires Handing(job, s, r, w) && job.n <= w
    ensures w == job.n
  {
  }

  // ---------- the stream ----------

  lemma Begins(job: Job, s: System)
    requires job.Valid() && IsInit(job, s)
    ensures Moving(job, s, 0, 0, 0)
  {
    hide Inv, Plain;
    InitInv(job, s);
    assert Below(0) == {};
    FreshIsPlain(job, s, 0);
  }

  lemma Joined(job: Job, s: System, a: seq<Event>, b: seq<Event>)
    requires SoundRun(job, s, a) && Undisturbed(a) && SoundRun(job, After(job, s, a), b) && Undisturbed(b)
    ensures SoundRun(job, s, a + b) && Undisturbed(a + b)
    ensures After(job, s, a + b) == After(job, After(job, s, a), b)
  {
    hide Next, Enabled, Shape, AcceptsEarly;
    Concatenated(job, s, a, b);
  }

  /** Round after round, all clients go on together. */
  lemma {:induction false} Rounds(job: Job, s: System, k: nat) returns (evs: seq<Event>)
    requires job.Valid() && IsInit(job, s)
    ensures SoundRun(job, s, evs) && Undisturbed(evs) && Moving(job, After(job, s, evs), k, 0, 0)
  {
    hide IsInit, Moving, Finishing, Handing, Undisturbed, Shape;
    if k == 0 {
      Begins(job, s);
      MovingShape(job, s, 0);
      Nothing(job, s);
      evs := [];
    } else {
      var a := Rounds(job, s, k - 1);
      var s1 := After(job, s, a);
      var b := Counts(job, s1, k - 1, 0, 0);
      Joined(job, s, a, b);
      var c := Broadcast(job, After(job, s, a + b), k - 1);
      Joined(job, s, a + b, c);
      var d := Delivers(job, After(job, s, a + b + c), k - 1, 0);
      Joined(job, s, a + b + c, d);
      evs := a + b + c + d;
    }
  }

  lemma MovingShape(job: Job, s: System, r: nat)
    requires Moving(job, s, r, 0, 0)
    ensures Shape(job, s) && forall w | 0 <= w < job.n :: s.clients[w].chunk == r
  {
  }

  /**
   * For any number of chunks there is a run from the start of the job, without any loss and without any timer, in which
   * every client accepts the results of all of them.
   */
  lemma Streams(job: Job, s: System, k: nat) returns (evs: seq<Event>)
    requires job.Valid() && IsInit(job, s)
    ensures SoundRun(job, s, evs) && Undisturbed(evs)
    ensures forall w: nat | w < job.n ::
              |Received(job, s, evs, w)| == k && forall i | 0 <= i < k :: IsResult(job, Received(job, s, evs, w)[i], i)
  {
    hide IsInit, Moving, Undisturbed, Shape, Received, IsResult, After, Run;
    evs := Rounds(job, s, k);
    MovingShape(job, After(job, s, evs), k);
    forall w: nat | w < job.n
      ensures |Received(job, s, evs, w)| == k && forall i | 0 <= i < k :: IsResult(job, Received(job, s, evs, w)[i], i)
    {
      AllReduce(job, s, evs, w);
    }
  }

  /** Registers with clear bitmaps and counts, whatever else they hold, are a start. */
  lemma CanStart(job: Job, pipes: seq<Registers>) returns (s: System)
    requires |pipes| == job.Pipes() && forall j | 0 <= j < |pipes| :: IsClear(pipes[j].even) && IsClear(pipes[j].odd)
    ensures IsInit(job, s) && s.pipes == pipes
  {
    var links := map j: nat, w: nat | j < job.Pipes() && w < job.n ::
                   Hop(j, w) := if j == 0 then [Fresh(job, w, Client(0, 0))] else [];
    var clients := seq(job.n, _ => Client(0, 0));
    s := System(pipes, links, [], seq(job.n, _ => []), clients, History(0, NoneYet(job.Pipes()), 0));
  }
}
