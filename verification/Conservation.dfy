/** Nothing comes from nowhere: packets and replies are conserved over every run. */
module Conservation {
  import opened Jobs
  import opened SwitchTables
  import opened SwitchPass
  import opened PipeInvariant
  import opened Protocol
  import opened ProtocolInvariant
  import opened ConsumeInvariant
  import opened ProtocolSafety
  import opened Replies

  /** How many events of a run are of a kind. */
  ghost function Count(job: Job, s: System, evs: seq<Event>, kind: (System, Event) -> bool): nat
    requires Run(job, s, evs)
    decreases |evs|
  {
    if evs == [] then 0
    else (if kind(s, evs[0]) then 1 else 0) + Count(job, Next(job, s, evs[0]), evs[1..], kind)
  }

  /** Client w posts a packet: its timer has fired, or it has accepted a reply. */
  function Posts(w: nat): (System, Event) -> bool {
    (s: System, ev: Event) => ev == Event.Retransmit(w) || (w < |s.down| == |s.clients| && Accepts(s, ev, w))
  }

  /** A packet of client w leaves the link to the switch. */
  function Takes(w: nat): (System, Event) -> bool {
    (s: System, ev: Event) => ev == Consume(0, w) || (ev.LosePacket? && ev.j == 0 && ev.w == w)
  }

  /** The last harvest pass of a broadcast, or of a retransmission to worker w. */
  function Answers(w: nat): (System, Event) -> bool {
    (s: System, ev: Event) =>
      && ev.Harvest? && ev.i < |s.harvest| && s.harvest[ev.i].pkt.md.packetType == HARVEST7
      && (IsBroadcastEntry(s.harvest[ev.i]) || (Leaves(s.harvest[ev.i]) && s.harvest[ev.i].pkt.md.worker == w))
  }

  /** A reply leaves the link to client w. */
  function Handles(w: nat): (System, Event) -> bool {
    (s: System, ev: Event) => ev == Deliver(w) || (ev.LoseReply? && ev.w == w)
  }

  /** A consume pass feeds only the links behind its pipe. */
  lemma ConsumeFeeds(job: Job, s: System, j: nat, w: nat, v: nat)
    requires Inv(job, s) && Enabled(job, s, Consume(j, w)) && v < job.n
    ensures var s' := Next(job, s, Consume(j, w));
            && Hop(0, v) in s'.links && s'.down == s.down && s'.clients == s.clients
            && s'.links[Hop(0, v)] == if j == 0 && w == v then s.links[Hop(0, v)][1..] else s.links[Hop(0, v)]
  {
    hide Inv, Below, BitOf, PipeOk, SeenOk, ConsumePass, NextStep, Aggregated;
    Head(job, s, j, w);
    HarvestOnlyFromLast(job, s, j, w);
    var t := s.links[Hop(j, w)][0];
    RecirculatedAhead(job, s, j, w);
  }

  lemma RecirculatedAhead(job: Job, s: System, j: nat, w: nat)
    requires Inv(job, s) && Enabled(job, s, Consume(j, w))
    ensures var outcome := ConsumePass(s.pipes[j], s.links[Hop(j, w)][0].pkt).outcome;
            outcome.Recirculated? && IsConsume(outcome.pkt.md.packetType) ==> PipeOfPort(outcome.pkt.port) == j + 1
  {
    hide Inv, Below, BitOf, PipeOk, NextStep, SeenOk, Stick, Aggregated;
    Head(job, s, j, w);
    var t := s.links[Hop(j, w)][0];
    ConsumeEffect(s.pipes[j], t.pkt);
    var pass := ConsumePass(s.pipes[j], t.pkt);
    ConsumeRow(job, t.pkt, w, t.round, j, pass.flag, pass.dup);
  }

  lemma StepConserves(job: Job, s: System, ev: Event, w: nat)
    requires Inv(job, s) && Shape(job, s) && Enabled(job, s, ev) && w < job.n
    requires Shape(job, Next(job, s, ev))
    ensures var s' := Next(job, s, ev);
            && |s.links[Hop(0, w)]| + One(Posts(w)(s, ev)) == |s'.links[Hop(0, w)]| + One(Takes(w)(s, ev))
            && |s.down[w]| + One(Answers(w)(s, ev)) == |s'.down[w]| + One(Handles(w)(s, ev))
  {
    hide Inv, Below, BitOf, HarvestNext, ConsumeHead, Settle, Send, Verdict, IsResult;
    match ev {
      case Consume(j, v) => ConsumeFeeds(job, s, j, v, w);
      case Harvest(i) => var r := ReplyReaches(job, s, i);
      case _ =>
    }
  }

  /**
   * For every client, over every run in which nobody accepts an answer too early: what was on its links and what was
   * posted or answered is what was taken from the links and what is still there.
   */
  lemma {:induction false} Conserves(job: Job, s: System, evs: seq<Event>, w: nat)
    requires Inv(job, s) && SoundRun(job, s, evs) && w < job.n
    ensures var s' := After(job, s, evs);
            && |s.links[Hop(0, w)]| + Count(job, s, evs, Posts(w)) ==
               |s'.links[Hop(0, w)]| + Count(job, s, evs, Takes(w))
            && |s.down[w]| + Count(job, s, evs, Answers(w)) == |s'.down[w]| + Count(job, s, evs, Handles(w))
    decreases |evs|
  {
    hide Inv, Next, Enabled, AcceptsEarly, Posts, Takes, Answers, Handles;
    if evs != [] {
      StepInv(job, s, evs[0]);
      StepConserves(job, s, evs[0], w);
      Conserves(job, Next(job, s, evs[0]), evs[1..], w);
    }
  }

  /**
   * From the start of a job: the first packet, those of timers and those of accepted replies are the ones the switch
   * has received, the ones lost, and the ones on their way. Every broadcast, and every retransmission to the client,
   * has been handled by the client or lost, or is on its way.
   */
  lemma Accounted(job: Job, s: System, evs: seq<Event>, w: nat)
    requires job.Valid() && IsInit(job, s) && Run(job, s, evs) && w < job.n
    requires job.size == Mtu256 || SoundRun(job, s, evs)
    ensures var s' := After(job, s, evs);
            && 1 + Count(job, s, evs, Posts(w)) == |s'.links[Hop(0, w)]| + Count(job, s, evs, Takes(w))
            && Count(job, s, evs, Answers(w)) == |s'.down[w]| + Count(job, s, evs, Handles(w))
  {
    hide Inv, SoundRun, Run, After, Count;
    InitInv(job, s);
    if job.size == Mtu256 {
      SmallIsSound(job, s, evs);
    }
    Conserves(job, s, evs, w);
  }
}
