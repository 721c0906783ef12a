/** The inductive invariant of the protocol, and its proof for every event. */
module ProtocolInvariant {
  import opened Words
  import opened Jobs
  import opened SwitchTables
  import opened SwitchPass
  import opened PipeInvariant
  import opened Protocol

  /** Slice number `slice` of a reply: the full sum, except that a retransmission keeps the worker's own last slice. */
  function Expected(job: Job, w: nat, r: nat, own: bool, slice: nat): Slice {
    if own && slice == 2 * job.Pipes() - 1 then job.Own(w, r, slice) else job.Full(r, slice)
  }

  /** The payload consists of the expected slices from number `from` on. */
  ghost predicate Collected(job: Job, payload: seq<Slice>, w: nat, r: nat, own: bool, from: nat) {
    && |payload| + from == 2 * job.Pipes()
    && forall i | 0 <= i < |payload| :: payload[i] == Expected(job, w, r, own, from + i)
  }

  /** The packet was a retransmission in pipe 0, after pipe 0 had counted everybody for its round. */
  predicate Repeated(job: Job, t: Tagged) {
    t.seen == job.Workers() && t.pkt.md.firstFlag && t.pkt.md.dupFlag
  }

  /** A packet that has left pipe 0 carries the maximum exponent of the workers it has seen there. */
  ghost predicate SeenOk(job: Job, t: Tagged, done: nat, here: bool) {
    && t.seen <= job.Workers() && t.pkt.md.e0 == job.MaxExponent(t.seen, t.round, 0)
    && (here || t.round < done || t.pkt.md.dupFlag ==> Repeated(job, t))
  }

  /** A packet waits in front of pipe j. `here` and `before`: is its worker counted in pipe j, and one stage earlier? */
  ghost predicate PacketOk(job: Job, t: Tagged, j: nat, w: nat, done: nat, here: bool, before: bool) {
    && Carries(job, t.pkt, w, t.round, j)
    && t.round <= done <= t.round + 1
    && (here ==> t.round == done)
    && (t.round == done ==> before)
    && (j != 0 ==> SeenOk(job, t, done, here))
  }

  /**
   * Packets keep the order of their rounds, and only the first one of a round can be new in the pipes behind pipe 0.
   */
  ghost predicate LinkOk(job: Job, q: seq<Tagged>, j: nat, w: nat, done: nat, here: bool, before: bool) {
    && (forall i | 0 <= i < |q| :: PacketOk(job, q[i], j, w, done, here, before))
    && (forall i, k | 0 <= i < k < |q| ::
          q[i].round <= q[k].round && (j != 0 && q[i].round == q[k].round ==> Repeated(job, q[k])))
  }

  /** The recirculation ports for packets of the types from HARVEST1 to HARVEST7. */
  const HARVEST_PORTS: seq<nat> := [452, 324, 324, 196, 196, 64, 68]

  function HarvestPort(t: PacketType): nat {
    if t < HARVEST1 then 0 else HARVEST_PORTS[t - HARVEST1]
  }

  predicate Leaves(t: Tagged) {
    Verdict(t.pkt.md) != Drop
  }

  predicate IsBroadcastEntry(t: Tagged) {
    Verdict(t.pkt.md) == Broadcast
  }

  /** A packet being harvested that will be answered, and not too early. */
  predicate LeavesInTime(t: Tagged) {
    Leaves(t) && !t.early
  }

  /** A packet being harvested; `complete` is a bound above all complete rounds. */
  ghost predicate HarvestEntryOk(job: Job, t: Tagged, complete: nat, replied: nat) {
    var md, stage := t.pkt.md, t.pkt.md.packetType;
    && md.worker < job.n && md.size == job.size && md.workerType == job.workerType && md.setBit == BitOf(t.round)
    && 17 - 2 * job.Pipes() <= stage && t.pkt.port == HarvestPort(stage)
    && (job.Pipes() == 1 ==> t.own == md.dupFlag && (md.firstFlag ==> md.dupFlag))
    && (t.early ==> job.Pipes() != 1 && !IsBroadcastEntry(t))
    && (LeavesInTime(t) ==>
        && t.round < complete && replied <= t.round + 1
        && (IsBroadcastEntry(t) ==> replied <= t.round && !t.own)
        && Collected(job, t.pkt.payload, md.worker, t.round, t.own, 16 - stage)
        && t.seen <= job.Workers() && md.e0 == job.MaxExponent(t.seen, t.round, 0)
        && (job.Pipes() == 1 || !IsBroadcastEntry(t) ==> t.seen == job.Workers()))
  }

  /** Replies leave in the order of their rounds, and the broadcast of a round is the first of them. */
  ghost predicate InOrder(t: Tagged, u: Tagged) {
    LeavesInTime(t) && LeavesInTime(u) ==> t.round <= u.round && (IsBroadcastEntry(u) ==> t.round < u.round)
  }

  ghost predicate HarvestOk(job: Job, q: seq<Tagged>, complete: nat, replied: nat) {
    && (forall i | 0 <= i < |q| :: HarvestEntryOk(job, q[i], complete, replied))
    && (forall i, k | 0 <= i < k < |q| :: InOrder(q[i], q[k]))
  }

  ghost predicate ReplyOk(job: Job, t: TaggedReply, w: nat, chunk: nat, replied: nat) {
    && t.round < replied && chunk <= t.round + 1
    && t.reply.setBit == BitOf(t.round)
    && Collected(job, t.reply.payload, w, t.round, t.own, 0)
    && (t.reply.kind == IsBroadcast ==> !t.own)
    && (job.Pipes() == 1 && t.reply.kind == IsRetransmit ==> t.own)
    && t.reply.e1 == job.MaxExponent(job.Workers(), t.round, 1)
    && t.seen <= job.Workers() && t.reply.e0 == job.MaxExponent(t.seen, t.round, 0)
    && (job.Pipes() == 1 || t.reply.kind == IsRetransmit ==> t.seen == job.Workers())
  }

  /** Replies that answer too early are on the links, too, but nothing is known about them. */
  ghost predicate DownOk(job: Job, q: seq<TaggedReply>, w: nat, chunk: nat, replied: nat) {
    && (forall i | 0 <= i < |q| ::
          (job.Pipes() == 1 ==> !q[i].early) && (!q[i].early ==> ReplyOk(job, q[i], w, chunk, replied)))
    && (forall i, k | 0 <= i < k < |q| && !q[i].early && !q[k].early :: q[i].round <= q[k].round)
  }

  ghost predicate ClientOk(c: Client, h: History) {
    c.chunk <= h.replied && h.done <= c.chunk + 1 && c.setBit == BitOf(c.chunk)
  }

  ghost predicate ClientsOk(job: Job, clients: seq<Client>, h: History) {
    |clients| == job.n && forall w | 0 <= w < job.n :: ClientOk(clients[w], h)
  }

  /** Has worker w got as far as the link in front of pipe j with the round being collected? */
  predicate Before(clients: seq<Client>, h: History, j: nat, w: nat)
    requires w < |clients| && j <= |h.contrib|
  {
    if j == 0 then clients[w].chunk == h.done else w in h.contrib[j - 1]
  }

  ghost predicate ContribOk(job: Job, clients: seq<Client>, h: History) {
    && |clients| == job.n && |h.contrib| == job.Pipes()
    && forall j, w | 0 <= j < job.Pipes() && w in h.contrib[j] :: w < job.n && Before(clients, h, j, w)
  }

  ghost predicate PipesOk(job: Job, pipes: seq<Registers>, h: History) {
    && |pipes| == |h.contrib| == job.Pipes()
    && forall j | 0 <= j < job.Pipes() :: PipeOk(job, j, pipes[j], h.done, h.contrib[j])
  }

  ghost predicate LinksOk(job: Job, links: map<Hop, seq<Tagged>>, clients: seq<Client>, h: History) {
    && |clients| == job.n && |h.contrib| == job.Pipes()
    && (forall j, w | 0 <= j < job.Pipes() && 0 <= w < job.n :: Hop(j, w) in links)
    && forall j, w | 0 <= j < job.Pipes() && 0 <= w < job.n ::
         LinkOk(job, links[Hop(j, w)], j, w, h.done, w in h.contrib[j], Before(clients, h, j, w))
  }

  ghost predicate DownsOk(job: Job, down: seq<seq<TaggedReply>>, clients: seq<Client>, replied: nat) {
    && |down| == |clients| == job.n
    && forall w | 0 <= w < job.n :: DownOk(job, down[w], w, clients[w].chunk, replied)
  }

  function Complete(job: Job, h: History): nat
    requires |h.contrib| == job.Pipes()
  {
    if h.contrib[job.Pipes() - 1] == job.Workers() then h.done + 1 else h.done
  }

  /** The invariant, except that the last worker of a round may just have been counted. */
  ghost predicate Almost(job: Job, s: System) {
    && job.Valid() && Shape(job, s)
    && s.hist.replied <= s.hist.done <= s.hist.replied + 1
    && ClientsOk(job, s.clients, s.hist)
    && ContribOk(job, s.clients, s.hist)
    && PipesOk(job, s.pipes, s.hist)
    && LinksOk(job, s.links, s.clients, s.hist)
    && HarvestOk(job, s.harvest, Complete(job, s.hist), s.hist.replied)
    && DownsOk(job, s.down, s.clients, s.hist.replied)
  }

  ghost predicate Inv(job: Job, s: System) {
    Almost(job, s) && s.hist.contrib[job.Pipes() - 1] != job.Workers()
  }

  // ---------- the initial state ----------

  lemma SendCarries(job: Job, w: nat, c: Client)
    requires c.setBit == BitOf(c.chunk)
    ensures Carries(job, Send(job, w, c), w, c.chunk, 0)
  {
  }

  lemma InitLink(job: Job, j: nat, w: nat)
    ensures LinkOk(job, if j == 0 then [Fresh(job, w, Client(0, 0))] else [], j, w, 0, false, j == 0)
  {
    SendCarries(job, w, Client(0, 0));
  }

  lemma InitPipe(job: Job, j: nat, regs: Registers)
    requires job.Valid() && IsClear(regs.even) && IsClear(regs.odd)
    ensures PipeOk(job, j, regs, 0, {})
  {
  }

  lemma InitInv(job: Job, s: System)
    requires job.Valid() && IsInit(job, s)
    ensures Inv(job, s)
  {
    hide PipeOk, LinkOk, ReplyOk, HarvestEntryOk, InOrder, Send;
    assert 0 in job.Workers();
    assert PipesOk(job, s.pipes, s.hist) by {
      forall j | 0 <= j < job.Pipes()
        ensures PipeOk(job, j, s.pipes[j], 0, s.hist.contrib[j])
      {
        InitPipe(job, j, s.pipes[j]);
      }
    }
    assert LinksOk(job, s.links, s.clients, s.hist) by {
      forall j, w | 0 <= j < job.Pipes() && 0 <= w < job.n
        ensures LinkOk(job, s.links[Hop(j, w)], j, w, 0, w in s.hist.contrib[j], Before(s.clients, s.hist, j, w))
      {
        InitLink(job, j, w);
      }
    }
  }

  // ---------- retransmission and loss ----------

  /** Replacing one link by another good one. */
  lemma LinkReplaced(job: Job, s: System, j: nat, w: nat, q: seq<Tagged>)
    requires Almost(job, s) && j < job.Pipes() && w < job.n
    requires LinkOk(job, q, j, w, s.hist.done, w in s.hist.contrib[j], Before(s.clients, s.hist, j, w))
    ensures Almost(job, s.(links := s.links[Hop(j, w) := q]))
  {
    hide Below, BitOf, LinkOk, ClientsOk, ContribOk, PipesOk, HarvestOk, DownsOk;
  }

  lemma LinkAt(job: Job, s: System, j: nat, w: nat)
    requires Almost(job, s) && j < job.Pipes() && w < job.n
    ensures LinkOk(job, s.links[Hop(j, w)], j, w, s.hist.done, w in s.hist.contrib[j], Before(s.clients, s.hist, j, w))
  {
    hide Below, BitOf, LinkOk, ClientsOk, ContribOk, PipesOk, HarvestOk, DownsOk;
  }

  lemma ClientAt(job: Job, s: System, w: nat)
    requires Almost(job, s) && w < job.n
    ensures ClientOk(s.clients[w], s.hist)
    ensures w in s.hist.contrib[0] ==> s.clients[w].chunk == s.hist.done
  {
    hide Below, BitOf, LinksOk, PipesOk, HarvestOk, DownsOk;
    assert w in s.hist.contrib[0] ==> Before(s.clients, s.hist, 0, w);
  }

  lemma PostedLink(job: Job, q: seq<Tagged>, w: nat, c: Client, h: History, here: bool)
    requires LinkOk(job, q, 0, w, h.done, here, c.chunk == h.done) && h.replied <= h.done && ClientOk(c, h)
    requires here ==> c.chunk == h.done
    ensures LinkOk(job, q + [Fresh(job, w, c)], 0, w, h.done, here, c.chunk == h.done)
  {
    SendCarries(job, w, c);
    hide Below, BitOf, Carries, Send;
  }

  lemma PostInv(job: Job, s: System, w: nat)
    requires Almost(job, s) && w < job.n
    ensures Almost(job, Post(job, s, w))
  {
    hide Below, BitOf, Almost, LinkOk, Send;
    AlmostShape(job, s);
    LinkAt(job, s, 0, w);
    ClientAt(job, s, w);
    var c := s.clients[w];
    PostedLink(job, s.links[Hop(0, w)], w, c, s.hist, w in s.hist.contrib[0]);
    LinkReplaced(job, s, 0, w, s.links[Hop(0, w)] + [Fresh(job, w, c)]);
  }

  lemma AlmostShape(job: Job, s: System)
    requires Almost(job, s)
    ensures job.Valid() && Shape(job, s) && s.hist.replied <= s.hist.done <= s.hist.replied + 1
  {
  }

  lemma CutLink(job: Job, q: seq<Tagged>, i: nat, j: nat, w: nat, done: nat, here: bool, before: bool)
    requires LinkOk(job, q, j, w, done, here, before) && i < |q|
    ensures LinkOk(job, Cut(q, i), j, w, done, here, before)
  {
    hide Below, BitOf, PacketOk;
  }

  lemma CutHarvest(job: Job, q: seq<Tagged>, i: nat, complete: nat, replied: nat)
    requires HarvestOk(job, q, complete, replied) && i < |q|
    ensures HarvestOk(job, Cut(q, i), complete, replied)
  {
    hide Below, BitOf, HarvestEntryOk, InOrder;
  }

  lemma CutDown(job: Job, q: seq<TaggedReply>, i: nat, w: nat, chunk: nat, replied: nat)
    requires DownOk(job, q, w, chunk, replied) && i < |q|
    ensures DownOk(job, Cut(q, i), w, chunk, replied)
  {
    hide Below, BitOf, ReplyOk;
  }

  lemma LossInv(job: Job, s: System, ev: Event)
    requires Inv(job, s) && Enabled(job, s, ev) && IsLoss(ev)
    ensures Inv(job, Next(job, s, ev))
  {
    hide Below, BitOf, LinkOk, DownOk, ClientsOk, ContribOk, PipesOk, HarvestOk, LinksOk, Cut;
    match ev {
      case LosePacket(j, w, i) =>
        LinkAt(job, s, j, w);
        CutLink(job, s.links[Hop(j, w)], i, j, w, s.hist.done, w in s.hist.contrib[j], Before(s.clients, s.hist, j, w));
        LinkReplaced(job, s, j, w, Cut(s.links[Hop(j, w)], i));
      case LoseHarvest(i) =>
        CutHarvest(job, s.harvest, i, s.hist.done, s.hist.replied);
      case LoseReply(w, i) =>
        CutDown(job, s.down[w], i, w, s.clients[w].chunk, s.hist.replied);
    }
  }

  // ---------- a client handles a reply ----------

  lemma DownAt(job: Job, s: System, w: nat)
    requires Almost(job, s) && w < job.n
    ensures DownOk(job, s.down[w], w, s.clients[w].chunk, s.hist.replied)
  {
    hide Below, BitOf, DownOk, ClientsOk, ContribOk, PipesOk, HarvestOk, LinksOk;
  }

  /** The set bit tells the reply of the outstanding chunk from the only other one that can still arrive. */
  lemma AcceptMeansOwnChunk(job: Job, s: System, w: nat)
    requires Inv(job, s) && w < job.n && s.down[w] != []
    ensures var t := s.down[w][0];
            !t.early ==>
            && ReplyOk(job, t, w, s.clients[w].chunk, s.hist.replied)
            && (t.reply.setBit == s.clients[w].setBit <==> t.round == s.clients[w].chunk)
  {
    hide Below, BitOf, Almost, Collected;
    AlmostShape(job, s);
    DownAt(job, s, w);
    ClientAt(job, s, w);
    if !s.down[w][0].early {
      assert ReplyOk(job, s.down[w][0], w, s.clients[w].chunk, s.hist.replied);
      Parity(s.down[w][0].round, s.clients[w].chunk);
    }
  }

  lemma Parity(r: nat, chunk: nat)
    requires r <= chunk <= r + 1
    ensures BitOf(r) == BitOf(chunk) <==> r == chunk
  {
  }

  lemma BeforeHolds(job: Job, q: seq<Tagged>, j: nat, w: nat, done: nat, here: bool, before: bool)
    requires LinkOk(job, q, j, w, done, here, before)
    ensures LinkOk(job, q, j, w, done, here, true)
  {
    hide Below, BitOf, Carries;
  }

  lemma AcceptDown(job: Job, q: seq<TaggedReply>, w: nat, chunk: nat, replied: nat)
    requires q != [] && DownOk(job, q, w, chunk, replied)
    ensures DownOk(job, q[1..], w, chunk, replied)
    ensures !q[0].early && q[0].round == chunk ==> DownOk(job, q[1..], w, chunk + 1, replied)
  {
    hide Below, BitOf, Collected;
  }

  /** The client's bookkeeping when it accepts the reply of its outstanding chunk, before it posts the next one. */
  function Accepted(s: System, w: nat): System
    requires w < |s.clients| && w < |s.down| && s.down[w] != []
  {
    s.(down := s.down[w := s.down[w][1..]],
       clients := s.clients[w := Client(1 - s.clients[w].setBit, s.clients[w].chunk + 1)])
  }

  lemma AcceptedClients(job: Job, s: System, w: nat)
    requires Inv(job, s) && w < job.n && s.down[w] != [] && !s.down[w][0].early
    requires s.down[w][0].round == s.clients[w].chunk
    ensures ClientsOk(job, Accepted(s, w).clients, s.hist)
    ensures ContribOk(job, Accepted(s, w).clients, s.hist)
    ensures s.clients[w].chunk + 1 == s.hist.done && w !in s.hist.contrib[0]
  {
    hide Below, BitOf, LinksOk, PipesOk, HarvestOk, DownsOk, Collected;
    AcceptMeansOwnChunk(job, s, w);
    ClientAt(job, s, w);
    NextBit(s.clients[w].chunk);
  }

  lemma AcceptedLinks(job: Job, s: System, w: nat)
    requires Inv(job, s) && w < job.n && s.down[w] != [] && !s.down[w][0].early
    requires s.down[w][0].round == s.clients[w].chunk
    ensures LinksOk(job, s.links, Accepted(s, w).clients, s.hist)
  {
    hide Below, BitOf, Almost, LinkOk;
    AlmostShape(job, s);
    var clients := Accepted(s, w).clients;
    forall j, w' | 0 <= j < job.Pipes() && 0 <= w' < job.n
      ensures LinkOk(job, s.links[Hop(j, w')], j, w', s.hist.done, w' in s.hist.contrib[j],
                     Before(clients, s.hist, j, w'))
    {
      LinkAt(job, s, j, w');
      if j == 0 && w' == w {
        AcceptedClients(job, s, w);
        BeforeHolds(job, s.links[Hop(0, w)], 0, w, s.hist.done, w in s.hist.contrib[0],
                    Before(s.clients, s.hist, 0, w));
      }
    }
  }

  lemma DownReplaced(job: Job, s: System, w: nat, q: seq<TaggedReply>)
    requires Almost(job, s) && w < job.n && DownOk(job, q, w, s.clients[w].chunk, s.hist.replied)
    ensures Almost(job, s.(down := s.down[w := q]))
  {
    hide Below, BitOf, LinksOk, ContribOk, ClientsOk, PipesOk, HarvestOk, DownOk;
  }

  lemma AcceptedAlmost(job: Job, s: System, w: nat)
    requires Inv(job, s) && w < job.n && s.down[w] != [] && !s.down[w][0].early
    requires s.down[w][0].round == s.clients[w].chunk
    ensures Almost(job, Accepted(s, w))
  {
    hide Below, BitOf, LinksOk, ContribOk, ClientsOk, PipesOk, HarvestOk, DownOk;
    DownAt(job, s, w);
    AcceptDown(job, s.down[w], w, s.clients[w].chunk, s.hist.replied);
    AcceptedClients(job, s, w);
    AcceptedLinks(job, s, w);
  }

  /** In this event a client accepts an answer that was too early. */
  predicate AcceptsEarly(s: System, ev: Event) {
    && ev.Deliver? && ev.w < |s.down| && ev.w < |s.clients| && s.down[ev.w] != []
    && s.down[ev.w][0].early && s.down[ev.w][0].reply.setBit == s.clients[ev.w].setBit
  }

  lemma DeliverInv(job: Job, s: System, w: nat)
    requires Inv(job, s) && Enabled(job, s, Deliver(w)) && !AcceptsEarly(s, Deliver(w))
    ensures Inv(job, Next(job, s, Deliver(w)))
  {
    hide Below, BitOf, Almost, ReplyOk, DownOk, Send;
    AlmostShape(job, s);
    AcceptMeansOwnChunk(job, s, w);
    if s.down[w][0].reply.setBit == s.clients[w].setBit {
      AcceptedAlmost(job, s, w);
      PostInv(job, Accepted(s, w), w);
    } else {
      DownAt(job, s, w);
      AcceptDown(job, s.down[w], w, s.clients[w].chunk, s.hist.replied);
      DownReplaced(job, s, w, s.down[w][1..]);
    }
  }
}
