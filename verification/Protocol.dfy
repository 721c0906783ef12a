/**
 * The aggregation protocol for one slot as a state machine: clients, lossy links that keep order, the pipes'
 * registers, the chain of harvest passes, and the replies on their way back.
 *
 * Rounds are chunk numbers. Packets in flight are tagged with their round; neither switch nor client reads the tag.
 */
module Protocol {
  import opened Words
  import opened Jobs
  import opened SwitchTables
  import opened SwitchPass

  /** The queue of one worker's packets in front of a pipe; pipe 0 is fed by the worker's own link. */
  datatype Hop = Hop(pipe: nat, worker: nat)

  /**
   * A packet with its round and what its passes found: `own` says that its last consume pass was a retransmission,
   * `early` that this pass was too early. `seen` are the workers pipe 0 had counted for the round by its first pass,
   * and `parts` for each slice collected the workers its pipe had counted when the slice was read.
   */
  datatype Tagged = Tagged(pkt: Packet, round: nat, own: bool, early: bool, seen: set<nat>, parts: seq<set<nat>>)

  datatype TaggedReply =
    TaggedReply(reply: Reply, round: nat, own: bool, early: bool, seen: set<nat>, parts: seq<set<nat>>)

  /** A client's slot: the set bit in its rkey and the chunk it has outstanding. */
  datatype Client = Client(setBit: Bit, chunk: nat)

  /**
   * What has happened so far: the round the last pipe is collecting, the workers each pipe has counted for it,
   * and a bound above all rounds that have been replied to, other than too early.
   */
  datatype History = History(done: nat, contrib: seq<set<nat>>, replied: nat)

  datatype System = System(pipes: seq<Registers>, links: map<Hop, seq<Tagged>>, harvest: seq<Tagged>,
                           down: seq<seq<TaggedReply>>, clients: seq<Client>, hist: History)

  datatype Event =
    | Retransmit(w: nat)                 // a client's timer fires
    | Consume(j: nat, w: nat)            // pipe j processes worker w's next packet
    | Harvest(i: nat)                    // the i-th oldest packet being harvested makes its next pass
    | Deliver(w: nat)                    // client w handles its next reply
    | LosePacket(j: nat, w: nat, i: nat)
    | LoseHarvest(i: nat)
    | LoseReply(w: nat, i: nat)

  predicate IsLoss(ev: Event) {
    ev.LosePacket? || ev.LoseHarvest? || ev.LoseReply?
  }

  /** The queue without its i-th element. */
  function Cut<T>(q: seq<T>, i: nat): (r: seq<T>)
    requires i < |q|
    ensures |r| + 1 == |q| && forall k | 0 <= k < |r| :: r[k] == if k < i then q[k] else q[k + 1]
  {
    q[..i] + q[i + 1..]
  }

  /** The packet a client posts, or posts again, for its outstanding chunk. */
  function Send(job: Job, w: nat, c: Client): Packet {
    Packet(Metadata(w, job.n, c.setBit, job.size, job.workerType, CONSUME0,
                    job.exponent(w, c.chunk, 0), job.exponent(w, c.chunk, 1), false, false, false),
           0, seq(2 * job.Pipes(), i requires 0 <= i => job.Own(w, c.chunk, i)))
  }

  function Append(s: System, hop: Hop, t: Tagged): System {
    if hop in s.links then s.(links := s.links[hop := s.links[hop] + [t]]) else s
  }

  /** A packet before its first pass. */
  function Fresh(job: Job, w: nat, c: Client): Tagged {
    Tagged(Send(job, w, c), c.chunk, false, false, {}, [])
  }

  function Post(job: Job, s: System, w: nat): System
    requires w < |s.clients|
  {
    Append(s, Hop(0, w), Fresh(job, w, s.clients[w]))
  }

  ghost predicate Shape(job: Job, s: System) {
    && |s.pipes| == |s.hist.contrib| == job.Pipes()
    && |s.down| == |s.clients| == job.n
    && forall j, w | 0 <= j < job.Pipes() && 0 <= w < job.n :: Hop(j, w) in s.links
  }

  predicate IsClear(v: SetRegisters) {
    v.members == {} && v.count == 0
  }

  /** Every client has posted chunk 0; bitmaps and counts are clear, sums and exponents may hold anything. */
  ghost predicate IsInit(job: Job, s: System) {
    && Shape(job, s)
    && (forall j | 0 <= j < job.Pipes() :: IsClear(s.pipes[j].even) && IsClear(s.pipes[j].odd))
    && (forall w | 0 <= w < job.n :: s.clients[w] == Client(0, 0) && s.down[w] == [])
    && (forall j, w | 0 <= j < job.Pipes() && 0 <= w < job.n ::
          s.links[Hop(j, w)] == if j == 0 then [Fresh(job, w, Client(0, 0))] else [])
    && s.harvest == []
    && s.hist.done == s.hist.replied == 0 && forall j | 0 <= j < job.Pipes() :: s.hist.contrib[j] == {}
  }

  /** The harvest ports are queues: a packet makes its next pass only after every older one has left that queue. */
  ghost predicate Enabled(job: Job, s: System, ev: Event)
    requires Shape(job, s)
  {
    match ev
    case Retransmit(w) => w < job.n
    case Consume(j, w) => j < job.Pipes() && w < job.n && s.links[Hop(j, w)] != []
    case Harvest(i) =>
      i < |s.harvest| && (i == 0 || s.harvest[i].pkt.md.packetType < s.harvest[i - 1].pkt.md.packetType)
    case Deliver(w) => w < job.n && s.down[w] != []
    case LosePacket(j, w, i) => j < job.Pipes() && w < job.n && i < |s.links[Hop(j, w)]|
    case LoseHarvest(i) => i < |s.harvest|
    case LoseReply(w, i) => w < job.n && i < |s.down[w]|
  }

  function AppendToAll<T>(qs: seq<seq<T>>, t: T): (r: seq<seq<T>>)
    ensures |r| == |qs| && forall w | 0 <= w < |qs| :: r[w] == qs[w] + [t]
  {
    if qs == [] then [] else [qs[0] + [t]] + AppendToAll(qs[1..], t)
  }

  /** No pipe has counted any worker yet. */
  function NoneYet(pipes: nat): (r: seq<set<nat>>)
    ensures |r| == pipes && forall j | 0 <= j < pipes :: r[j] == {}
  {
    if pipes == 0 then [] else [{}] + NoneYet(pipes - 1)
  }

  function AsReply(reply: Reply, t: Tagged): TaggedReply {
    TaggedReply(reply, t.round, t.own, t.early, t.seen, t.parts)
  }

  function Replied(h: History, t: Tagged): History {
    if t.early then h else h.(replied := Max(h.replied, t.round + 1))
  }

  /** Packet t leaves the switch as a reply, or is dropped. */
  function SendReply(job: Job, s: System, outcome: Outcome, t: Tagged): System {
    match outcome
    case ToAll(reply) => s.(down := AppendToAll(s.down, AsReply(reply, t)), hist := Replied(s.hist, t))
    case ToOne(w, reply) =>
      if w < |s.down| then s.(down := s.down[w := s.down[w] + [AsReply(reply, t)]], hist := Replied(s.hist, t))
      else s
    case _ => s
  }

  /** The workers that pipe j has counted for a round: everybody, unless it is the one being collected. */
  function SeenBy(job: Job, h: History, j: nat, round: nat): set<nat> {
    if round == h.done && j < |h.contrib| then h.contrib[j] else job.Workers()
  }

  /** The tags of a packet after a consume pass that found the registers regs; h is the history after it. */
  function Retag(job: Job, h: History, t: Tagged, regs: Registers, dup: bool, p: Packet): Tagged {
    Tagged(p, t.round, dup, IsHarvest(p.md.packetType) && IsTooEarly(regs, t.pkt),
           if t.pkt.md.packetType == CONSUME0 then SeenBy(job, h, 0, t.round) else t.seen,
           [SeenBy(job, h, job.Pipes() - 1, t.round)])
  }

  /** Where a packet goes after a consume pass. A port the parser does not know as recirculation loses it. */
  function Route(job: Job, s: System, outcome: Outcome, t: Tagged): System {
    match outcome
    case Recirculated(p) =>
      if !ParsedAsRecirculated(p.port) then s
      else if IsConsume(p.md.packetType) then Append(s, Hop(PipeOfPort(p.port), p.md.worker), t)
      else s.(harvest := s.harvest + [t])
    case _ => SendReply(job, s, outcome, t)
  }

  /** The worker is now counted in pipe j if its packet belongs to the round being collected. */
  function Counted(h: History, j: nat, w: nat, round: nat): History
    requires j < |h.contrib|
  {
    if round == h.done then h.(contrib := h.contrib[j := h.contrib[j] + {w}]) else h
  }

  function ConsumeHead(job: Job, s: System, j: nat, w: nat): System
    requires Shape(job, s) && Enabled(job, s, Consume(j, w))
  {
    var hop := Hop(j, w);
    var t := s.links[hop][0];
    var pass := ConsumePass(s.pipes[j], t.pkt);
    var s' := s.(pipes := s.pipes[j := pass.regs], links := s.links[hop := s.links[hop][1..]],
                 hist := Counted(s.hist, j, w, t.round));
    var p := if pass.outcome.Recirculated? then pass.outcome.pkt else t.pkt;
    Route(job, s', pass.outcome, Retag(job, s'.hist, t, s.pipes[j], pass.dup, p))
  }

  /** When the last pipe has counted every worker, the round is complete and the next one is collected. */
  function Settle(job: Job, s: System): System
    requires |s.hist.contrib| == job.Pipes()
  {
    if s.hist.contrib[job.Pipes() - 1] == job.Workers() then
      s.(hist := History(s.hist.done + 1, NoneYet(job.Pipes()), s.hist.replied))
    else s
  }

  function HarvestNext(job: Job, s: System, i: nat): System
    requires Shape(job, s) && Enabled(job, s, Harvest(i))
  {
    var t := s.harvest[i].(parts := [SeenBy(job, s.hist, PipeOfPort(s.harvest[i].pkt.port), s.harvest[i].round)]
                                    + s.harvest[i].parts);
    var gone := s.(harvest := Cut(s.harvest, i));
    var pipe := PipeOfPort(t.pkt.port);
    if pipe >= |s.pipes| then gone else
    match HarvestPass(s.pipes[pipe], t.pkt).outcome
    case Recirculated(p) =>
      if ParsedAsRecirculated(p.port) then s.(harvest := s.harvest[i := t.(pkt := p)]) else gone
    case outcome => SendReply(job, gone, outcome, t)
  }

  /** A reply is accepted when its set bit is the one in the client's rkey; the next chunk is then posted. */
  function DeliverHead(job: Job, s: System, w: nat): System
    requires Shape(job, s) && Enabled(job, s, Deliver(w))
  {
    var c := s.clients[w];
    var s' := s.(down := s.down[w := s.down[w][1..]]);
    if s.down[w][0].reply.setBit == c.setBit then
      Post(job, s'.(clients := s.clients[w := Client(1 - c.setBit, c.chunk + 1)]), w)
    else s'
  }

  function Next(job: Job, s: System, ev: Event): System
    requires Shape(job, s) && Enabled(job, s, ev)
  {
    match ev
    case Retransmit(w) => Post(job, s, w)
    case Consume(j, w) => Settle(job, ConsumeHead(job, s, j, w))
    case Harvest(i) => HarvestNext(job, s, i)
    case Deliver(w) => DeliverHead(job, s, w)
    case LosePacket(j, w, i) => s.(links := s.links[Hop(j, w) := Cut(s.links[Hop(j, w)], i)])
    case LoseHarvest(i) => s.(harvest := Cut(s.harvest, i))
    case LoseReply(w, i) => s.(down := s.down[w := Cut(s.down[w], i)])
  }

}
