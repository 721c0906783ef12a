/** What holds in every run of the protocol, for any number of workers, chunks, losses and retransmissions. */
module ProtocolSafety {
  import opened Words
  import opened Jobs
  import opened SwitchTables
  import opened SwitchPass
  import opened PipeInvariant
  import opened Protocol
  import opened ProtocolInvariant
  import opened HarvestInvariant
  import opened ConsumeInvariant

  /** The events can happen one after the other from s on. */
  ghost predicate Run(job: Job, s: System, evs: seq<Event>)
    decreases |evs|
  {
    Shape(job, s) && (evs != [] ==> Enabled(job, s, evs[0]) && Run(job, Next(job, s, evs[0]), evs[1..]))
  }

  function After(job: Job, s: System, evs: seq<Event>): (s': System)
    requires Run(job, s, evs)
    ensures Shape(job, s')
    decreases |evs|
  {
    if evs == [] then s else After(job, Next(job, s, evs[0]), evs[1..])
  }

  /** A run in which no client accepts an answer that was too early. Every run with 256-byte packets is sound. */
  ghost predicate SoundRun(job: Job, s: System, evs: seq<Event>)
    decreases |evs|
  {
    && Run(job, s, evs)
    && (evs != [] ==> !AcceptsEarly(s, evs[0]) && SoundRun(job, Next(job, s, evs[0]), evs[1..]))
  }

  /** Every event keeps the invariant, unless a client accepts an answer that was too early. */
  lemma StepInv(job: Job, s: System, ev: Event)
    requires Inv(job, s) && Enabled(job, s, ev) && !AcceptsEarly(s, ev)
    ensures Inv(job, Next(job, s, ev))
  {
    hide Almost, AcceptsEarly;
    AlmostShape(job, s);
    match ev {
      case Retransmit(w) => PostInv(job, s, w);
      case Consume(j, w) => ConsumeInv(job, s, j, w);
      case Harvest(i) => HarvestInv(job, s, i);
      case Deliver(w) => DeliverInv(job, s, w);
      case LosePacket(_, _, _) => LossInv(job, s, ev);
      case LoseHarvest(_) => LossInv(job, s, ev);
      case LoseReply(_, _) => LossInv(job, s, ev);
    }
  }

  lemma {:induction false} RunInv(job: Job, s: System, evs: seq<Event>)
    requires Inv(job, s) && SoundRun(job, s, evs)
    ensures Inv(job, After(job, s, evs))
    decreases |evs|
  {
    hide Inv, AcceptsEarly;
    if evs != [] {
      StepInv(job, s, evs[0]);
      RunInv(job, Next(job, s, evs[0]), evs[1..]);
    }
  }

  lemma InvValid(job: Job, s: System)
    requires Inv(job, s)
    ensures job.Valid() && Shape(job, s)
  {
  }

  // ---------- runs that never queue an answer too early ----------

  /** The last pipe does not process a packet that is too early. */
  ghost predicate Clean(job: Job, s: System, ev: Event)
    requires Shape(job, s) && Enabled(job, s, ev)
  {
    ev.Consume? && ev.j + 1 == job.Pipes() ==> !IsTooEarly(s.pipes[ev.j], s.links[Hop(ev.j, ev.w)][0].pkt)
  }

  ghost predicate CleanRun(job: Job, s: System, evs: seq<Event>)
    decreases |evs|
  {
    && Run(job, s, evs)
    && (evs != [] ==> Clean(job, s, evs[0]) && CleanRun(job, Next(job, s, evs[0]), evs[1..]))
  }

  /** The event loses an answer that was too early. */
  predicate LosesEarly(s: System, ev: Event) {
    match ev
    case LoseHarvest(i) => i < |s.harvest| && s.harvest[i].early
    case LoseReply(w, i) => w < |s.down| && i < |s.down[w]| && s.down[w][i].early
    case _ => false
  }

  /** Nothing happens but the loss of answers that were too early. */
  ghost predicate LosesOnlyEarly(job: Job, s: System, evs: seq<Event>)
    requires Run(job, s, evs)
    decreases |evs|
  {
    evs != [] ==> LosesEarly(s, evs[0]) && LosesOnlyEarly(job, Next(job, s, evs[0]), evs[1..])
  }

  lemma OneEvent(job: Job, s: System, ev: Event)
    requires Shape(job, s) && Enabled(job, s, ev) && Shape(job, Next(job, s, ev))
    ensures Run(job, s, [ev]) && After(job, s, [ev]) == Next(job, s, ev)
    ensures Clean(job, s, ev) ==> CleanRun(job, s, [ev])
    ensures !AcceptsEarly(s, ev) ==> SoundRun(job, s, [ev])
    ensures LosesEarly(s, ev) ==> LosesOnlyEarly(job, s, [ev])
  {
    hide Clean, Next, Enabled, Shape, AcceptsEarly, LosesEarly;
    var evs, s' := [ev], Next(job, s, ev);
    assert evs[0] == ev && evs[1..] == [];
    assert Run(job, s', []) && After(job, s', []) == s' && CleanRun(job, s', []) && SoundRun(job, s', []);
  }

  /** Runs can be put together, and stay clean, sound or free of other losses. */
  lemma {:induction false} Concatenated(job: Job, s: System, a: seq<Event>, b: seq<Event>)
    requires Run(job, s, a) && Run(job, After(job, s, a), b)
    ensures Run(job, s, a + b) && After(job, s, a + b) == After(job, After(job, s, a), b)
    ensures CleanRun(job, s, a) && CleanRun(job, After(job, s, a), b) ==> CleanRun(job, s, a + b)
    ensures SoundRun(job, s, a) && SoundRun(job, After(job, s, a), b) ==> SoundRun(job, s, a + b)
    ensures LosesOnlyEarly(job, s, a) && LosesOnlyEarly(job, After(job, s, a), b) ==> LosesOnlyEarly(job, s, a + b)
    decreases |a|
  {
    hide Clean, Next, Enabled, Shape, AcceptsEarly, LosesEarly;
    if a == [] {
      assert a + b == b;
    } else {
      assert (a + b)[0] == a[0] && (a + b)[1..] == a[1..] + b;
      Concatenated(job, Next(job, s, a[0]), a[1..], b);
    }
  }

  /** No answer that was too early is on its way. */
  ghost predicate NoneEarly(s: System) {
    && (forall i | 0 <= i < |s.harvest| :: !s.harvest[i].early)
    && (forall w, i | 0 <= w < |s.down| && 0 <= i < |s.down[w]| :: !s.down[w][i].early)
  }

  lemma CleanConsume(job: Job, s: System, j: nat, w: nat)
    requires Inv(job, s) && NoneEarly(s) && Enabled(job, s, Consume(j, w)) && Clean(job, s, Consume(j, w))
    ensures NoneEarly(Next(job, s, Consume(j, w)))
  {
    hide Inv, Below, BitOf, PipeOk, PacketOk, ConsumePass, AppendToAll, IsTooEarly;
    Head(job, s, j, w);
    HarvestOnlyFromLast(job, s, j, w);
    var t := s.links[Hop(j, w)][0];
    var pass := ConsumePass(s.pipes[j], t.pkt);
    var s1 := Popped(job, s, j, w, pass.regs);
    var p := if pass.outcome.Recirculated? then pass.outcome.pkt else t.pkt;
    PassedTags(job, s, j, w, pass.dup, p);
    var u := Passed(job, s, j, w, pass.dup, p);
    assert pass.outcome.Recirculated? ==> !u.early || IsConsume(p.md.packetType);
    assert Next(job, s, Consume(j, w)).harvest == Route(job, s1, pass.outcome, u).harvest;
  }

  /** A consume pass sends no reply, and only the last one starts a harvest. */
  lemma HarvestOnlyFromLast(job: Job, s: System, j: nat, w: nat)
    requires Inv(job, s) && Enabled(job, s, Consume(j, w))
    ensures var outcome := ConsumePass(s.pipes[j], s.links[Hop(j, w)][0].pkt).outcome;
            && (outcome.Dropped? || outcome.Recirculated?)
            && (outcome.Recirculated? && IsHarvest(outcome.pkt.md.packetType) ==> j + 1 == job.Pipes())
  {
    hide Inv, Below, BitOf, PipeOk, NextStep, SeenOk, Stick, Aggregated;
    Head(job, s, j, w);
    var t := s.links[Hop(j, w)][0];
    ConsumeEffect(s.pipes[j], t.pkt);
    var pass := ConsumePass(s.pipes[j], t.pkt);
    hide Carries;
    ConsumeRow(job, t.pkt, w, t.round, j, pass.flag, pass.dup);
  }

  lemma CleanHarvest(job: Job, s: System, i: nat)
    requires Shape(job, s) && NoneEarly(s) && Enabled(job, s, Harvest(i))
    ensures NoneEarly(Next(job, s, Harvest(i)))
  {
    hide HarvestPass, Below;
  }

  lemma CleanStep(job: Job, s: System, ev: Event)
    requires Inv(job, s) && NoneEarly(s) && Enabled(job, s, ev) && Clean(job, s, ev)
    ensures !AcceptsEarly(s, ev) && NoneEarly(Next(job, s, ev))
  {
    hide Inv, Below, BitOf, Clean, HarvestNext, ConsumeHead, Settle, Send;
    InvValid(job, s);
    match ev {
      case Consume(j, w) => CleanConsume(job, s, j, w);
      case Harvest(i) => CleanHarvest(job, s, i);
      case _ =>
    }
  }

  /** Clean runs are sound: if no answer is queued too early, none can be accepted. */
  lemma {:induction false} CleanIsSound(job: Job, s: System, evs: seq<Event>)
    requires Inv(job, s) && NoneEarly(s) && CleanRun(job, s, evs)
    ensures SoundRun(job, s, evs) && NoneEarly(After(job, s, evs))
    decreases |evs|
  {
    hide Inv, Clean, NoneEarly, AcceptsEarly;
    if evs != [] {
      CleanStep(job, s, evs[0]);
      StepInv(job, s, evs[0]);
      CleanIsSound(job, Next(job, s, evs[0]), evs[1..]);
    }
  }

  lemma SmallNeverEarly(job: Job, s: System, ev: Event)
    requires Inv(job, s) && Enabled(job, s, ev) && job.size == Mtu256
    ensures !AcceptsEarly(s, ev) && Clean(job, s, ev)
  {
    hide Inv, Below, BitOf, ReplyOk, PipeOk, Carries;
    InvValid(job, s);
    match ev {
      case Deliver(w) => SmallReplies(job, s, w);
      case Consume(j, w) => Head(job, s, j, w);
      case _ =>
    }
  }

  lemma SmallReplies(job: Job, s: System, w: nat)
    requires Inv(job, s) && job.size == Mtu256 && w < job.n && s.down[w] != []
    ensures !s.down[w][0].early
  {
    hide Almost, ReplyOk;
    DownAt(job, s, w);
  }

  /** With 256-byte packets there is no earlier pipe a first flag could come from: every run is clean and sound. */
  lemma {:induction false} SmallIsSound(job: Job, s: System, evs: seq<Event>)
    requires Inv(job, s) && Run(job, s, evs) && job.size == Mtu256
    ensures SoundRun(job, s, evs) && CleanRun(job, s, evs)
    decreases |evs|
  {
    hide Inv, Clean, AcceptsEarly;
    if evs != [] {
      SmallNeverEarly(job, s, evs[0]);
      StepInv(job, s, evs[0]);
      SmallIsSound(job, Next(job, s, evs[0]), evs[1..]);
    }
  }

  /** States that sound runs reach. */
  ghost predicate Reachable(job: Job, s: System) {
    job.Valid() && exists s0, evs :: IsInit(job, s0) && SoundRun(job, s0, evs) && s == After(job, s0, evs)
  }

  lemma ReachableInv(job: Job, s: System)
    requires Reachable(job, s)
    ensures Inv(job, s)
  {
    hide Inv, IsInit;
    var s0, evs :| IsInit(job, s0) && SoundRun(job, s0, evs) && s == After(job, s0, evs);
    InitInv(job, s0);
    RunInv(job, s0, evs);
  }

  // ---------- end-to-end safety ----------

  /** The words that the reply is claimed to carry: all of them, but the last slice only if it is a broadcast. */
  ghost predicate HasSums(job: Job, reply: Reply, chunk: nat) {
    && |reply.payload| == 2 * job.Pipes()
    && forall k, i | 0 <= k < 2 * job.Pipes() && 0 <= i < 32 &&
                     (reply.kind == IsBroadcast || k + 1 < 2 * job.Pipes()) ::
         reply.payload[k][i] == job.Sum(job.Workers(), chunk, 32 * k + i) % MODULUS
  }

  /**
   * The reply carries, word by word, the sum of the chunk over all workers, modulo 2^32, and the exponents' maxima.
   * Of a retransmission this leaves out the last 128 bytes: see RetransmittedTail. The first exponent of a broadcast of
   * 1024 bytes is the maximum over the workers that pipe 0 had counted when the packet passed it: see
   * BroadcastExponent.
   */
  ghost predicate IsResult(job: Job, t: TaggedReply, chunk: nat) {
    && HasSums(job, t.reply, chunk)
    && t.reply.e1 == job.MaxExponent(job.Workers(), chunk, 1)
    && t.seen <= job.Workers() && t.reply.e0 == job.MaxExponent(t.seen, chunk, 0)
    && (job.size == Mtu256 || t.reply.kind == IsRetransmit ==> t.seen == job.Workers())
  }

  /** A worker's own word is the sum exactly if the others add up to zero. */
  lemma OwnWordIff(job: Job, w: nat, r: nat, k: nat, i: nat)
    requires w < job.n && i < 32
    ensures job.Own(w, r, k)[i] == job.Sum(job.Workers(), r, 32 * k + i) % MODULUS <==>
            job.Sum(job.Workers() - {w}, r, 32 * k + i) % MODULUS == 0
  {
    hide Below;
    job.SumBelowAdd(job.Workers() - {w}, w, r, 32 * k + i, job.n);
    assert job.Workers() - {w} + {w} == job.Workers();
    AddsNothing(job.Sum(job.Workers() - {w}, r, 32 * k + i), job.WordAt(w, r, 32 * k + i));
  }

  lemma AddsNothing(sum: nat, x: Word)
    ensures (sum + x) % MODULUS == x <==> sum % MODULUS == 0
  {
  }

  lemma ReplyIsResult(job: Job, t: TaggedReply, w: nat, chunk: nat, replied: nat)
    requires job.Valid() && ReplyOk(job, t, w, chunk, replied)
    ensures IsResult(job, t, t.round)
  {
    hide Below, BitOf;
    var reply := t.reply;
    forall k, i | 0 <= k < 2 * job.Pipes() && 0 <= i < 32 && (reply.kind == IsBroadcast || k + 1 < 2 * job.Pipes())
      ensures reply.payload[k][i] == job.Sum(job.Workers(), t.round, 32 * k + i) % MODULUS
    {
      assert reply.payload[k] == Expected(job, w, t.round, t.own, 0 + k);
    }
  }

  /** Client w accepts a reply in this event. */
  predicate Accepts(s: System, ev: Event, w: nat)
    requires w < |s.down| == |s.clients|
  {
    ev == Deliver(w) && s.down[w] != [] && s.down[w][0].reply.setBit == s.clients[w].setBit
  }

  /** The replies client w accepts in a run, in order. */
  ghost function Received(job: Job, s: System, evs: seq<Event>, w: nat): seq<TaggedReply>
    requires Run(job, s, evs) && w < job.n
    decreases |evs|
  {
    if evs == [] then [] else
      (if Accepts(s, evs[0], w) then [s.down[w][0]] else []) + Received(job, Next(job, s, evs[0]), evs[1..], w)
  }

  lemma ChunkCountsAccepts(job: Job, s: System, ev: Event, w: nat)
    requires Shape(job, s) && Enabled(job, s, ev) && w < job.n
    ensures Shape(job, Next(job, s, ev)) ==>
              Next(job, s, ev).clients[w].chunk == s.clients[w].chunk + if Accepts(s, ev, w) then 1 else 0
  {
    hide Send, ConsumePass, HarvestPass, Below, AppendToAll;
  }

  /** The k-th reply a client accepts is the result of the k-th chunk after the one it started with. */
  lemma {:induction false} RunDeliversSums(job: Job, s: System, evs: seq<Event>, w: nat)
    requires Inv(job, s) && SoundRun(job, s, evs) && w < job.n
    ensures After(job, s, evs).clients[w].chunk == s.clients[w].chunk + |Received(job, s, evs, w)|
    ensures forall k | 0 <= k < |Received(job, s, evs, w)| ::
              IsResult(job, Received(job, s, evs, w)[k], s.clients[w].chunk + k)
    decreases |evs|
  {
    hide Inv, IsResult, Next, Enabled;
    if evs != [] {
      StepInv(job, s, evs[0]);
      var s1 := Next(job, s, evs[0]);
      RunDeliversSums(job, s1, evs[1..], w);
      ChunkCountsAccepts(job, s, evs[0], w);
      if Accepts(s, evs[0], w) {
        AcceptedIsOwnResult(job, s, w);
        var rest := Received(job, s1, evs[1..], w);
        forall k | 0 <= k < 1 + |rest|
          ensures IsResult(job, Received(job, s, evs, w)[k], s.clients[w].chunk + k)
        {
          if k != 0 {
            assert Received(job, s, evs, w)[k] == rest[k - 1];
          }
        }
      }
    }
  }

  lemma AcceptedIsOwnResult(job: Job, s: System, w: nat)
    requires Inv(job, s) && w < job.n && w < |s.down| && w < |s.clients| && s.down[w] != [] && !s.down[w][0].early
    requires s.down[w][0].reply.setBit == s.clients[w].setBit
    ensures IsResult(job, s.down[w][0], s.clients[w].chunk)
  {
    hide Inv, Below, ReplyOk, IsResult;
    AcceptMeansOwnChunk(job, s, w);
    InvValid(job, s);
    ReplyIsResult(job, s.down[w][0], w, s.clients[w].chunk, s.hist.replied);
  }

  /**
   * End-to-end safety: in any run of a job that starts with empty bitmaps, whatever is lost, repeated or delayed,
   * every client receives the results of chunks 0, 1, 2, ... exactly once each and in order. With 1024-byte packets
   * this assumes that no client accepts an answer that was too early, and EarlyAnswerIff says what such an answer has.
   * For both sizes, IsResult leaves out the last 128 bytes of a retransmission.
   */
  lemma AllReduce(job: Job, s: System, evs: seq<Event>, w: nat)
    requires job.Valid() && IsInit(job, s) && Run(job, s, evs) && w < job.n
    requires job.size == Mtu256 || SoundRun(job, s, evs)
    ensures After(job, s, evs).clients[w].chunk == |Received(job, s, evs, w)|
    ensures forall k | 0 <= k < |Received(job, s, evs, w)| :: IsResult(job, Received(job, s, evs, w)[k], k)
  {
    hide Inv, IsResult, After, Received, SoundRun, Run;
    InitInv(job, s);
    if job.size == Mtu256 {
      SmallIsSound(job, s, evs);
    }
    RunDeliversSums(job, s, evs, w);
    assert s.clients[w] == Client(0, 0);
    forall k | 0 <= k < |Received(job, s, evs, w)|
      ensures IsResult(job, Received(job, s, evs, w)[k], k)
    {
      assert IsResult(job, Received(job, s, evs, w)[k], s.clients[w].chunk + k);
    }
  }

  /**
   * The k-th reply that a client accepts has the right first exponent exactly if no worker that pipe 0 counted after
   * its packet had passed has a greater one. Only in 1024-byte broadcasts there is such a worker.
   */
  lemma BroadcastExponent(job: Job, s: System, evs: seq<Event>, w: nat, k: nat)
    requires job.Valid() && IsInit(job, s) && SoundRun(job, s, evs) && w < job.n && k < |Received(job, s, evs, w)|
    ensures var t := Received(job, s, evs, w)[k];
            && (t.reply.e0 == job.MaxExponent(job.Workers(), k, 0) <==>
                forall v: nat | v < job.n && v !in t.seen :: job.exponent(v, k, 0) <= t.reply.e0)
            && (t.seen != job.Workers() ==> job.size != Mtu256 && t.reply.kind == IsBroadcast)
  {
    hide Inv, Below, IsResult, Received, IsInit, After;
    AllReduce(job, s, evs, w);
    ExponentOfSome(job, Received(job, s, evs, w)[k], k);
  }

  lemma ExponentOfSome(job: Job, t: TaggedReply, chunk: nat)
    requires IsResult(job, t, chunk)
    ensures t.reply.e0 == job.MaxExponent(job.Workers(), chunk, 0) <==>
            forall v: nat | v < job.n && v !in t.seen :: job.exponent(v, chunk, 0) <= t.reply.e0
    ensures t.seen != job.Workers() ==> job.size != Mtu256 && t.reply.kind == IsBroadcast
  {
    hide Below, HasSums;
    job.MaxOfSome(t.seen, chunk, 0);
  }

  /** Clean runs from the start of a job are among these. */
  lemma CleanAllReduce(job: Job, s: System, evs: seq<Event>)
    requires job.Valid() && IsInit(job, s) && CleanRun(job, s, evs)
    ensures SoundRun(job, s, evs)
  {
    hide Inv, CleanRun, SoundRun, Run;
    InitInv(job, s);
    CleanIsSound(job, s, evs);
  }
}
