/** Consume passes keep the protocol invariant. */
module ConsumeInvariant {
  import opened Words
  import opened Jobs
  import opened SwitchTables
  import opened SwitchPass
  import opened PipeInvariant
  import opened Protocol
  import opened ProtocolInvariant

  /** What the next-step table does with worker w's packet after consume pass j. */
  lemma ConsumeRow(job: Job, p: Packet, w: nat, r: nat, j: nat, flag: nat, dup: bool)
    requires job.Valid() && j < job.Pipes() && Carries(job, p, w, r, j)
    ensures Step(p, flag, dup) ==
            if j + 1 < job.Pipes() then
              if j == 0 && dup && flag != 0 then Drop
              else ForConsume(CONSUME0 + j + 1, 128 * (j + 1) + 4 * (w % 16))
            else
              if flag == 1 || (dup && flag == 0) then
                ForHarvest(17 - 2 * job.Pipes(), HarvestPort(17 - 2 * job.Pipes()), D1)
              else if dup then Drop else FinishConsume
  {
  }

  /** The packet after the head of link (j, w) is processed, before it is routed on. */
  function Popped(job: Job, s: System, j: nat, w: nat, regs: Registers): System
    requires Shape(job, s) && Enabled(job, s, Consume(j, w))
  {
    var hop := Hop(j, w);
    s.(pipes := s.pipes[j := regs], links := s.links[hop := s.links[hop][1..]],
       hist := Counted(s.hist, j, w, s.links[hop][0].round))
  }

  lemma PoppedLink(job: Job, q: seq<Tagged>, j: nat, w: nat, done: nat, here: bool, before: bool)
    requires q != [] && LinkOk(job, q, j, w, done, here, before)
    ensures LinkOk(job, q[1..], j, w, done, here || q[0].round == done, before)
    ensures q[0].round == done ==> before
  {
    hide Below, BitOf, Carries;
    assert PacketOk(job, q[0], j, w, done, here, before);
  }

  lemma CompleteGrows(job: Job, q: seq<Tagged>, complete: nat, complete': nat, replied: nat)
    requires HarvestOk(job, q, complete, replied) && complete <= complete'
    ensures HarvestOk(job, q, complete', replied)
  {
    hide Below, BitOf, Collected, Verdict, InOrder;
  }

  lemma PoppedContrib(job: Job, s: System, j: nat, w: nat, regs: Registers)
    requires Inv(job, s) && Enabled(job, s, Consume(j, w))
    ensures ContribOk(job, s.clients, Popped(job, s, j, w, regs).hist)
    ensures s.hist.contrib[job.Pipes() - 1] != job.Workers()
  {
    hide Below, BitOf, PipesOk, LinkOk, DownsOk, HarvestOk, Carries;
    PoppedLink(job, s.links[Hop(j, w)], j, w, s.hist.done, w in s.hist.contrib[j], Before(s.clients, s.hist, j, w));
  }

  lemma PoppedLinks(job: Job, s: System, j: nat, w: nat, regs: Registers, j': nat, w': nat)
    requires Inv(job, s) && Enabled(job, s, Consume(j, w)) && j' < job.Pipes() && w' < job.n
    ensures var s' := Popped(job, s, j, w, regs);
            LinkOk(job, s'.links[Hop(j', w')], j', w', s'.hist.done, w' in s'.hist.contrib[j'],
                   Before(s'.clients, s'.hist, j', w'))
  {
    hide Below, BitOf, PipeOk, LinkOk, DownOk, HarvestOk;
    var q, h := s.links[Hop(j', w')], s.hist;
    if j' == j && w' == w {
      PoppedLink(job, q, j, w, h.done, w in h.contrib[j], Before(s.clients, s.hist, j, w));
    } else {
      BeforeHolds(job, q, j', w', h.done, w' in h.contrib[j'], Before(s.clients, s.hist, j', w'));
    }
  }

  lemma PoppedAlmost(job: Job, s: System, j: nat, w: nat, regs: Registers)
    requires Inv(job, s) && Enabled(job, s, Consume(j, w))
    requires PipeOk(job, j, regs, s.hist.done, Popped(job, s, j, w, regs).hist.contrib[j])
    ensures Almost(job, Popped(job, s, j, w, regs))
  {
    hide Below, BitOf, PipeOk, LinkOk, DownOk, HarvestOk;
    var s' := Popped(job, s, j, w, regs);
    PoppedContrib(job, s, j, w, regs);
    forall j', w' | 0 <= j' < job.Pipes() && 0 <= w' < job.n
      ensures LinkOk(job, s'.links[Hop(j', w')], j', w', s'.hist.done, w' in s'.hist.contrib[j'],
                     Before(s'.clients, s'.hist, j', w'))
    {
      PoppedLinks(job, s, j, w, regs, j', w');
    }
    CompleteGrows(job, s.harvest, s.hist.done, Complete(job, s'.hist), s.hist.replied);
  }

  // ---------- where the packet goes ----------

  lemma ForwardCarries(job: Job, p: Packet, w: nat, r: nat, j: nat, p': Packet)
    requires job.Valid() && j + 1 < job.Pipes() && Carries(job, p, w, r, j)
    requires p'.md.worker == w && p'.md.workers == job.n && p'.md.setBit == BitOf(r) && p'.md.e1 == p.md.e1
    requires p'.md.size == job.size && p'.md.workerType == job.workerType
    requires p'.md.packetType == CONSUME0 + j + 1
    requires p'.port == 128 * (j + 1) + 4 * (w % 16) && p'.payload == p.payload[2..]
    ensures Carries(job, p', w, r, j + 1)
    ensures ParsedAsRecirculated(p'.port) && PipeOfPort(p'.port) == j + 1
  {
  }

  lemma ForwardLink(job: Job, q: seq<Tagged>, t: Tagged, j: nat, w: nat, done: nat, here: bool, before: bool)
    requires LinkOk(job, q, j, w, done, here, before) && PacketOk(job, t, j, w, done, here, before)
    requires t.round == done || !before
    requires Repeated(job, t) || forall u | u in q :: u.round != t.round
    ensures LinkOk(job, q + [t], j, w, done, here, before)
  {
    hide Below, BitOf, Carries;
  }

  /** A packet passed on to the next pipe keeps its place in its worker's order. */
  lemma ForwardAlmost(job: Job, s: System, j: nat, w: nat, t: Tagged)
    requires Almost(job, s) && 0 < j < job.Pipes() && w < job.n
    requires PacketOk(job, t, j, w, s.hist.done, w in s.hist.contrib[j], Before(s.clients, s.hist, j, w))
    requires t.round == s.hist.done || !Before(s.clients, s.hist, j, w)
    requires Repeated(job, t) || forall u | u in s.links[Hop(j, w)] :: u.round != t.round
    ensures Almost(job, Append(s, Hop(j, w), t))
  {
    hide Below, BitOf, PipeOk, LinkOk, DownOk, HarvestOk;
    ForwardLink(job, s.links[Hop(j, w)], t, j, w, s.hist.done, w in s.hist.contrib[j], Before(s.clients, s.hist, j, w));
  }

  lemma EnterQueue(job: Job, q: seq<Tagged>, t: Tagged, complete: nat, replied: nat)
    requires HarvestOk(job, q, complete, replied) && HarvestEntryOk(job, t, complete, replied)
    requires forall u | u in q :: InOrder(u, t)
    ensures HarvestOk(job, q + [t], complete, replied)
  {
    hide Below, BitOf, HarvestEntryOk, InOrder;
  }

  lemma EnterAlmost(job: Job, s: System, t: Tagged)
    requires Almost(job, s) && HarvestEntryOk(job, t, Complete(job, s.hist), s.hist.replied)
    requires forall u | u in s.harvest :: InOrder(u, t)
    ensures Almost(job, s.(harvest := s.harvest + [t]))
  {
    hide Below, BitOf, PipeOk, LinkOk, DownOk, HarvestOk, HarvestEntryOk, InOrder;
    EnterQueue(job, s.harvest, t, Complete(job, s.hist), s.hist.replied);
  }

  lemma SettledLink(job: Job, q: seq<Tagged>, j: nat, w: nat, done: nat)
    requires LinkOk(job, q, j, w, done, true, true)
    ensures LinkOk(job, q, j, w, done + 1, false, false)
  {
    hide Below, BitOf, Carries;
  }

  /** When the last pipe has counted everybody, so have all the others. */
  lemma {:induction false} AllCounted(job: Job, s: System, j: nat)
    requires job.Valid() && Shape(job, s) && ContribOk(job, s.clients, s.hist) && j < job.Pipes()
    requires s.hist.contrib[job.Pipes() - 1] == job.Workers()
    ensures s.hist.contrib[j] == job.Workers()
    decreases job.Pipes() - j
  {
    if j + 1 < job.Pipes() {
      AllCounted(job, s, j + 1);
      forall w | w in job.Workers()
        ensures w in s.hist.contrib[j]
      {
        assert Before(s.clients, s.hist, j + 1, w);
      }
      forall w | w in s.hist.contrib[j]
        ensures w in job.Workers()
      {
        assert w < job.n;
      }
    }
  }

  lemma SettledLinkAt(job: Job, s: System, j: nat, w: nat)
    requires Almost(job, s) && s.hist.contrib[job.Pipes() - 1] == job.Workers() && j < job.Pipes() && w < job.n
    ensures LinkOk(job, s.links[Hop(j, w)], j, w, s.hist.done + 1, false, false)
    ensures s.clients[w].chunk == s.hist.done
  {
    hide Below, BitOf, PipesOk, LinksOk, LinkOk, DownsOk, HarvestOk, ClientsOk;
    AllCounted(job, s, j);
    AllCounted(job, s, 0);
    assert w in job.Workers();
    assert w in s.hist.contrib[j] && Before(s.clients, s.hist, j, w) && Before(s.clients, s.hist, 0, w);
    LinkAt(job, s, j, w);
    SettledLink(job, s.links[Hop(j, w)], j, w, s.hist.done);
  }

  lemma SettledLinks(job: Job, s: System)
    requires Almost(job, s) && s.hist.contrib[job.Pipes() - 1] == job.Workers()
    ensures LinksOk(job, s.links, s.clients, Settle(job, s).hist)
  {
    hide Below, BitOf, Almost, LinkOk;
    AlmostShape(job, s);
    var h := Settle(job, s).hist;
    forall j, w | 0 <= j < job.Pipes() && 0 <= w < job.n
      ensures LinkOk(job, s.links[Hop(j, w)], j, w, h.done, w in h.contrib[j], Before(s.clients, h, j, w))
    {
      SettledLinkAt(job, s, j, w);
    }
  }

  lemma SettledPipes(job: Job, s: System)
    requires Almost(job, s) && s.hist.contrib[job.Pipes() - 1] == job.Workers()
    ensures PipesOk(job, s.pipes, Settle(job, s).hist)
  {
    hide Below, BitOf, PipeOk, LinksOk, DownsOk, HarvestOk;
    forall j | 0 <= j < job.Pipes()
      ensures PipeOk(job, j, s.pipes[j], s.hist.done + 1, {})
    {
      AllCounted(job, s, j);
      Rollover(job, j, s.pipes[j], s.hist.done);
    }
  }

  lemma SettledClients(job: Job, s: System)
    requires Almost(job, s) && s.hist.contrib[job.Pipes() - 1] == job.Workers()
    ensures s.hist.replied == s.hist.done
    ensures forall w | 0 <= w < job.n :: s.clients[w].chunk == s.hist.done
  {
    hide Below, BitOf, PipeOk, LinkOk, DownOk, HarvestOk;
    AllCounted(job, s, 0);
    forall w | 0 <= w < job.n
      ensures s.clients[w].chunk == s.hist.done == s.hist.replied
    {
      assert w in job.Workers() && Before(s.clients, s.hist, 0, w);
      assert ClientOk(s.clients[w], s.hist);
    }
    assert s.clients[0].chunk == s.hist.done;
  }

  /** A complete round ends with the same registers and links, read as the start of the next round. */
  lemma SettleInv(job: Job, s: System)
    requires Almost(job, s)
    ensures Inv(job, Settle(job, s))
  {
    hide Below, BitOf, PipesOk, LinksOk, DownsOk, HarvestOk;
    assert 0 in job.Workers();
    if s.hist.contrib[job.Pipes() - 1] == job.Workers() {
      SettledPipes(job, s);
      SettledClients(job, s);
      SettledLinks(job, s);
    }
  }

  // ---------- the whole pass ----------

  ghost predicate FieldsOk(job: Job, t: Tagged, w: nat, j: nat) {
    && t.pkt.md.worker == w && t.pkt.md.setBit == BitOf(t.round)
    && t.pkt.md.size == job.size && t.pkt.md.workerType == job.workerType
    && (j == 0 ==> !t.pkt.md.firstFlag && !t.pkt.md.dupFlag)
    && |t.pkt.payload| == 2 * job.Pipes() - 2 * j && 2 <= |t.pkt.payload|
    && t.pkt.payload[1] == job.Own(w, t.round, 2 * j + 1)
  }

  /** The head of a link and the pipe that will process it, with what the invariant says about them. */
  lemma Head(job: Job, s: System, j: nat, w: nat)
    requires Inv(job, s) && Enabled(job, s, Consume(j, w))
    ensures job.Valid() && Shape(job, s)
    ensures s.hist.replied <= s.hist.done <= s.hist.replied + 1
    ensures PacketOk(job, s.links[Hop(j, w)][0], j, w, s.hist.done, w in s.hist.contrib[j],
                     Before(s.clients, s.hist, j, w))
    ensures PipeOk(job, j, s.pipes[j], s.hist.done, s.hist.contrib[j])
    ensures s.links[Hop(j, w)][0].pkt.md.packetType as int == CONSUME0 + j
    ensures FieldsOk(job, s.links[Hop(j, w)][0], w, j)
    ensures s.hist.contrib[j] <= job.Workers() && |s.hist.contrib[j]| <= job.n
    ensures s.hist.contrib[job.Pipes() - 1] != job.Workers()
    ensures forall u | u in s.harvest && LeavesInTime(u) :: u.round < s.hist.done
  {
    hide Below, BitOf, DownOk, Holds, Collected, InOrder, Verdict;
    var q := s.links[Hop(j, w)];
    assert LinkOk(job, q, j, w, s.hist.done, w in s.hist.contrib[j], Before(s.clients, s.hist, j, w));
    assert PipeOk(job, j, s.pipes[j], s.hist.done, s.hist.contrib[j]);
  }

  /** The tags of the head of link (j, w) after its pass. */
  function Passed(job: Job, s: System, j: nat, w: nat, dup: bool, p: Packet): Tagged
    requires Shape(job, s) && Enabled(job, s, Consume(j, w))
  {
    var t := s.links[Hop(j, w)][0];
    Retag(job, Counted(s.hist, j, w, t.round), t, s.pipes[j], dup, p)
  }

  /** The head of a link after its pass: its round, and what it has seen. */
  lemma PassedTags(job: Job, s: System, j: nat, w: nat, dup: bool, p: Packet)
    requires Inv(job, s) && Enabled(job, s, Consume(j, w))
    ensures var t, u := s.links[Hop(j, w)][0], Passed(job, s, j, w, dup, p);
            && u.pkt == p && u.round == t.round && u.own == dup
            && u.seen == (if j != 0 then t.seen
                          else if t.round == s.hist.done then s.hist.contrib[0] + {w}
                          else job.Workers())
            && (u.early <==> IsHarvest(p.md.packetType) && IsTooEarly(s.pipes[j], t.pkt))
            && u.parts == [SeenBy(job, Counted(s.hist, j, w, t.round), job.Pipes() - 1, t.round)]
  {
    hide Below, BitOf, Inv, PipeOk, PacketOk;
    Head(job, s, j, w);
  }

  /** An entry of the harvest queue whose payload is the last slice, read in the last consume pass. */
  lemma EntryStarts(job: Job, t: Tagged, w: nat, d: Slice, complete: nat, replied: nat)
    requires job.Valid() && w < job.n
    requires t.pkt.md.worker == w && t.pkt.md.size == job.size && t.pkt.md.workerType == job.workerType
    requires t.pkt.md.setBit == BitOf(t.round) && t.pkt.md.packetType as int == 17 - 2 * job.Pipes()
    requires t.pkt.port == HarvestPort(t.pkt.md.packetType) && t.pkt.payload == [d]
    requires job.Pipes() == 1 ==> t.own == t.pkt.md.dupFlag && (t.pkt.md.firstFlag ==> t.pkt.md.dupFlag)
    requires t.early ==> job.Pipes() != 1 && !IsBroadcastEntry(t)
    requires LeavesInTime(t) ==>
               && t.round < complete && replied <= t.round + 1
               && (IsBroadcastEntry(t) ==> replied <= t.round && !t.own)
               && d == Expected(job, w, t.round, t.own, 2 * job.Pipes() - 1)
               && t.seen <= job.Workers() && t.pkt.md.e0 == job.MaxExponent(t.seen, t.round, 0)
               && (job.Pipes() == 1 || !IsBroadcastEntry(t) ==> t.seen == job.Workers())
    ensures HarvestEntryOk(job, t, complete, replied)
  {
    hide Below, BitOf, Verdict;
  }

  lemma FirstHarvestPort(job: Job)
    requires job.Valid()
    ensures ParsedAsRecirculated(HarvestPort(17 - 2 * job.Pipes())) && IsHarvest(17 - 2 * job.Pipes())
  {
  }

  /** A packet goes on to the next pipe. */
  lemma PassOn(job: Job, s: System, j: nat, w: nat, pass: Pass, md: Metadata)
    requires Inv(job, s) && Enabled(job, s, Consume(j, w)) && j + 1 < job.Pipes()
    requires Almost(job, Popped(job, s, j, w, pass.regs))
    requires var t := s.links[Hop(j, w)][0];
             && pass.outcome == Recirculated(Packet(md.(packetType := CONSUME0 + j + 1), 128 * (j + 1) + 4 * (w % 16),
                                                    t.pkt.payload[2..]))
             && md == t.pkt.md.(e0 := md.e0, firstFlag := md.firstFlag, lastFlag := md.lastFlag, dupFlag := md.dupFlag)
    requires var h, u := Counted(s.hist, j, w, s.links[Hop(j, w)][0].round),
                         Passed(job, s, j, w, pass.dup, pass.outcome.pkt);
             && SeenOk(job, u, h.done, w in h.contrib[j + 1])
             && (Repeated(job, u) || (u.round == h.done && w !in s.hist.contrib[j]))
    ensures Almost(job, Route(job, Popped(job, s, j, w, pass.regs), pass.outcome,
                              Passed(job, s, j, w, pass.dup, pass.outcome.pkt)))
  {
    hide Below, BitOf, Inv, Almost, Collected, PipeOk, SeenOk, Repeated;
    Head(job, s, j, w);
    var t, s1, p := s.links[Hop(j, w)][0], Popped(job, s, j, w, pass.regs), pass.outcome.pkt;
    PassedTags(job, s, j, w, pass.dup, p);
    ForwardCarries(job, t.pkt, w, t.round, j, p);
    HereImpliesBefore(job, s1, j + 1, w);
    if w !in s.hist.contrib[j] {
      NotYetBehind(job, s, j + 1, w);
    }
    ForwardAlmost(job, s1, j + 1, w, Passed(job, s, j, w, pass.dup, p));
  }

  /** No packet of the round being collected is in front of pipe j before its worker is counted in pipe j - 1. */
  lemma NotYetBehind(job: Job, s: System, j: nat, w: nat)
    requires Inv(job, s) && 0 < j < job.Pipes() && w < job.n && w !in s.hist.contrib[j - 1]
    ensures Shape(job, s) && forall u | u in s.links[Hop(j, w)] :: u.round != s.hist.done
  {
    hide Below, BitOf, Almost, Carries, SeenOk;
    AlmostShape(job, s);
    LinkAt(job, s, j, w);
  }

  lemma HereImpliesBefore(job: Job, s: System, j: nat, w: nat)
    requires Almost(job, s) && j < job.Pipes() && w < job.n
    ensures w in s.hist.contrib[j] ==> Before(s.clients, s.hist, j, w)
    ensures Shape(job, s)
  {
    hide Below, BitOf, PipeOk, LinkOk, HarvestOk, DownOk;
  }

  /** HARVEST7 broadcasts a packet that was new everywhere and last, and retransmits one that saw a full set again. */
  lemma VerdictByFlags(job: Job, md: Metadata)
    requires job.Valid() && md.size == job.size && md.workerType == job.workerType
    ensures Verdict(md) ==
            if md.firstFlag then (if md.dupFlag then Action.Retransmit else Drop)
            else if md.lastFlag && !md.dupFlag then Broadcast
            else Drop
    ensures Verdict(md.(workerType := ForwardOnly)) == Drop
  {
  }

  /** The worker that completes a round is the one that sees count one (or is the only worker). */
  lemma LastIffComplete(job: Job, K: set<nat>, w: nat)
    requires job.Valid() && K <= job.Workers() && w < job.n && w !in K
    ensures |K| <= job.n
    ensures NewFlag(job, K) == 1 <==> K + {w} == job.Workers()
  {
    job.ContributorCount(K);
    job.ContributorCount(K + {w});
  }

  /** What the tags of a new packet say after its pass. */
  lemma NewSeen(job: Job, s: System, j: nat, w: nat, e0: Byte, p: Packet)
    requires Inv(job, s) && Enabled(job, s, Consume(j, w))
    requires s.links[Hop(j, w)][0].round == s.hist.done && w !in s.hist.contrib[j]
    requires j == 0 ==> e0 == job.MaxExponent(s.hist.contrib[0] + {w}, s.hist.done, 0)
    requires var t := s.links[Hop(j, w)][0];
             && p.md.e0 == (if j == 0 then e0 else t.pkt.md.e0) && p.md.dupFlag == t.pkt.md.dupFlag
             && (t.pkt.md.firstFlag ==> p.md.firstFlag)
    ensures SeenOk(job, Passed(job, s, j, w, false, p), s.hist.done, false)
    ensures j == 0 ==> Passed(job, s, j, w, false, p).seen == s.hist.contrib[0] + {w}
  {
    hide Below, BitOf, Inv, PipeOk, Carries;
    Head(job, s, j, w);
    PassedTags(job, s, j, w, false, p);
    assert w in job.Workers();
  }

  /** A packet counted for the first time. */
  lemma NewAlmost(job: Job, s: System, j: nat, w: nat)
    requires Inv(job, s) && Enabled(job, s, Consume(j, w))
    requires s.links[Hop(j, w)][0].round == s.hist.done && w !in s.hist.contrib[j]
    ensures Almost(job, ConsumeHead(job, s, j, w))
  {
    hide Below, BitOf, PipeOk, NextStep, ConsumePass, Carries, Almost, Inv, SeenOk;
    Head(job, s, j, w);
    var t, K := s.links[Hop(j, w)][0], s.hist.contrib[j];
    var e0 := ConsumeNew(job, j, s.pipes[j], t.round, K, t.pkt, w);
    var pass, flag := ConsumePass(s.pipes[j], t.pkt), NewFlag(job, K);
    PoppedAlmost(job, s, j, w, pass.regs);
    ConsumeRow(job, t.pkt, w, t.round, j, flag, false);
    if j + 1 < job.Pipes() {
      NewSeen(job, s, j, w, e0, pass.outcome.pkt);
      NotCountedLater(job, s, j, w);
      PassOn(job, s, j, w, pass, MetadataAfter(t.pkt, e0, flag, false));
    } else {
      LastIffComplete(job, K, w);
      if flag == 1 {
        NewSeen(job, s, j, w, e0, pass.outcome.pkt);
        NewEnters(job, s, j, w, t, pass, MetadataAfter(t.pkt, e0, flag, false));
      }
    }
  }

  lemma NotCountedLater(job: Job, s: System, j: nat, w: nat)
    requires Inv(job, s) && j + 1 < job.Pipes() && w < job.n && w !in s.hist.contrib[j]
    ensures w !in s.hist.contrib[j + 1]
  {
    hide Below, BitOf, Almost;
    HereImpliesBefore(job, s, j + 1, w);
  }

  /** The completing packet joins the harvest queue behind everything of earlier rounds. */
  lemma NewEnters(job: Job, s: System, j: nat, w: nat, t: Tagged, pass: Pass, md: Metadata)
    requires job.Valid() && Shape(job, s) && Enabled(job, s, Consume(j, w)) && j + 1 == job.Pipes()
    requires t == s.links[Hop(j, w)][0] && FieldsOk(job, t, w, j)
    requires Inv(job, s) && Almost(job, Popped(job, s, j, w, pass.regs))
    requires t.round == s.hist.done && s.hist.contrib[j] + {w} == job.Workers() && !pass.dup && w !in s.hist.contrib[j]
    requires md == t.pkt.md.(e0 := md.e0, firstFlag := md.firstFlag, lastFlag := md.lastFlag, dupFlag := md.dupFlag)
    requires j == 0 ==> !md.firstFlag && !md.dupFlag
    requires pass.outcome == Recirculated(Packet(md.(packetType := 15 - 2 * j), HarvestPort(15 - 2 * j),
                                                 [job.Full(t.round, 2 * j + 1)] + t.pkt.payload[2..]))
    requires SeenOk(job, Passed(job, s, j, w, false, pass.outcome.pkt), t.round, false)
    requires j == 0 ==> Passed(job, s, j, w, false, pass.outcome.pkt).seen == job.Workers()
    ensures Almost(job, Route(job, Popped(job, s, j, w, pass.regs), pass.outcome,
                              Passed(job, s, j, w, false, pass.outcome.pkt)))
  {
    hide Below, BitOf, NextStep, Verdict, Almost, Inv, Collected, PipeOk, PacketOk, HarvestPort;
    hide ParsedAsRecirculated, PipeOfPort;
    FirstHarvestPort(job);
    Head(job, s, j, w);
    PassedTags(job, s, j, w, false, pass.outcome.pkt);
    NewIsInTime(job, s, j, w);
    var s1 := Popped(job, s, j, w, pass.regs);
    var u, d := Passed(job, s, j, w, false, pass.outcome.pkt), job.Full(t.round, 2 * j + 1);
    assert u.pkt.payload == [d];
    VerdictByFlags(job, u.pkt.md);
    EntryStarts(job, u, w, d, t.round + 1, s.hist.replied);
    HereImpliesBefore(job, s1, j, w);
    EnterAlmost(job, s1, u);
  }

  /** A packet that is new in a pipe is never too early there. */
  lemma NewIsInTime(job: Job, s: System, j: nat, w: nat)
    requires Inv(job, s) && Enabled(job, s, Consume(j, w))
    requires s.links[Hop(j, w)][0].round == s.hist.done && w !in s.hist.contrib[j]
    ensures !IsTooEarly(s.pipes[j], s.links[Hop(j, w)][0].pkt)
  {
    hide Below, BitOf, Inv, Holds, SeenOk;
    Head(job, s, j, w);
  }

  /** What the tags of a retransmission say after its pass: all of it was complete in pipe 0. */
  lemma OldSeen(job: Job, s: System, j: nat, w: nat, p: Packet)
    requires Inv(job, s) && Enabled(job, s, Consume(j, w))
    requires var t := s.links[Hop(j, w)][0];
             (t.round == s.hist.done && w in s.hist.contrib[j]) ||
             (t.round + 1 == s.hist.done && w !in s.hist.contrib[j])
    requires j == 0 && s.links[Hop(j, w)][0].round == s.hist.done ==> s.hist.contrib[0] == job.Workers()
    requires var t := s.links[Hop(j, w)][0];
             && p.md.e0 == (if j == 0 then s.pipes[0].At(BitOf(t.round)).e0 else t.pkt.md.e0)
             && p.md.dupFlag && (t.pkt.md.firstFlag || j == 0 ==> p.md.firstFlag)
    ensures var u := Passed(job, s, j, w, true, p);
            Repeated(job, u) && u.pkt.md.e0 == job.MaxExponent(u.seen, u.round, 0)
  {
    hide Below, BitOf, Inv, PipeOk, Carries;
    Head(job, s, j, w);
    PassedTags(job, s, j, w, true, p);
    var t := s.links[Hop(j, w)][0];
    if j == 0 {
      if t.round == s.hist.done {
        assert s.hist.contrib[0] + {w} == job.Workers();
        FullExponent(job, s.pipes[0], s.hist.done);
      } else {
        OldExponent(job, s.pipes[0], s.hist.done, s.hist.contrib[0]);
      }
    }
  }

  lemma FullExponent(job: Job, regs: Registers, done: nat)
    requires PipeOk(job, 0, regs, done, job.Workers()) && job.Valid()
    ensures regs.At(BitOf(done)).e0 == job.MaxExponent(job.Workers(), done, 0)
  {
    hide Below, BitOf;
    assert 0 in job.Workers();
  }

  lemma OldExponent(job: Job, regs: Registers, done: nat, K: set<nat>)
    requires PipeOk(job, 0, regs, done, K) && 1 <= done
    ensures regs.At(BitOf(done - 1)).e0 == job.MaxExponent(job.Workers(), done - 1, 0)
  {
    NextBit(done - 1);
  }

  /** A packet counted before. */
  lemma OldAlmost(job: Job, s: System, j: nat, w: nat)
    requires Inv(job, s) && Enabled(job, s, Consume(j, w))
    requires var t := s.links[Hop(j, w)][0];
             (t.round == s.hist.done && w in s.hist.contrib[j]) ||
             (t.round + 1 == s.hist.done && w !in s.hist.contrib[j])
    ensures Almost(job, ConsumeHead(job, s, j, w))
  {
    hide Below, BitOf, PipeOk, NextStep, ConsumePass, Carries, Almost, Inv, SeenOk;
    Head(job, s, j, w);
    var t, K := s.links[Hop(j, w)][0], s.hist.contrib[j];
    ConsumeOld(job, j, s.pipes[j], s.hist.done, K, t.pkt, w, t.round);
    var pass := ConsumePass(s.pipes[j], t.pkt);
    if t.round == s.hist.done {
      assert K + {w} == K;
    }
    FlagZero(job, K, w);
    PoppedAlmost(job, s, j, w, pass.regs);
    ConsumeRow(job, t.pkt, w, t.round, j, pass.flag, true);
    var md := MetadataAfter(t.pkt, s.pipes[j].At(BitOf(t.round)).e0, pass.flag, true);
    if j + 1 < job.Pipes() {
      if j != 0 || pass.flag == 0 {
        OldSeen(job, s, j, w, pass.outcome.pkt);
        RepeatedIsSeen(job, Passed(job, s, j, w, true, pass.outcome.pkt), s.hist.done, w in s.hist.contrib[j + 1]);
        PassOn(job, s, j, w, pass, md);
      }
    } else if pass.flag <= 1 {
      OldEnters(job, s, j, w, t, pass, md);
    }
  }

  lemma FlagZero(job: Job, K: set<nat>, w: nat)
    requires job.Valid() && K <= job.Workers()
    ensures |K| <= job.n && (w in K && CountOf(job, K) == 0 ==> K == job.Workers())
  {
    job.ContributorCount(K);
  }

  lemma RepeatedIsSeen(job: Job, t: Tagged, done: nat, here: bool)
    requires Repeated(job, t) && t.pkt.md.e0 == job.MaxExponent(t.seen, t.round, 0)
    ensures SeenOk(job, t, done, here)
  {
  }

  /** A retransmission joins the harvest queue: to be answered in time, to be answered too early, or to be dropped. */
  lemma OldEnters(job: Job, s: System, j: nat, w: nat, t: Tagged, pass: Pass, md: Metadata)
    requires job.Valid() && Shape(job, s) && Enabled(job, s, Consume(j, w)) && j + 1 == job.Pipes()
    requires t == s.links[Hop(j, w)][0] && FieldsOk(job, t, w, j) && |s.hist.contrib[j]| <= job.n
    requires Inv(job, s) && Almost(job, Popped(job, s, j, w, pass.regs))
    requires (t.round == s.hist.done && w in s.hist.contrib[j] && pass.flag == CountOf(job, s.hist.contrib[j])) ||
             (t.round + 1 == s.hist.done && w !in s.hist.contrib[j] && pass.flag == 0)
    requires md == MetadataAfter(t.pkt, s.pipes[j].At(BitOf(t.round)).e0, pass.flag, true)
    requires pass.dup && pass.flag <= 1
    requires pass.outcome == Recirculated(Packet(md.(packetType := 15 - 2 * j), HarvestPort(15 - 2 * j),
                                                 [t.pkt.payload[1]] + t.pkt.payload[2..]))
    ensures Almost(job, Route(job, Popped(job, s, j, w, pass.regs), pass.outcome,
                              Passed(job, s, j, w, true, pass.outcome.pkt)))
  {
    hide Below, BitOf, NextStep, Verdict, Almost, Inv, Collected, PipeOk, PacketOk, HarvestPort;
    hide ParsedAsRecirculated, PipeOfPort, IsTooEarly;
    FirstHarvestPort(job);
    Head(job, s, j, w);
    var s1, h := Popped(job, s, j, w, pass.regs), s.hist;
    PassedTags(job, s, j, w, true, pass.outcome.pkt);
    var u, d := Passed(job, s, j, w, true, pass.outcome.pkt), t.pkt.payload[1];
    EarlyByFlag(job, s, j, w, pass.flag);
    OldVerdict(job, u, t.pkt, w, h.done, h.contrib[j], pass.flag);
    assert u.pkt.payload == [d];
    if t.round + 1 == h.done {
      OldSeen(job, s, j, w, pass.outcome.pkt);
    }
    EntryStarts(job, u, w, d, h.done, h.replied);
    HereImpliesBefore(job, s1, j, w);
    assert Complete(job, s1.hist) == h.done;
    EnterAlmost(job, s1, u);
  }

  /** A retransmission is too early exactly when it sees the last flag and carries the first flag. */
  lemma EarlyByFlag(job: Job, s: System, j: nat, w: nat, flag: nat)
    requires Inv(job, s) && Enabled(job, s, Consume(j, w)) && |s.hist.contrib[j]| <= job.n
    requires var t := s.links[Hop(j, w)][0];
             (t.round == s.hist.done && w in s.hist.contrib[j] && flag == CountOf(job, s.hist.contrib[j])) ||
             (t.round + 1 == s.hist.done && w !in s.hist.contrib[j] && flag == 0)
    ensures IsTooEarly(s.pipes[j], s.links[Hop(j, w)][0].pkt) <==> flag == 1 && s.links[Hop(j, w)][0].pkt.md.firstFlag
  {
    hide Below, BitOf, Inv, Holds, SeenOk;
    Head(job, s, j, w);
    var t, K := s.links[Hop(j, w)][0], s.hist.contrib[j];
    NextBit(t.round);
    if job.n == 1 && w in K {
      SubsetSize({w}, K);
    }
  }

  /** A retransmission is answered in time exactly when it belongs to the previous round, which is complete. */
  lemma OldVerdict(job: Job, u: Tagged, p: Packet, w: nat, done: nat, K: set<nat>, flag: nat)
    requires job.Valid() && K <= job.Workers() && K != job.Workers() && |K| <= job.n
    requires (u.round == done && w in K && flag == CountOf(job, K)) || (u.round + 1 == done && flag == 0)
    requires flag <= 1 && (u.early <==> flag == 1 && p.md.firstFlag)
    requires u.pkt.md.size == job.size && u.pkt.md.workerType == job.workerType
    requires u.pkt.md.dupFlag && u.pkt.md.firstFlag == (p.md.firstFlag || flag == 0)
    ensures LeavesInTime(u) <==> u.round + 1 == done
    ensures Leaves(u) <==> u.round + 1 == done || u.early
    ensures !IsBroadcastEntry(u)
  {
    job.ContributorCount(K);
    VerdictByFlags(job, u.pkt.md);
  }

  lemma ConsumeInv(job: Job, s: System, j: nat, w: nat)
    requires Inv(job, s) && Enabled(job, s, Consume(j, w))
    ensures Inv(job, Next(job, s, Consume(j, w)))
  {
    hide Below, BitOf, Inv, Almost, PipeOk, Carries, SeenOk;
    Head(job, s, j, w);
    if s.links[Hop(j, w)][0].round == s.hist.done && w !in s.hist.contrib[j] {
      NewAlmost(job, s, j, w);
    } else {
      OldAlmost(job, s, j, w);
    }
    SettleInv(job, ConsumeHead(job, s, j, w));
  }
}
