/** What bitmaps, counts and sums mean in every state of a run, and why a set may be overwritten when it is. */
module SlotReuse {
  import opened Words
  import opened Jobs
  import opened SwitchPass
  import opened PipeInvariant
  import opened Protocol
  import opened ProtocolInvariant
  import opened HarvestInvariant
  import opened ConsumeInvariant
  import opened ProtocolSafety
  import opened EarlyAnswers

  /**
   * In every pipe the two bitmaps of a slot never share a worker, and from the first complete round on every worker
   * is in one of them. The set being collected holds exactly the sums of the workers in its bitmap, each counted
   * once, and its count register is the number of missing workers; the other set holds the complete previous round.
   */
  lemma RegistersInEveryState(job: Job, s: System, j: nat)
    requires Reachable(job, s) && j < job.Pipes() && j < |s.pipes|
    ensures var done := s.hist.done;
            var cur, prev := s.pipes[j].At(BitOf(done)), s.pipes[j].At(1 - BitOf(done));
            && cur.members !! prev.members
            && (1 <= done ==> cur.members + prev.members == job.Workers())
            && cur.count == (if cur.members == {} then 0 else job.n - |cur.members|) && prev.count == 0
            && (forall i | 0 <= i < 32 && cur.members != {} ::
                  && cur.d0[i] == job.Sum(cur.members, done, 64 * j + i) % MODULUS
                  && cur.d1[i] == job.Sum(cur.members, done, 64 * j + 32 + i) % MODULUS)
            && (forall i | 0 <= i < 32 && 1 <= done ::
                  && prev.d0[i] == job.Sum(job.Workers(), done - 1, 64 * j + i) % MODULUS
                  && prev.d1[i] == job.Sum(job.Workers(), done - 1, 64 * j + 32 + i) % MODULUS)
            && (j == 0 && cur.members != {} ==>
                cur.e0 == job.MaxExponent(cur.members, done, 0) && cur.e1 == job.MaxExponent(cur.members, done, 1))
  {
    hide Inv, Below, BitOf, Reachable, Holds;
    ReachableInv(job, s);
    PipeAt(job, s, j);
    var done, K := s.hist.done, s.hist.contrib[j];
    var cur, prev := s.pipes[j].At(BitOf(done)), s.pipes[j].At(1 - BitOf(done));
    assert 1 <= done ==> K + (job.Workers() - K) == job.Workers();
    if K != {} {
      HoldsWords(job, j, cur, K, done);
    }
    if 1 <= done {
      HoldsWords(job, j, prev, job.Workers(), done - 1);
    }
  }

  lemma HoldsWords(job: Job, j: nat, v: SetRegisters, K: set<nat>, r: nat)
    requires Holds(job, j, v, K, r)
    ensures forall i | 0 <= i < 32 ::
              && v.d0[i] == job.Sum(K, r, 64 * j + i) % MODULUS
              && v.d1[i] == job.Sum(K, r, 64 * j + 32 + i) % MODULUS
    ensures j == 0 ==> v.e0 == job.MaxExponent(K, r, 0) && v.e1 == job.MaxExponent(K, r, 1)
  {
    hide Below;
    assert forall i | 0 <= i < 32 :: v.d0[i] == job.Sum(K, r, 32 * (2 * j) + i) % MODULUS;
    assert forall i | 0 <= i < 32 :: v.d1[i] == job.Sum(K, r, 32 * (2 * j + 1) + i) % MODULUS;
  }

  lemma PipeAt(job: Job, s: System, j: nat)
    requires Inv(job, s) && j < job.Pipes()
    ensures Shape(job, s) && PipeOk(job, j, s.pipes[j], s.hist.done, s.hist.contrib[j])
  {
    hide Below, BitOf, LinksOk, DownsOk, HarvestOk, ClientsOk, ContribOk, PipeOk;
  }

  /**
   * Split-phase consistency: as long as a packet that will be answered is on its way through the harvest passes, in
   * every pipe the set it reads still holds the sum of its round over all workers.
   */
  lemma HarvestReadsItsRound(job: Job, s: System, i: nat, j: nat)
    requires Reachable(job, s) && i < |s.harvest| && LeavesInTime(s.harvest[i]) && j < job.Pipes() && j < |s.pipes|
    ensures var t := s.harvest[i];
            var v := s.pipes[j].At(t.pkt.md.setBit);
            forall k | 0 <= k < 32 ::
              && v.d0[k] == job.Sum(job.Workers(), t.round, 64 * j + k) % MODULUS
              && v.d1[k] == job.Sum(job.Workers(), t.round, 64 * j + 32 + k) % MODULUS
  {
    hide Inv, Below, BitOf, Verdict, Holds, Collected;
    ReachableInv(job, s);
    HarvestAt(job, s, i);
    LeavingHolds(job, s, i, j);
    HoldsWords(job, j, s.pipes[j].At(s.harvest[i].pkt.md.setBit), job.Workers(), s.harvest[i].round);
  }

  /** Two clients are never more than one chunk apart. */
  lemma ClientsInLockstep(job: Job, s: System, v: nat, w: nat)
    requires Reachable(job, s) && v < job.n && w < job.n && |s.clients| == job.n
    ensures s.clients[v].chunk <= s.clients[w].chunk + 1
    ensures s.clients[v].setBit == BitOf(s.clients[v].chunk)
  {
    hide Inv, Below, BitOf;
    ReachableInv(job, s);
    InvClients(job, s);
  }

  lemma InvClients(job: Job, s: System)
    requires Inv(job, s)
    ensures Shape(job, s) && ClientsOk(job, s.clients, s.hist) && s.hist.replied <= s.hist.done <= s.hist.replied + 1
  {
    hide Below, BitOf, LinksOk, DownsOk, HarvestOk, PipesOk, ContribOk, ClientsOk;
  }

  /**
   * Safe reuse: when a packet finds its set's bitmap empty and therefore overwrites the sums, it carries its
   * client's outstanding chunk r, every client has accepted chunk r - 2, which the set held before, no answer for
   * that chunk is being collected any more, and everybody has been counted for chunk r - 1.
   */
  lemma OverwriteIsSafe(job: Job, s: System, j: nat, w: nat)
    requires Reachable(job, s) && Shape(job, s) && Enabled(job, s, Consume(j, w))
    requires IsUntouched(s.pipes[j].At(s.links[Hop(j, w)][0].pkt.md.setBit))
    ensures var r := s.links[Hop(j, w)][0].round;
            && s.clients[w].chunk == r
            && (forall v | 0 <= v < job.n :: r <= s.clients[v].chunk + 1)
            && (forall i | 0 <= i < |s.harvest| && Leaves(s.harvest[i]) :: r <= s.harvest[i].round + 1)
            && (1 <= r ==> s.pipes[j].At(1 - BitOf(r)).members == job.Workers())
  {
    hide Inv, EarlyInv, Below, BitOf, Holds, Carries, Verdict, Reachable;
    ReachableEarly(job, s);
    Head(job, s, j, w);
    InvClients(job, s);
    var t, K := s.links[Hop(j, w)][0], s.hist.contrib[j];
    NextBit(t.round);
    assert K != job.Workers() || w in K;
    assert job.Workers() - {} == job.Workers();
    Outstanding(job, s, j, w);
    forall i | 0 <= i < |s.harvest| && Leaves(s.harvest[i])
      ensures t.round <= s.harvest[i].round + 1
    {
      HarvestAt(job, s, i);
      EarlyAt(job, s, i);
    }
  }

  lemma EarlyAt(job: Job, s: System, i: nat)
    requires EarlyInv(job, s) && i < |s.harvest|
    ensures s.harvest[i].early ==> s.hist.replied <= s.harvest[i].round
  {
    hide Partial, Verdict;
  }

  /** A packet of the round being collected, wherever it is, carries its client's outstanding chunk. */
  lemma Outstanding(job: Job, s: System, j: nat, w: nat)
    requires Inv(job, s) && Enabled(job, s, Consume(j, w)) && s.links[Hop(j, w)][0].round == s.hist.done
    ensures s.clients[w].chunk == s.hist.done
  {
    hide Below, BitOf, LinksOk, DownsOk, HarvestOk, PipesOk, Carries;
    LinkAt(job, s, j, w);
    assert PacketOk(job, s.links[Hop(j, w)][0], j, w, s.hist.done, w in s.hist.contrib[j],
                    Before(s.clients, s.hist, j, w));
    if j != 0 {
      CountedMeansOutstanding(job, s, j - 1, w);
    }
  }
}
