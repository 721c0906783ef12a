/**
 * What the registers of one slot in one pipe hold, in terms of the workers whose packets the pipe has counted.
 * `done` is the round the pipe is collecting and K the workers it has already counted for that round.
 */
module PipeInvariant {
  import opened Words
  import opened Jobs
  import opened SwitchTables
  import opened SwitchPass

  /** Clients flip the set bit for every chunk, starting with set 0. */
  function BitOf(r: nat): Bit {
    r % 2
  }

  lemma NextBit(r: nat)
    ensures BitOf(r + 1) == 1 - BitOf(r)
  {
  }

  /** The set's sums (and in pipe 0 its exponents) are those of round r over the workers in K. */
  ghost predicate Holds(job: Job, j: nat, v: SetRegisters, K: set<nat>, r: nat) {
    && v.d0 == job.Part(K, r, 2 * j)
    && v.d1 == job.Part(K, r, 2 * j + 1)
    && (j == 0 ==> v.e0 == job.MaxExponent(K, r, 0) && v.e1 == job.MaxExponent(K, r, 1))
  }

  /** The count register of a set to which the workers in K have contributed: n - |K|, modulo n. */
  function CountOf(job: Job, K: set<nat>): nat
    requires 1 <= job.n && |K| <= job.n
  {
    if |K| == 0 then 0 else job.n - |K|
  }

  /** `cur` is the set of the round being collected, `prev` the set of the round before it. */
  ghost predicate SetsOk(job: Job, j: nat, cur: SetRegisters, prev: SetRegisters, done: nat, K: set<nat>) {
    && job.Valid()
    && K <= job.Workers()
    && |K| <= job.n
    && cur.members == K
    && cur.count == CountOf(job, K)
    && prev.members == (if done == 0 then {} else job.Workers() - K)
    && prev.count == 0
    && (K != {} ==> Holds(job, j, cur, K, done))
    && (K == {} && 2 <= done ==> Holds(job, j, cur, job.Workers(), done - 2))
    && (1 <= done ==> Holds(job, j, prev, job.Workers(), done - 1))
  }

  ghost predicate PipeOk(job: Job, j: nat, regs: Registers, done: nat, K: set<nat>) {
    SetsOk(job, j, regs.At(BitOf(done)), regs.At(1 - BitOf(done)), done, K)
  }

  /** Packet p is worker w's chunk r on its way into consume pass j. */
  ghost predicate Carries(job: Job, p: Packet, w: nat, r: nat, j: nat) {
    && p.md.worker == w && p.md.workers == job.n && p.md.setBit == BitOf(r)
    && p.md.size == job.size && p.md.workerType == job.workerType && p.md.packetType as int == CONSUME0 + j
    && p.md.e1 == job.exponent(w, r, 1)
    && (j == 0 ==> p.md.e0 == job.exponent(w, r, 0))
    && (j == 0 ==> !p.md.firstFlag && !p.md.lastFlag && !p.md.dupFlag)
    && (j != 0 ==> p.port == 128 * j + 4 * (w % 16))
    && |p.payload| == 2 * job.Pipes() - 2 * j
    && forall i | 0 <= i < |p.payload| :: p.payload[i] == job.Own(w, r, 2 * j + i)
  }

  /** first_last_flag of a packet that is counted for the first time. */
  function NewFlag(job: Job, K: set<nat>): nat
    requires 1 <= job.n && |K| <= job.n
  {
    if job.n == 1 then 1 else CountOf(job, K)
  }

  /** The metadata after a consume pass, before the next step changes the packet type. */
  function MetadataAfter(p: Packet, e0: Byte, flag: nat, dup: bool): Metadata {
    Stick(if p.md.packetType == CONSUME0 then p.md.(e0 := e0) else p.md, flag, dup)
  }

  function Step(p: Packet, flag: nat, dup: bool): Action {
    NextStep(p.md.size, p.md.worker, p.md.packetType, flag, dup, p.md.workerType, p.port)
  }

  /** The effect of a consume pass on the addressed set and on the other one. */
  lemma ConsumeEffect(regs: Registers, p: Packet)
    requires 2 <= |p.payload|
    ensures var pass, b, w := ConsumePass(regs, p), p.md.setBit, p.md.worker;
            var cur, prev := regs.At(b), regs.At(1 - b);
            var dup, first := w in cur.members, IsUntouched(cur);
            var flag := CountFlag(cur.count, p.md.workers, dup);
            var counted := cur.(members := cur.members + {w}, count := CountAfter(cur.count, p.md.workers, dup));
            var v := Aggregated(counted, first, dup, p.md.packetType, p.payload[0], p.payload[1], p.md.e0, p.md.e1);
            && pass.regs.At(b) == v && pass.regs.At(1 - b) == prev.(members := prev.members - {w})
            && pass.dup == dup && pass.flag == flag
            && pass.outcome == Perform(Step(p, flag, dup), MetadataAfter(p, v.e0, flag, dup),
                                       if !first && dup then v.d0 else p.payload[0],
                                       if first || !dup then v.d1 else p.payload[1], p.payload[2..])
  {
    hide NextStep, Perform, Stick, Aggregated;
  }

  /** A packet not counted before is added exactly once, and reads back the second half of the new sum. */
  lemma ConsumeNew(job: Job, j: nat, regs: Registers, done: nat, K: set<nat>, p: Packet, w: nat) returns (e0: Byte)
    requires PipeOk(job, j, regs, done, K)
    requires j < job.Pipes() && w < job.n && w !in K && Carries(job, p, w, done, j)
    ensures |K + {w}| <= job.n
    ensures PipeOk(job, j, ConsumePass(regs, p).regs, done, K + {w})
    ensures j == 0 ==> e0 == job.MaxExponent(K + {w}, done, 0)
    ensures var flag := NewFlag(job, K);
            var pass := ConsumePass(regs, p);
            && !pass.dup && pass.flag == flag
            && pass.outcome == Perform(Step(p, flag, false), MetadataAfter(p, e0, flag, false),
                                       p.payload[0], job.Part(K + {w}, done, 2 * j + 1), p.payload[2..])
  {
    hide NextStep, Perform, Stick, Aggregated, ConsumePass, BitOf, Below;
    job.ContributorCount(K);
    job.ContributorCount(K + {w});
    var cur := regs.At(BitOf(done));
    var counted := cur.(members := K + {w}, count := CountAfter(cur.count, job.n, false));
    ConsumeEffect(regs, p);
    SumStep(job, j, counted, done, K, p, w);
    AggregatedFrame(counted, K == {}, p);
    assert job.Workers() - (K + {w}) == (job.Workers() - K) - {w};
    e0 := ConsumePass(regs, p).regs.At(BitOf(done)).e0;
  }

  lemma AggregatedFrame(v: SetRegisters, first: bool, p: Packet)
    requires 2 <= |p.payload|
    ensures var v' := Aggregated(v, first, false, p.md.packetType, p.payload[0], p.payload[1], p.md.e0, p.md.e1);
            v'.members == v.members && v'.count == v.count
  {
  }

  lemma SumStep(job: Job, j: nat, v: SetRegisters, done: nat, K: set<nat>, p: Packet, w: nat)
    requires j < job.Pipes() && w < job.n && w !in K && Carries(job, p, w, done, j)
    requires K != {} ==> Holds(job, j, v, K, done)
    ensures Holds(job, j,
                  Aggregated(v, K == {}, false, p.md.packetType, p.payload[0], p.payload[1], p.md.e0, p.md.e1),
                  K + {w}, done)
  {
    forall h: nat | h < 2
      ensures job.MaxExponent(K + {w}, done, h) == Max(job.MaxExponent(K, done, h), job.exponent(w, done, h))
    {
      job.MaxBelowAdd(K, w, done, h, job.n);
    }
    if K == {} {
      assert K + {w} == {w};
      job.PartSingle(w, done, 2 * j);
      job.PartSingle(w, done, 2 * j + 1);
      job.MaxBelowNone(done, 0, job.n);
      job.MaxBelowNone(done, 1, job.n);
    } else {
      job.PartAdd(K, w, done, 2 * j);
      job.PartAdd(K, w, done, 2 * j + 1);
    }
  }

  /**
   * A packet counted before, whether for the round being collected or for the one before it, changes no register.
   * It sees count zero exactly when its round is complete in this pipe.
   */
  lemma ConsumeOld(job: Job, j: nat, regs: Registers, done: nat, K: set<nat>, p: Packet, w: nat, r: nat)
    requires PipeOk(job, j, regs, done, K)
    requires j < job.Pipes() && w < job.n && Carries(job, p, w, r, j)
    requires (r == done && w in K) || (r + 1 == done && w !in K)
    ensures var flag := if r == done then CountOf(job, K) else 0;
            var pass := ConsumePass(regs, p);
            && pass.regs == regs && pass.dup && pass.flag == flag
            && pass.outcome == Perform(Step(p, flag, true), MetadataAfter(p, regs.At(BitOf(r)).e0, flag, true),
                                       regs.At(BitOf(r)).d0, p.payload[1], p.payload[2..])
  {
    hide NextStep, Perform, Stick, ConsumePass, Holds, BitOf, Below;
    job.ContributorCount(K);
    NextBit(r);
    var b := BitOf(r);
    ConsumeEffect(regs, p);
    assert w in regs.At(b).members && w !in regs.At(1 - b).members;
    assert regs.At(b).members + {w} == regs.At(b).members;
    assert regs.At(1 - b).members - {w} == regs.At(1 - b).members;
    if job.n == 1 && r == done {
      assert {w} <= K;
      SubsetSize({w}, K);
    }
  }

  /** Once every worker is counted, the same registers describe the start of the next round. */
  lemma Rollover(job: Job, j: nat, regs: Registers, done: nat)
    requires PipeOk(job, j, regs, done, job.Workers())
    ensures PipeOk(job, j, regs, done + 1, {})
  {
    hide Holds, BitOf, Below;
    assert 0 in job.Workers();
    job.ContributorCount(job.Workers());
    NextBit(done);
    assert job.Workers() - job.Workers() == {};
    assert job.Workers() - {} == job.Workers();
  }
}
