/**
 * A reduction job: how many workers it has, what every worker contributes to every chunk of the stream that
 * passes through one slot, and, as plain sums over workers, what the switch is supposed to send back.
 */
module Jobs {
  import opened Words

  datatype PacketSize = Mtu128 | Mtu256 | Mtu512 | Mtu1024

  datatype WorkerType = ForwardOnly | SwitchmlUdp | Rocev2

  /**
   * `word(w, r, i)` is the i-th significand of worker w's chunk r, and `exponent(w, r, h)` its h-th exponent.
   * The chunk stream is unbounded.
   */
  datatype Job = Job(n: nat, size: PacketSize, workerType: WorkerType,
                     word: (nat, nat, nat) -> Word, exponent: (nat, nat, nat) -> Byte)
  {
    ghost predicate Valid() {
      && 1 <= n <= 32
      && (size == Mtu256 || size == Mtu1024)
      && (workerType == SwitchmlUdp || workerType == Rocev2)
    }

    /** 256-byte packets use pipe 0 only, 1024-byte packets all four pipes. */
    function Pipes(): nat {
      if size == Mtu1024 then 4 else 1
    }

    function Workers(): set<nat> {
      Below(n)
    }

    function WordAt(w: nat, r: nat, i: nat): Word {
      word(w, r, i)
    }

    /** The exact, unbounded sum of the i-th significands of the workers below m that are in K. */
    function SumBelow(K: set<nat>, r: nat, i: nat, m: nat): nat {
      if m == 0 then 0 else SumBelow(K, r, i, m - 1) + if m - 1 in K then WordAt(m - 1, r, i) else 0
    }

    function Sum(K: set<nat>, r: nat, i: nat): nat {
      SumBelow(K, r, i, n)
    }

    /** Slice number `slice` of the sum over K, as 32-bit words. */
    function Part(K: set<nat>, r: nat, slice: nat): (s: Slice)
      ensures forall i | 0 <= i < 32 :: s[i] == Sum(K, r, 32 * slice + i) % MODULUS
    {
      seq(32, i requires 0 <= i < 32 => Sum(K, r, 32 * slice + i) % MODULUS)
    }

    /** The result of round r: every worker counted. */
    function Full(r: nat, slice: nat): Slice {
      Part(Workers(), r, slice)
    }

    /** What worker w itself sends in slice number `slice` of chunk r. */
    function Own(w: nat, r: nat, slice: nat): (s: Slice)
      ensures forall i | 0 <= i < 32 :: s[i] == WordAt(w, r, 32 * slice + i)
    {
      var s := seq(32, i requires 0 <= i < 32 => WordAt(w, r, 32 * slice + i));
      assert forall i | 0 <= i < 32 :: s[i] == WordAt(w, r, 32 * slice + i);
      s
    }

    function MaxBelow(K: set<nat>, r: nat, h: nat, m: nat): nat {
      if m == 0 then 0 else Max(MaxBelow(K, r, h, m - 1), if m - 1 in K then exponent(m - 1, r, h) else 0)
    }

    function MaxExponent(K: set<nat>, r: nat, h: nat): nat {
      MaxBelow(K, r, h, n)
    }

    /** Adding a worker that was not yet counted adds exactly its own word. */
    lemma {:induction false} SumBelowAdd(K: set<nat>, w: nat, r: nat, i: nat, m: nat)
      requires w !in K
      ensures SumBelow(K + {w}, r, i, m) == SumBelow(K, r, i, m) + if w < m then WordAt(w, r, i) else 0
    {
      if m != 0 {
        SumBelowAdd(K, w, r, i, m - 1);
      }
    }

    lemma {:induction false} SumBelowNone(K: set<nat>, r: nat, i: nat, m: nat)
      requires forall w | w in K :: m <= w
      ensures SumBelow(K, r, i, m) == 0
    {
      if m != 0 {
        SumBelowNone(K, r, i, m - 1);
      }
    }

    /** The sum over all workers is the one over K and the one over the others. */
    lemma {:induction false} SumSplit(K: set<nat>, r: nat, i: nat, m: nat)
      requires K <= Workers() && m <= n
      ensures SumBelow(Workers(), r, i, m) == SumBelow(K, r, i, m) + SumBelow(Workers() - K, r, i, m)
    {
      if m != 0 {
        SumSplit(K, r, i, m - 1);
        assert m - 1 in Workers();
      }
    }

    /** The register's sum action moves the partial sum from K to K + {w}. */
    lemma PartAdd(K: set<nat>, w: nat, r: nat, slice: nat)
      requires w < n && w !in K
      ensures AddSlices(Part(K, r, slice), Own(w, r, slice)) == Part(K + {w}, r, slice)
    {
      forall i | 0 <= i < 32
        ensures Add(Part(K, r, slice)[i], Own(w, r, slice)[i]) == Part(K + {w}, r, slice)[i]
      {
        SumBelowAdd(K, w, r, 32 * slice + i, n);
        ModAdd(Sum(K, r, 32 * slice + i), WordAt(w, r, 32 * slice + i));
      }
    }

    /** The register's write action starts the partial sum of the first worker of a round. */
    lemma PartSingle(w: nat, r: nat, slice: nat)
      requires w < n
      ensures Own(w, r, slice) == Part({w}, r, slice)
    {
      forall i | 0 <= i < 32
        ensures Own(w, r, slice)[i] == Part({w}, r, slice)[i]
      {
        SumBelowAdd({}, w, r, 32 * slice + i, n);
        SumBelowNone({}, r, 32 * slice + i, n);
        assert {} + {w} == {w};
      }
    }

    lemma {:induction false} MaxBelowAdd(K: set<nat>, w: nat, r: nat, h: nat, m: nat)
      ensures MaxBelow(K + {w}, r, h, m) ==
              if w < m then Max(MaxBelow(K, r, h, m), exponent(w, r, h)) else MaxBelow(K, r, h, m)
    {
      if m != 0 {
        MaxBelowAdd(K, w, r, h, m - 1);
      }
    }

    lemma {:induction false} MaxBelowNone(r: nat, h: nat, m: nat)
      ensures MaxBelow({}, r, h, m) == 0
    {
      if m != 0 {
        MaxBelowNone(r, h, m - 1);
      }
    }

    /** The maximum is at most b exactly when every worker's exponent is. */
    lemma {:induction false} MaxBelowAtMost(K: set<nat>, r: nat, h: nat, m: nat, b: nat)
      ensures MaxBelow(K, r, h, m) <= b <==> forall w: nat | w in K && w < m :: exponent(w, r, h) <= b
    {
      if m != 0 {
        MaxBelowAtMost(K, r, h, m - 1, b);
      }
    }

    /** The maximum over some workers is the one over all exactly when none of the others is above it. */
    lemma MaxOfSome(K: set<nat>, r: nat, h: nat)
      requires K <= Workers()
      ensures MaxExponent(K, r, h) == MaxExponent(Workers(), r, h) <==>
              forall w: nat | w < n && w !in K :: exponent(w, r, h) <= MaxExponent(K, r, h)
    {
      var k, all := MaxExponent(K, r, h), MaxExponent(Workers(), r, h);
      MaxBelowAtMost(K, r, h, n, k);
      MaxBelowAtMost(K, r, h, n, all);
      MaxBelowAtMost(Workers(), r, h, n, k);
      MaxBelowAtMost(Workers(), r, h, n, all);
    }

    /** Counting contributors tells when all of them are there. */
    lemma ContributorCount(K: set<nat>)
      requires K <= Workers()
      ensures |K| <= n
      ensures |K| == n <==> K == Workers()
    {
      BelowSize(n);
      SubsetSize(K, Workers());
    }
  }

  /** The numbers below n, which are the worker ids of a job. */
  function Below(n: nat): (ids: set<nat>)
    ensures forall w: nat :: w in ids <==> w < n
  {
    if n == 0 then {} else Below(n - 1) + {n - 1}
  }

  lemma {:induction false} BelowSize(n: nat)
    ensures |Below(n)| == n
  {
    if n != 0 {
      BelowSize(n - 1);
    }
  }

  lemma SubsetSize<T>(a: set<T>, b: set<T>)
    requires a <= b
    ensures |a| <= |b|
    ensures |a| == |b| <==> a == b
  {
    assert b == a + (b - a);
    assert |b| == |a| + |b - a|;
  }
}
