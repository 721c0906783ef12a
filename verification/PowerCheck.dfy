/** The client's self-check: after k in-place reductions of equal buffers, every element has been multiplied by n^k. */
module PowerChecks {
  import opened Words
  import opened Jobs

  function Pow(x: nat, k: nat): nat {
    if k == 0 then 1 else x * Pow(x, k - 1)
  }

  lemma {:induction false} PowSquare(x: nat, k: nat)
    ensures Pow(x * x, k) == Pow(x, 2 * k)
  {
    if k != 0 {
      PowSquare(x, k - 1);
      assert Pow(x, 2 * k) == x * (x * Pow(x, 2 * k - 2));
      assert x * (x * Pow(x, 2 * k - 2)) == (x * x) * Pow(x, 2 * k - 2);
    }
  }

  // ---------- arithmetic modulo 2^32 ----------

  predicate Same(a: nat, b: nat) {
    a % MODULUS == b % MODULUS
  }

  lemma SameMul(a: nat, b: nat, c: nat)
    requires Same(a, b)
    ensures Same(a * c, b * c)
  {
    var d := a / MODULUS - b / MODULUS;
    assert a == b + d * MODULUS;
    assert a * c == b * c + (d * c) * MODULUS;
    Multiple(b * c, d * c);
  }

  lemma Multiple(x: int, d: int)
    ensures (x + d * MODULUS) % MODULUS == x % MODULUS
  {
  }

  lemma SameWord(a: nat)
    ensures Same(a % MODULUS, a)
  {
  }

  lemma {:induction false} SamePow(x: nat, y: nat, k: nat)
    requires Same(x, y)
    ensures Same(Pow(x, k), Pow(y, k))
  {
    if k != 0 {
      SamePow(x, y, k - 1);
      SameMul(x, y, Pow(x, k - 1));
      SameMul(Pow(x, k - 1), Pow(y, k - 1), y);
      assert Pow(x, k - 1) * y == y * Pow(x, k - 1) && Pow(y, k - 1) * y == y * Pow(y, k - 1);
    }
  }

  /** One round of the loop: the product of the multiplier and what is left of the power stays the same. */
  lemma SquareStep(multiplier: nat, base: nat, base': nat, k: nat)
    requires Same(base', base * base)
    ensures Same((if k % 2 == 1 then multiplier * base else multiplier) * Pow(base', k / 2), multiplier * Pow(base, k))
  {
    hide Pow;
    var h := k / 2;
    SamePow(base', base * base, h);
    PowSquare(base, h);
    var p, q := Pow(base', h), Pow(base, 2 * h);
    SameProduct(if k % 2 == 1 then multiplier * base else multiplier, p, q);
    if k % 2 == 1 {
      OddPow(base, h);
      Associate(multiplier, base, q);
    }
  }

  lemma SameProduct(m: nat, p: nat, q: nat)
    requires Same(p, q)
    ensures Same(m * p, m * q)
  {
    SameMul(p, q, m);
    assert p * m == m * p && q * m == m * q;
  }

  lemma OddPow(x: nat, h: nat)
    ensures Pow(x, 2 * h + 1) == x * Pow(x, 2 * h)
  {
  }

  lemma Associate(a: nat, b: nat, c: nat)
    ensures (a * b) * c == a * (b * c)
  {
  }

  /** `int32_t` multiplication, as the 32 bits it leaves. */
  function Times(a: Word, b: Word): Word {
    (a * b) % MODULUS
  }

  /** What the loop keeps. */
  ghost predicate Keeps(multiplier: Word, base: Word, k: nat, power: nat) {
    Same(multiplier * Pow(base, k), power)
  }

  lemma LoopStep(multiplier: Word, base: Word, k: nat, power: nat)
    requires Keeps(multiplier, base, k, power)
    ensures Keeps(if k % 2 == 1 then Times(multiplier, base) else multiplier, Times(base, base), k / 2, power)
  {
    var base' := Times(base, base);
    SameWord(base * base);
    SquareStep(multiplier, base, base', k);
    if k % 2 == 1 {
      SameWord(multiplier * base);
      SameMul(Times(multiplier, base), multiplier * base, Pow(base', k / 2));
    }
  }

  lemma LoopEnds(multiplier: Word, base: Word, power: nat)
    requires Keeps(multiplier, base, 0, power)
    ensures multiplier == power % MODULUS
  {
  }

  /** size ^ exponent by repeated squaring in 32-bit arithmetic. */
  method Multiplier(size: Word, exponent: nat) returns (multiplier: Word)
    ensures multiplier == Pow(size, exponent) % MODULUS
  {
    multiplier := 1;
    var base: Word, k := size, exponent;
    while k != 0
      invariant Keeps(multiplier, base, k, Pow(size, exponent))
    {
      hide Keeps, Times, Pow;
      LoopStep(multiplier, base, k, Pow(size, exponent));
      if k % 2 == 1 {
        multiplier := Times(multiplier, base);
      }
      k := k / 2;
      base := Times(base, base);
    }
    LoopEnds(multiplier, base, Pow(size, exponent));
  }

  // ---------- what the multiplier stands for ----------

  /** An element after k reductions in which all n workers hold the same value. */
  function Reduced(x: Word, n: nat, k: nat): Word {
    if k == 0 then x else (n * Reduced(x, n, k - 1)) % MODULUS
  }

  /** The sum of equal contributions is a product. */
  lemma {:induction false} EqualContributions(job: Job, x: Word, r: nat, i: nat, m: nat)
    requires forall w: nat | w < job.n :: job.word(w, r, i) == x
    requires m <= job.n
    ensures job.SumBelow(job.Workers(), r, i, m) == m * x
  {
    if m != 0 {
      EqualContributions(job, x, r, i, m - 1);
      assert m - 1 in job.Workers();
    }
  }

  /** One reduction of equal buffers multiplies every element by the number of workers. */
  lemma ReductionMultiplies(job: Job, x: Word, r: nat, i: nat)
    requires forall w: nat | w < job.n :: job.word(w, r, i) == x
    ensures job.Sum(job.Workers(), r, i) % MODULUS == Reduced(x, job.n, 1)
  {
    EqualContributions(job, x, r, i, job.n);
    assert Reduced(x, job.n, 1) == (job.n * Reduced(x, job.n, 0)) % MODULUS;
  }

  lemma Chain(a: nat, b: nat, c: nat)
    requires Same(a, b) && Same(b, c)
    ensures Same(a, c)
  {
  }

  lemma Regroup(p: nat, x: nat, n: nat)
    ensures (p * x) * n == (n * p) * x
  {
  }

  lemma {:induction false} ReducedIsPower(x: Word, n: nat, k: nat)
    ensures Same(Reduced(x, n, k), Pow(n, k) * x)
  {
    if k != 0 {
      hide Same;
      var y, p := Reduced(x, n, k - 1), Pow(n, k - 1);
      ReducedIsPower(x, n, k - 1);
      SameMul(y, p * x, n);
      Regroup(p, x, n);
      Regroup(1, y, n);
      SameWord(n * y);
      Chain(Reduced(x, n, k), y * n, Pow(n, k) * x);
    }
  }

  /** k of them multiply it by n^k. */
  lemma ReductionsMultiply(x: Word, n: nat, k: nat)
    ensures Reduced(x, n, k) == (x * (Pow(n, k) % MODULUS)) % MODULUS
  {
    hide Pow, Reduced;
    ReducedIsPower(x, n, k);
    SameWord(Pow(n, k));
    SameMul(Pow(n, k) % MODULUS, Pow(n, k), x);
    assert (Pow(n, k) % MODULUS) * x == x * (Pow(n, k) % MODULUS);
  }

  /** The rounds are reductions in place: what a worker contributes to the next one is the sum of the last one. */
  ghost predicate IsInPlace(job: Job, i: nat) {
    forall w: nat, r: nat | w < job.n && 0 < r :: job.word(w, r, i) == job.Sum(job.Workers(), r - 1, i) % MODULUS
  }

  lemma {:induction false} InPlaceWords(job: Job, i: nat, x: Word, w: nat, r: nat)
    requires IsInPlace(job, i) && w < job.n && forall u: nat | u < job.n :: job.word(u, 0, i) == x
    ensures job.word(w, r, i) == Reduced(x, job.n, r)
    decreases r
  {
    if r != 0 {
      var p := r - 1;
      var y := Reduced(x, job.n, p);
      forall u: nat | u < job.n
        ensures job.word(u, p, i) == y
      {
        InPlaceWords(job, i, x, u, p);
      }
      ReductionMultiplies(job, y, p, i);
      OneReduction(y, job.n);
    }
  }

  lemma OneReduction(y: Word, n: nat)
    ensures Reduced(y, n, 1) == (n * y) % MODULUS
  {
    assert Reduced(y, n, 1) == (n * Reduced(y, n, 0)) % MODULUS;
  }

  /** k reductions in place of equal buffers leave every worker with its value times n^k. */
  lemma InPlaceReductions(job: Job, i: nat, x: Word, w: nat, k: nat)
    requires IsInPlace(job, i) && w < job.n && forall u: nat | u < job.n :: job.word(u, 0, i) == x
    ensures job.word(w, k, i) == (x * (Pow(job.n, k) % MODULUS)) % MODULUS
  {
    hide Reduced, Pow;
    InPlaceWords(job, i, x, w, k);
    ReductionsMultiply(x, job.n, k);
  }

  // ---------- the check ----------

  /** What a worker put into element i: a marker at the start of every packet, -i elsewhere. */
  function Original(i: nat, packetFloats: nat): Word
    requires 0 < packetFloats
  {
    if i % packetFloats == 0 then 0x1122_3344 else (MODULUS - i % MODULUS) % MODULUS
  }

  /** The source's own words for it: a marker at the start of a packet, and elsewhere the negative of the position. */
  predicate IsInitial(x: Word, i: nat, packetFloats: nat)
    requires 0 < packetFloats
  {
    if i % packetFloats == 0 then x == 0x1122_3344 else (x + i) % MODULUS == 0
  }

  lemma InitialIsOriginal(x: Word, i: nat, packetFloats: nat)
    requires 0 < packetFloats
    ensures IsInitial(x, i, packetFloats) <==> x == Original(i, packetFloats)
  {
  }

  /** The loop that fills a worker's buffer. */
  method Initialize(buf: array<Word>, packetFloats: nat)
    requires 0 < packetFloats
    modifies buf
    ensures forall i | 0 <= i < buf.Length :: IsInitial(buf[i], i, packetFloats)
  {
    for i := 0 to buf.Length
      invariant forall k | 0 <= k < i :: IsInitial(buf[k], k, packetFloats)
    {
      buf[i] := if i % packetFloats == 0 then 0x1122_3344 else -i % 0x1_0000_0000;
    }
  }

  function Expected(i: nat, packetFloats: nat, n: Word, k: nat): Word
    requires 0 < packetFloats
  {
    Reduced(Original(i, packetFloats), n, k)
  }

  function Mismatches(buf: seq<Word>, packetFloats: nat, n: Word, k: nat): nat
    requires 0 < packetFloats
  {
    if buf == [] then 0 else
      var i := |buf| - 1;
      Mismatches(buf[..i], packetFloats, n, k) + if buf[i] != Expected(i, packetFloats, n, k) then 1 else 0
  }

  lemma {:induction false} NoMismatchIff(buf: seq<Word>, packetFloats: nat, n: Word, k: nat)
    requires 0 < packetFloats
    ensures Mismatches(buf, packetFloats, n, k) == 0 <==>
            forall i | 0 <= i < |buf| :: buf[i] == Expected(i, packetFloats, n, k)
  {
    hide Expected;
    if buf != [] {
      NoMismatchIff(buf[..|buf| - 1], packetFloats, n, k);
    }
  }

  /** The check finds no error exactly if every element is what k reductions over n equal buffers give. */
  method Check(buf: array<Word>, packetFloats: nat, n: Word, k: nat) returns (errors: nat)
    requires 0 < packetFloats
    ensures errors == Mismatches(buf[..], packetFloats, n, k)
    ensures errors == 0 <==> forall i | 0 <= i < buf.Length :: buf[i] == Expected(i, packetFloats, n, k)
  {
    hide Original, Reduced;
    var multiplier := Multiplier(n, k);
    errors := 0;
    for i := 0 to buf.Length
      invariant errors == Mismatches(buf[..i], packetFloats, n, k)
    {
      var expected := Times(Original(i, packetFloats), multiplier);
      ReductionsMultiply(Original(i, packetFloats), n, k);
      assert buf[..i + 1][..i] == buf[..i];
      if buf[i] != expected {
        errors := errors + 1;
      }
    }
    assert buf[..buf.Length] == buf[..];
    NoMismatchIff(buf[..], packetFloats, n, k);
  }

  /**
   * The check passes: if every worker's buffer was filled by Initialize, it finds no error in any worker's buffer after
   * k reductions in place.
   */
  lemma CheckPasses(job: Job, packetFloats: nat, buf: seq<Word>, w: nat, k: nat)
    requires job.Valid() && w < job.n && 0 < packetFloats
    requires forall u: nat, i: nat | u < job.n && i < |buf| :: IsInitial(job.word(u, 0, i), i, packetFloats)
    requires forall i | 0 <= i < |buf| :: IsInPlace(job, i) && buf[i] == job.word(w, k, i)
    ensures Mismatches(buf, packetFloats, job.n, k) == 0
  {
    hide IsInPlace, Mismatches;
    forall i | 0 <= i < |buf|
      ensures buf[i] == Expected(i, packetFloats, job.n, k)
    {
      var x := Original(i, packetFloats);
      forall u: nat | u < job.n
        ensures job.word(u, 0, i) == x
      {
        InitialIsOriginal(job.word(u, 0, i), i, packetFloats);
      }
      InPlaceWords(job, i, x, w, k);
    }
    NoMismatchIff(buf, packetFloats, job.n, k);
  }
}
