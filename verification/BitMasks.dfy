/** Bitwise and on numbers, and the masks that are differences of two powers of two. */
module BitMasks {

  function Pow2(n: nat): (p: nat)
    ensures 0 < p
  {
    if n == 0 then 1 else 2 * Pow2(n - 1)
  }

  lemma Double(n: nat)
    ensures Pow2(n + 1) == 2 * Pow2(n)
  {
  }

  function And(a: nat, b: nat): nat {
    if a == 0 || b == 0 then 0 else (a % 2) * (b % 2) + 2 * And(a / 2, b / 2)
  }

  /** The same by halves, with zero not set apart. */
  lemma AndHalves(a: nat, b: nat)
    ensures And(a, b) == (a % 2) * (b % 2) + 2 * And(a / 2, b / 2)
  {
  }

  /** And on the parts of two numbers above and at the lowest bit. */
  lemma AndParts(a: nat, x: nat, b: nat, y: nat)
    requires x < 2 && y < 2
    ensures And(2 * a + x, 2 * b + y) == 2 * And(a, b) + if x == y == 1 then 1 else 0
  {
    AndHalves(2 * a + x, 2 * b + y);
    assert (2 * a + x) / 2 == a && (2 * a + x) % 2 == x && (2 * b + y) / 2 == b && (2 * b + y) % 2 == y;
  }

  lemma {:induction false} AndCommutes(a: nat, b: nat)
    ensures And(a, b) == And(b, a)
    decreases a
  {
    if a != 0 && b != 0 {
      AndCommutes(a / 2, b / 2);
    }
  }

  function Rest(y: nat, m: nat): nat
    requires 0 < m
  {
    y % m
  }

  lemma RestHalf(y: nat, m: nat)
    requires 0 < m
    ensures Rest(y, 2 * m) == 2 * Rest(y / 2, m) + y % 2
  {
    var q, r := (y / 2) / m, (y / 2) % m;
    assert y / 2 == m * q + r;
    assert y == (2 * m) * q + (2 * r + y % 2);
    Remainder(y, 2 * m, q, 2 * r + y % 2);
  }

  lemma Remainder(y: nat, m: nat, q: nat, r: nat)
    requires r < m && y == m * q + r
    ensures y % m == r
  {
    var d := y / m - q;
    assert y == m * (y / m) + y % m;
    assert m * (y / m) == m * q + m * d;
  }

  lemma LowStep(y: nat, m: nat)
    requires 0 < m && And(y / 2, m - 1) == Rest(y / 2, m)
    ensures And(y, 2 * m - 1) == Rest(y, 2 * m)
  {
    hide And, Rest;
    RestHalf(y, m);
    AndParts(y / 2, y % 2, m - 1, 1);
  }

  lemma HighStep(y: nat, a: nat, b: nat)
    requires 0 < b <= a && And(y / 2, a - b) == Rest(y / 2, a) - Rest(y / 2, b)
    ensures And(y, 2 * a - 2 * b) == Rest(y, 2 * a) - Rest(y, 2 * b)
  {
    hide And, Rest;
    RestHalf(y, a);
    RestHalf(y, b);
    AndParts(y / 2, y % 2, a - b, 0);
  }

  lemma {:induction false} LowMask(y: nat, n: nat)
    ensures And(y, Pow2(n) - 1) == Rest(y, Pow2(n))
  {
    if n != 0 {
      hide And, Rest;
      LowMask(y / 2, n - 1);
      LowStep(y, Pow2(n - 1));
    }
  }

  lemma {:induction false} Pow2Monotone(k: nat, n: nat)
    requires k <= n
    ensures Pow2(k) <= Pow2(n)
  {
    if k != n {
      Pow2Monotone(k, n - 1);
    }
  }

  /** The mask with the bits from k up to n - 1 takes away the remainder below them. */
  lemma {:induction false} HighMask(y: nat, n: nat, k: nat)
    requires k <= n
    ensures Pow2(k) <= Pow2(n) && And(y, Pow2(n) - Pow2(k)) == Rest(y, Pow2(n)) - Rest(y, Pow2(k))
  {
    Pow2Monotone(k, n);
    if k == 0 {
      LowMask(y, n);
    } else {
      hide And, Rest;
      HighMask(y / 2, n - 1, k - 1);
      HighStep(y, Pow2(n - 1), Pow2(k - 1));
    }
  }

  predicate IsPowerOfTwo(x: nat) {
    x == 1 || (0 < x && x % 2 == 0 && IsPowerOfTwo(x / 2))
  }

  /** The powers of two are these numbers. */
  lemma {:induction false} Log2(x: nat) returns (k: nat)
    requires IsPowerOfTwo(x)
    ensures x == Pow2(k)
  {
    if x == 1 {
      k := 0;
    } else {
      k := Log2(x / 2);
      k := k + 1;
    }
  }

  /** A number shares no bit with its complement. */
  lemma {:induction false} Complement(x: nat, n: nat)
    requires x < Pow2(n)
    ensures And(x, Pow2(n) - 1 - x) == 0
  {
    if n != 0 {
      hide And;
      var m := Pow2(n - 1);
      Complement(x / 2, n - 1);
      AndParts(x / 2, x % 2, m - 1 - x / 2, 1 - x % 2);
    }
  }

  /** A number is unchanged by the mask that is its negative exactly if it is a power of two. */
  lemma {:induction false} NegativeMask(x: nat, n: nat)
    requires 0 < x < Pow2(n)
    ensures And(x, Pow2(n) - x) == x <==> IsPowerOfTwo(x)
  {
    hide And;
    var h, m := x / 2, Pow2(n - 1);
    if x % 2 == 0 {
      NegativeMask(h, n - 1);
      AndParts(h, 0, m - h, 0);
    } else {
      Complement(h, n - 1);
      AndParts(h, 1, m - 1 - h, 1);
    }
  }
}
