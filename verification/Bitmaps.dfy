/** Worker bitmaps: 32-bit masks and the sets of workers they stand for. */
module Bitmaps {

  function Shifted(w: nat): bv32 {
    if w == 0 then 1 else Shifted(w - 1) << 1
  }

  /** The mask of a worker id; only the low five bits of the id matter. */
  function Mask(worker: nat): bv32 {
    Shifted(worker % 32)
  }

  function And(a: bv32, b: bv32): bv32 {
    a & b
  }

  function Or(a: bv32, b: bv32): bv32 {
    a | b
  }

  function Without(a: bv32, b: bv32): bv32 {
    a & !b
  }

  predicate HasBit(m: bv32, w: nat) {
    And(m, Mask(w)) != 0
  }

  /** The workers whose bit is set in m. */
  function Bits(m: bv32): set<nat> {
    set w: nat | w < 32 && HasBit(m, w)
  }

  // ---------- masks ----------

  lemma ShiftedIsEven(w: nat)
    requires w != 0
    ensures Shifted(w) & 1 == 0
  {
  }

  lemma ShiftBoth(a: bv32, b: bv32)
    requires a & b == 0
    ensures (a << 1) & (b << 1) == 0
  {
  }

  lemma {:induction false} ShiftedDisjoint(v: nat, w: nat)
    requires v != w
    ensures Shifted(v) & Shifted(w) == 0
  {
    if v == 0 {
      ShiftedIsEven(w);
    } else if w == 0 {
      ShiftedIsEven(v);
    } else {
      ShiftedDisjoint(v - 1, w - 1);
      ShiftBoth(Shifted(v - 1), Shifted(w - 1));
    }
  }

  lemma MasksDisjoint(v: nat, w: nat)
    requires v < 32 && w < 32 && v != w
    ensures And(Mask(v), Mask(w)) == 0
  {
    hide Shifted;
    ShiftedDisjoint(v, w);
  }

  lemma HighestBit()
    ensures Shifted(31) == 0x8000_0000
  {
    assert Shifted(8) == 0x100;
    assert Shifted(16) == 0x1_0000;
    assert Shifted(24) == 0x100_0000;
  }

  lemma {:induction false} ShiftedNonzero(w: nat)
    requires w <= 31
    ensures Shifted(w) != 0
    decreases 31 - w
  {
    if w == 31 {
      HighestBit();
    } else {
      ShiftedNonzero(w + 1);
    }
  }

  // ---------- what the register actions do to the set ----------

  lemma OrElsewhere(m: bv32, a: bv32, b: bv32)
    requires And(a, b) == 0
    ensures And(Or(m, a), b) == And(m, b)
  {
  }

  lemma WithoutElsewhere(m: bv32, a: bv32, b: bv32)
    requires And(a, b) == 0
    ensures And(Without(m, a), b) == And(m, b)
  {
  }

  lemma Here(m: bv32, a: bv32)
    ensures And(Or(m, a), a) == a
    ensures And(Without(m, a), a) == 0
  {
  }

  lemma BitAfter(m: bv32, w: nat, v: nat)
    requires v < 32 && w < 32
    ensures HasBit(Or(m, Mask(w)), v) <==> HasBit(m, v) || v == w
    ensures HasBit(Without(m, Mask(w)), v) <==> HasBit(m, v) && v != w
  {
    hide Shifted, And, Or, Without;
    if v == w {
      ShiftedNonzero(w);
      Here(m, Mask(w));
    } else {
      MasksDisjoint(w, v);
      OrElsewhere(m, Mask(w), Mask(v));
      WithoutElsewhere(m, Mask(w), Mask(v));
    }
  }

  /** Setting a worker's bit adds it to the set, clearing it removes it, and no other worker is affected. */
  lemma BitOfWorker(m: bv32, w: nat)
    requires w < 32
    ensures Bits(Or(m, Mask(w))) == Bits(m) + {w}
    ensures Bits(Without(m, Mask(w))) == Bits(m) - {w}
  {
    hide Mask, HasBit, Or, Without;
    forall v: nat | v < 32
      ensures HasBit(Or(m, Mask(w)), v) <==> HasBit(m, v) || v == w
      ensures HasBit(Without(m, Mask(w)), v) <==> HasBit(m, v) && v != w
    {
      BitAfter(m, w, v);
    }
  }

  // ---------- the empty bitmap ----------

  /** The k low bits. */
  function Low(k: nat): bv32 {
    if k == 0 then 0 else Or(Low(k - 1), Shifted(k - 1))
  }

  lemma Neither(m: bv32, a: bv32, b: bv32)
    requires And(m, a) == 0 && And(m, b) == 0
    ensures And(m, Or(a, b)) == 0
  {
  }

  lemma {:induction false} NoneBelow(m: bv32, k: nat)
    requires k <= 32 && forall w: nat | w < k :: !HasBit(m, w)
    ensures And(m, Low(k)) == 0
  {
    hide Shifted, And, Or;
    if k == 0 {
      assert And(m, 0) == 0 by {
        NoneOfZero(m);
      }
    } else {
      NoneBelow(m, k - 1);
      assert !HasBit(m, k - 1);
      Neither(m, Low(k - 1), Mask(k - 1));
    }
  }

  lemma NoneOfZero(m: bv32)
    ensures And(m, 0) == 0
  {
  }

  lemma AllBits()
    ensures Low(32) == 0xffff_ffff
  {
    assert Low(8) == 0xff;
    assert Low(16) == 0xffff;
    assert Low(24) == 0xff_ffff;
  }

  /** A bitmap is zero exactly when no worker is in it. */
  lemma EmptyBitmap(m: bv32)
    ensures Bits(m) == {} <==> m == 0
  {
    hide Mask;
    if Bits(m) == {} {
      forall w: nat | w < 32
        ensures !HasBit(m, w)
      {
        assert w !in Bits(m);
      }
      NoneBelow(m, 32);
      AllBits();
    }
  }
}
