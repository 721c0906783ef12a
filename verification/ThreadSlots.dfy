/** The slots of a client thread: which messages each of them sends, and how replies are counted. */
module ThreadSlots {
  import opened Partitions

  /** The n-th message of slot i. */
  function Message(slots: nat, i: nat, n: nat): nat {
    i + n * slots
  }

  lemma MessageNext(slots: nat, i: nat, n: nat)
    ensures Message(slots, i, n + 1) == Message(slots, i, n) + slots
  {
  }

  /** How many of the first `count` messages slot i sends. */
  function Quota(count: nat, slots: nat, i: nat): nat
    requires i < slots
  {
    if count <= i then 0 else (count - 1 - i) / slots + 1
  }

  lemma QuotaIff(count: nat, slots: nat, i: nat, n: nat)
    requires i < slots
    ensures n < Quota(count, slots, i) <==> Message(slots, i, n) < count
  {
    if i < count {
      var d := count - 1 - i;
      assert d == (d / slots) * slots + d % slots;
      if n <= d / slots {
        Monotone(n, d / slots, slots);
      } else {
        Monotone(d / slots + 1, n, slots);
        assert (d / slots + 1) * slots == (d / slots) * slots + slots;
      }
    }
  }

  lemma Apart(slots: nat, i: nat, n: nat, i': nat, n': nat)
    requires i < slots && i' < slots && n < n'
    ensures Message(slots, i, n) < Message(slots, i', n')
  {
    Monotone(n + 1, n', slots);
    assert (n + 1) * slots == n * slots + slots;
  }

  lemma Place(slots: nat, k: nat)
    requires 0 < slots
    ensures Message(slots, k % slots, k / slots) == k
  {
  }

  /** Every message has exactly one place: slot k % slots, at position k / slots. */
  lemma OnePlace(count: nat, slots: nat, k: nat, i: nat, n: nat)
    requires 0 < slots && k < count && i < slots
    ensures k / slots < Quota(count, slots, k % slots)
    ensures Message(slots, i, n) == k <==> i == k % slots && n == k / slots
  {
    hide Quota;
    Place(slots, k);
    QuotaIff(count, slots, k % slots, k / slots);
    if n < k / slots {
      Apart(slots, i, n, k % slots, k / slots);
    } else if k / slots < n {
      Apart(slots, k % slots, k / slots, i, n);
    }
  }

  function Sum(q: seq<nat>): nat {
    if q == [] then 0 else Sum(q[..|q| - 1]) + q[|q| - 1]
  }

  lemma {:induction false} SumReplaced(q: seq<nat>, i: nat, x: nat)
    requires i < |q|
    ensures Sum(q[i := x]) == Sum(q) - q[i] + x
  {
    var rest: seq<nat>, q': seq<nat> := q[..|q| - 1], q[i := x];
    if i == |q| - 1 {
      assert q'[..|q| - 1] == rest;
    } else {
      SumReplaced(rest, i, x);
      assert q'[..|q| - 1] == rest[i := x];
    }
  }

  lemma {:induction false} SumZeros(q: seq<nat>)
    requires forall i | 0 <= i < |q| :: q[i] == 0
    ensures Sum(q) == 0
  {
    if q != [] {
      SumZeros(q[..|q| - 1]);
    }
  }

  function Quotas(count: nat, slots: nat, k: nat): (q: seq<nat>)
    requires k <= slots
    ensures |q| == k && forall i | 0 <= i < k :: q[i] == Quota(count, slots, i)
  {
    if k == 0 then [] else Quotas(count, slots, k - 1) + [Quota(count, slots, k - 1)]
  }

  lemma OneMoreQuota(count: nat, slots: nat, i: nat)
    requires i < slots
    ensures Quota(count + 1, slots, i) == Quota(count, slots, i) + if i == count % slots then 1 else 0
  {
    hide Quota, Message;
    var a, b, n := Quota(count, slots, i), Quota(count + 1, slots, i), count / slots;
    QuotaIff(count, slots, i, a);
    QuotaIff(count + 1, slots, i, a);
    QuotaIff(count, slots, i, b);
    QuotaIff(count + 1, slots, i, b);
    OnePlace(count + 1, slots, count, i, a);
    if i == count % slots {
      Place(slots, count);
      QuotaIff(count, slots, i, n);
      QuotaIff(count + 1, slots, i, n);
      MessageNext(slots, i, n);
      QuotaIff(count + 1, slots, i, n + 1);
      if n != 0 {
        MessageNext(slots, i, n - 1);
        QuotaIff(count, slots, i, n - 1);
      }
    }
  }

  /** Every message belongs to exactly one slot. */
  lemma {:induction false} QuotasAddUp(count: nat, slots: nat)
    requires 0 < slots
    ensures Sum(Quotas(count, slots, slots)) == count
  {
    var q := Quotas(count, slots, slots);
    if count == 0 {
      SumZeros(q);
    } else {
      hide Quota, Sum;
      QuotasAddUp(count - 1, slots);
      var q0, i := Quotas(count - 1, slots, slots), (count - 1) % slots;
      forall u | 0 <= u < slots
        ensures q[u] == q0[u] + if u == i then 1 else 0
      {
        OneMoreQuota(count - 1, slots, u);
      }
      assert q == q0[i := q0[i] + 1];
      SumReplaced(q0, i, q0[i] + 1);
    }
  }

  // ---------- replies ----------

  /** Each slot's set bit, the messages it has sent and the replies it has kept. */
  datatype Slots = Slots(bits: seq<nat>, sent: seq<nat>, received: seq<nat>)

  /** A reply as a slot sees it. */
  datatype ReplyTo = ReplyTo(slot: nat, bit: nat)

  predicate Fits(s: Slots, quotas: seq<nat>) {
    |s.bits| == |s.sent| == |s.received| == |quotas|
  }

  /** Post the next message of slot i, if there is one; only then the set bit is flipped. */
  function Post(s: Slots, quotas: seq<nat>, i: nat): Slots
    requires Fits(s, quotas) && i < |quotas| && s.bits[i] < 2
  {
    if s.sent[i] < quotas[i] then s.(bits := s.bits[i := 1 - s.bits[i]], sent := s.sent[i := s.sent[i] + 1]) else s
  }

  predicate Keeps(s: Slots, r: ReplyTo)
    requires r.slot < |s.bits|
  {
    s.bits[r.slot] == r.bit
  }

  /** A reply is kept if it carries the slot's set bit, and then the next message is posted. */
  function Handle(s: Slots, quotas: seq<nat>, r: ReplyTo): Slots
    requires Fits(s, quotas) && r.slot < |quotas| && s.bits[r.slot] < 2
  {
    if !Keeps(s, r) then s else
      var s' := Post(s, quotas, r.slot);
      s'.(received := s'.received[r.slot := s'.received[r.slot] + 1])
  }

  ghost predicate Bits(s: Slots) {
    forall i | 0 <= i < |s.bits| :: s.bits[i] < 2
  }

  ghost predicate ForSlots(rs: seq<ReplyTo>, n: nat) {
    forall k | 0 <= k < |rs| :: rs[k].slot < n
  }

  function HandleAll(s: Slots, quotas: seq<nat>, rs: seq<ReplyTo>): (s': Slots)
    requires Fits(s, quotas) && Bits(s) && ForSlots(rs, |quotas|)
    ensures Fits(s', quotas) && Bits(s')
  {
    if rs == [] then s else Handle(HandleAll(s, quotas, rs[..|rs| - 1]), quotas, rs[|rs| - 1])
  }

  // ---------- what is outstanding ----------

  /** The client's count: two operations per message, less one per message sent and one per reply kept. */
  function Outstanding(s: Slots, count: nat): int {
    2 * count - Sum(s.sent) - Sum(s.received)
  }

  function Short(have: nat, want: nat): nat {
    if have < want then want - have else 0
  }

  /** Sends and replies that the first k slots still miss, and replies they have kept beyond their last one. */
  function Missing(s: Slots, quotas: seq<nat>, k: nat): nat
    requires Fits(s, quotas) && k <= |quotas|
  {
    if k == 0 then 0 else
      Missing(s, quotas, k - 1) + Short(s.sent[k - 1], quotas[k - 1]) + Short(s.received[k - 1], quotas[k - 1])
  }

  function Repeats(s: Slots, quotas: seq<nat>, k: nat): nat
    requires Fits(s, quotas) && k <= |quotas|
  {
    if k == 0 then 0 else Repeats(s, quotas, k - 1) + Short(quotas[k - 1], s.received[k - 1])
  }

  ghost predicate WithinQuotas(s: Slots, quotas: seq<nat>) {
    Fits(s, quotas) && forall i | 0 <= i < |quotas| :: s.sent[i] <= quotas[i]
  }

  ghost predicate AllReceived(s: Slots, quotas: seq<nat>) {
    Fits(s, quotas) && s.sent == quotas && forall i | 0 <= i < |quotas| :: quotas[i] <= s.received[i]
  }

  lemma {:induction false} MissingNone(s: Slots, quotas: seq<nat>, k: nat)
    requires WithinQuotas(s, quotas) && k <= |quotas|
    ensures Missing(s, quotas, k) == 0 <==>
            forall i | 0 <= i < k :: s.sent[i] == quotas[i] && quotas[i] <= s.received[i]
  {
    if k != 0 {
      MissingNone(s, quotas, k - 1);
    }
  }

  lemma {:induction false} BalanceBelow(s: Slots, quotas: seq<nat>, k: nat)
    requires WithinQuotas(s, quotas) && k <= |quotas|
    ensures 2 * Sum(quotas[..k]) - Sum(s.sent[..k]) - Sum(s.received[..k]) ==
            Missing(s, quotas, k) - Repeats(s, quotas, k)
  {
    if k != 0 {
      BalanceBelow(s, quotas, k - 1);
      assert quotas[..k][..k - 1] == quotas[..k - 1];
      assert s.sent[..k][..k - 1] == s.sent[..k - 1];
      assert s.received[..k][..k - 1] == s.received[..k - 1];
    }
  }

  /** The count is what is missing less what was repeated. */
  lemma OutstandingIs(s: Slots, quotas: seq<nat>, count: nat)
    requires WithinQuotas(s, quotas) && Sum(quotas) == count
    ensures Outstanding(s, count) == Missing(s, quotas, |quotas|) - Repeats(s, quotas, |quotas|)
    ensures Missing(s, quotas, |quotas|) == 0 <==> AllReceived(s, quotas)
  {
    hide Sum;
    BalanceBelow(s, quotas, |quotas|);
    MissingNone(s, quotas, |quotas|);
    assert quotas[..|quotas|] == quotas && s.sent[..|quotas|] == s.sent && s.received[..|quotas|] == s.received;
  }

  /** The loop on a positive count ends without all replies exactly if no more is missing than was repeated. */
  lemma EndsTooEarlyIff(s: Slots, quotas: seq<nat>, count: nat)
    requires WithinQuotas(s, quotas) && Sum(quotas) == count
    ensures Outstanding(s, count) <= 0 && !AllReceived(s, quotas) <==>
            0 < Missing(s, quotas, |quotas|) <= Repeats(s, quotas, |quotas|)
  {
    hide Sum, Missing, Repeats, AllReceived;
    OutstandingIs(s, quotas, count);
  }

  /** The reply is kept by a slot that has had the reply to its last message already. */
  predicate IsRepeat(s: Slots, quotas: seq<nat>, r: ReplyTo)
    requires Fits(s, quotas) && r.slot < |quotas|
  {
    Keeps(s, r) && quotas[r.slot] <= s.received[r.slot]
  }

  /** A slot waits for the reply to its newest message, or has posted its last one. */
  ghost predicate Waits(s: Slots, quotas: seq<nat>) {
    && Fits(s, quotas)
    && forall i | 0 <= i < |quotas| ::
         if s.sent[i] < quotas[i] then s.received[i] + 1 == s.sent[i] else s.sent[i] == quotas[i] <= s.received[i] + 1
  }

  /** A slot gets more replies than it sent messages exactly by keeping a repeated reply to its last message. */
  lemma ExceedsIff(s: Slots, quotas: seq<nat>, r: ReplyTo, i: nat)
    requires Waits(s, quotas) && r.slot < |quotas| && s.bits[r.slot] < 2 && i < |quotas|
    ensures var s' := Handle(s, quotas, r);
            && Waits(s', quotas)
            && (s'.sent[i] < s'.received[i] <==> s.sent[i] < s.received[i] || (i == r.slot && IsRepeat(s, quotas, r)))
  {
    var s' := Handle(s, quotas, r);
    forall k | 0 <= k < |quotas| && k != r.slot
      ensures s'.sent[k] == s.sent[k] && s'.received[k] == s.received[k]
    {
    }
  }

  lemma {:induction false} HandleCounts(s: Slots, quotas: seq<nat>, r: ReplyTo, k: nat)
    requires WithinQuotas(s, quotas) && r.slot < |quotas| && s.bits[r.slot] < 2 && k <= |quotas|
    ensures WithinQuotas(Handle(s, quotas, r), quotas)
    ensures Missing(Handle(s, quotas, r), quotas, k) <= Missing(s, quotas, k)
    ensures Repeats(Handle(s, quotas, r), quotas, k) ==
            Repeats(s, quotas, k) + if r.slot < k && IsRepeat(s, quotas, r) then 1 else 0
  {
    if k != 0 {
      HandleCounts(s, quotas, r, k - 1);
    }
  }

  /** No reply in the sequence is kept after its slot's last one. */
  ghost predicate NoRepeat(s: Slots, quotas: seq<nat>, rs: seq<ReplyTo>)
    requires Fits(s, quotas) && Bits(s) && ForSlots(rs, |quotas|)
  {
    rs == [] ||
    (NoRepeat(s, quotas, rs[..|rs| - 1]) && !IsRepeat(HandleAll(s, quotas, rs[..|rs| - 1]), quotas, rs[|rs| - 1]))
  }

  lemma {:induction false} RunCounts(s: Slots, quotas: seq<nat>, rs: seq<ReplyTo>)
    requires WithinQuotas(s, quotas) && Bits(s) && ForSlots(rs, |quotas|) && Repeats(s, quotas, |quotas|) == 0
    ensures WithinQuotas(HandleAll(s, quotas, rs), quotas)
    ensures Repeats(HandleAll(s, quotas, rs), quotas, |quotas|) == 0 <==> NoRepeat(s, quotas, rs)
    decreases |rs|
  {
    hide Missing, Repeats, IsRepeat, Handle;
    if rs != [] {
      var rest := rs[..|rs| - 1];
      RunCounts(s, quotas, rest);
      HandleCounts(HandleAll(s, quotas, rest), quotas, rs[|rs| - 1], |quotas|);
    }
  }

  /** What is missing only gets less. */
  lemma {:induction false} MissingShrinks(s: Slots, quotas: seq<nat>, rs: seq<ReplyTo>, k: nat)
    requires WithinQuotas(s, quotas) && Bits(s) && ForSlots(rs, |quotas|) && Repeats(s, quotas, |quotas|) == 0
    requires k <= |rs|
    ensures WithinQuotas(HandleAll(s, quotas, rs), quotas) && WithinQuotas(HandleAll(s, quotas, rs[..k]), quotas)
    ensures Missing(HandleAll(s, quotas, rs), quotas, |quotas|) <=
            Missing(HandleAll(s, quotas, rs[..k]), quotas, |quotas|)
    decreases |rs|
  {
    hide Missing, Repeats, IsRepeat, Handle;
    RunCounts(s, quotas, rs);
    RunCounts(s, quotas, rs[..k]);
    if k == |rs| {
      assert rs[..k] == rs;
    } else {
      var rest := rs[..|rs| - 1];
      assert rest[..k] == rs[..k];
      MissingShrinks(s, quotas, rest, k);
      RunCounts(s, quotas, rest);
      HandleCounts(HandleAll(s, quotas, rest), quotas, rs[|rs| - 1], |quotas|);
    }
  }

  /** The count is positive while the replies come in, and zero after the last one. */
  ghost predicate CountsDownTo(s: Slots, quotas: seq<nat>, count: nat, rs: seq<ReplyTo>)
    requires Fits(s, quotas) && Bits(s) && ForSlots(rs, |quotas|)
  {
    && Outstanding(HandleAll(s, quotas, rs), count) == 0
    && forall k | 0 <= k < |rs| :: 0 < Outstanding(HandleAll(s, quotas, rs[..k]), count)
  }

  /**
   * Over any sequence of replies that ends with the one that makes everything received, the client's count reaches zero
   * with exactly this reply if and only if no slot keeps its last reply again.
   */
  lemma CountsDownIff(s: Slots, quotas: seq<nat>, count: nat, rs: seq<ReplyTo>)
    requires WithinQuotas(s, quotas) && Bits(s) && ForSlots(rs, |quotas|) && Sum(quotas) == count
    requires Repeats(s, quotas, |quotas|) == 0
    requires AllReceived(HandleAll(s, quotas, rs), quotas) && rs != []
    requires !AllReceived(HandleAll(s, quotas, rs[..|rs| - 1]), quotas)
    ensures CountsDownTo(s, quotas, count, rs) <==> NoRepeat(s, quotas, rs)
  {
    hide Sum, Missing, Repeats, IsRepeat, Outstanding, AllReceived, HandleAll, NoRepeat;
    RunCounts(s, quotas, rs);
    OutstandingIs(HandleAll(s, quotas, rs), quotas, count);
    if NoRepeat(s, quotas, rs) {
      forall k | 0 <= k < |rs|
        ensures 0 < Outstanding(HandleAll(s, quotas, rs[..k]), count)
      {
        var rest := rs[..|rs| - 1];
        assert rest[..k] == rs[..k];
        MissingShrinks(s, quotas, rest, k);
        RunCounts(s, quotas, rs[..k]);
        RunCounts(s, quotas, rest);
        OutstandingIs(HandleAll(s, quotas, rs[..k]), quotas, count);
        OutstandingIs(HandleAll(s, quotas, rest), quotas, count);
        NoRepeatPrefix(s, quotas, rs, k);
      }
    }
  }

  lemma {:induction false} NoRepeatPrefix(s: Slots, quotas: seq<nat>, rs: seq<ReplyTo>, k: nat)
    requires Fits(s, quotas) && Bits(s) && ForSlots(rs, |quotas|) && NoRepeat(s, quotas, rs) && k <= |rs|
    ensures NoRepeat(s, quotas, rs[..k])
    decreases |rs|
  {
    if k == |rs| {
      assert rs[..k] == rs;
    } else {
      assert rs[..|rs| - 1][..k] == rs[..k];
      NoRepeatPrefix(s, quotas, rs[..|rs| - 1], k);
    }
  }
}
