/** A client thread: its slots' pointers and set bits, and the count of sends and receives it still waits for. */
module ClientThreads {
  import opened Partitions
  import opened ThreadSlots

  /** The length of k messages. */
  function Floats(k: nat, m: nat): nat {
    k * m
  }

  // ---------- when a thread is done ----------

  /** Messages that start before a pointer `d` floats ahead. */
  function Sendable(d: int, m: nat): nat
    requires 0 < m
  {
    if d <= 0 then 0 else (d - 1) / m + 1
  }

  lemma SendableIff(d: int, m: nat, k: nat)
    requires 0 < m
    ensures k < Sendable(d, m) <==> Floats(k, m) < d
  {
    if 0 < d {
      var q := (d - 1) / m;
      assert d - 1 == q * m + (d - 1) % m;
      if k <= q {
        Monotone(k, q, m);
      } else {
        Monotone(q + 1, k, m);
        assert (q + 1) * m == q * m + m;
      }
    }
  }

  lemma SendableIs(d: int, m: nat, c: nat)
    requires 0 < m
    ensures Sendable(d, m) == c <==> (c == 0 || Floats(c - 1, m) < d) && d <= Floats(c, m)
  {
    hide Sendable, Floats;
    SendableIff(d, m, c);
    if c != 0 {
      SendableIff(d, m, c - 1);
    }
  }

  /**
   * The messages a thread can post are as many as it will wait for exactly when its interval is the first or the
   * last one, and the buffer is not empty or the thread has no message at all. In particular the single message
   * that is meant to be sent for an empty buffer is waited for but never posted.
   */
  lemma AvailableIff(length: nat, m: nat, cores: nat, t: nat)
    requires 0 < m && t < cores
    ensures var total := TotalMessages(length, m);
            var start, end := Start(total, cores, t), End(total, cores, t);
            && start <= end <= total
            && (Sendable(EndPointer(start, end, m, length) - Floats(start, m), m) == end - start <==>
                (start == 0 || end == total) && (0 < length || start == end))
  {
    hide Start, Sendable, TotalMessages;
    var total := TotalMessages(length, m);
    var start, end := Start(total, cores, t), End(total, cores, t);
    TotalIsEnough(length, m);
    EndPointerIff(length, m, cores, t);
    ShareIsNat(total, cores, t);
    hide End;
    AvailableCount(length, m, start, end, total);
  }

  lemma AvailableCount(length: nat, m: nat, start: nat, end: nat, total: nat)
    requires 0 < m && start <= end <= total && 1 <= total && length <= total * m
    requires if length == 0 then total == 1 else (total - 1) * m < length
    ensures Sendable(EndPointer(start, end, m, length) - Floats(start, m), m) == end - start <==>
            (start == 0 || end == total) && (0 < length || start == end)
  {
    hide Sendable;
    var c, d := end - start, EndPointer(start, end, m, length) - Floats(start, m);
    SendableIs(d, m, c);
    assert Floats(c, m) == end * m - start * m;
    assert c != 0 ==> Floats(c - 1, m) == end * m - start * m - m;
    assert (total - 1) * m == total * m - m;
    if start != 0 {
      Monotone(1, start, m);
    }
    if end < total {
      Monotone(end, total - 1, m);
    }
    CountByProducts(length, m, start, end, total, start * m, end * m, total * m);
  }

  lemma CountByProducts(length: nat, m: nat, start: nat, end: nat, total: nat, s: nat, e: nat, t: nat)
    requires 0 < m && start <= end <= total && 1 <= total && length <= t
    requires if length == 0 then total == 1 else t - m < length
    requires (start == 0 ==> s == 0) && (start != 0 ==> m <= s) && (start == end ==> s == e)
    requires (end == total ==> e == t) && (end < total ==> e <= t - m) && (total == 1 ==> t == m)
    requires (end == 0 ==> e == 0)
    ensures (start == end || e - s - m < Min(s + e, length) - s) && Min(s + e, length) - s <= e - s <==>
            (start == 0 || end == total) && (0 < length || start == end)
  {
  }

  /** Where message k of a buffer that one thread sends lies. */
  predicate Covers(length: nat, m: nat, k: nat, f: nat) {
    Floats(k, m) <= f < length && 4 * f < 4 * Floats(k, m) + MessageBytes(length - Floats(k, m), m)
  }

  /** With one thread, every float of the buffer is sent in exactly one message, the truncated last one included. */
  lemma MessagesTile(length: nat, m: nat, k: nat, f: nat)
    requires 0 < m && 4 * m < 0x1_0000_0000 && 4 * length < 0x1_0000_0000
    requires f < length && k < Sendable(length, m)
    ensures Floats(k, m) < length && (Covers(length, m, k, f) <==> k == f / m) && f / m < Sendable(length, m)
  {
    hide Sendable;
    SendableIff(length, m, k);
    SendableIff(length, m, f / m);
    var q := f / m;
    assert f == q * m + f % m;
    if k < q {
      Monotone(k + 1, q, m);
      assert (k + 1) * m == k * m + m;
    } else if q < k {
      Monotone(q + 1, k, m);
      assert (q + 1) * m == q * m + m;
    }
  }

  class ClientThread {
    const slots: nat
    const m: nat
    const pointers: array<int>
    /** The lowest bit of each slot's rkey. */
    const setBits: array<nat>
    var endPointer: int
    var outstanding: int
    // the current reduction: first float, number of messages, set bits at its start, messages sent and replies kept
    ghost var base: nat
    ghost var share: nat
    ghost var firstBits: seq<nat>
    ghost var sent: seq<nat>
    ghost var received: seq<nat>

    ghost predicate Shape()
      reads this
    {
      && 0 < slots && 0 < m && pointers.Length == setBits.Length == slots
      && |firstBits| == |sent| == |received| == slots
    }

    /** The messages that start before the end pointer; the thread's share of messages if that pointer is right. */
    ghost function Available(): nat
      requires 0 < m
      reads this
    {
      Sendable(endPointer - base, m)
    }

    ghost predicate SlotOk(i: nat)
      requires Shape() && i < slots
      reads this, pointers, setBits
    {
      && pointers[i] == base + Floats(Message(slots, i, sent[i]), m)
      && setBits[i] == (firstBits[i] + sent[i]) % 2
      && sent[i] <= Quota(Available(), slots, i)
    }

    ghost predicate Valid()
      reads this, pointers, setBits
    {
      && Shape() && (pointers as object) != setBits
      && (forall i | 0 <= i < slots :: SlotOk(i))
      && outstanding == 2 * share - Sum(sent) - Sum(received)
    }

    ghost function MyQuotas(): (q: seq<nat>)
      requires 0 < m
      reads this
      ensures |q| == slots
    {
      Quotas(Available(), slots, slots)
    }

    ghost function Model(): (s: Slots)
      requires Valid()
      reads this, pointers, setBits
      ensures WithinQuotas(s, MyQuotas()) && Bits(s) && outstanding == Outstanding(s, share)
    {
      assert forall i | 0 <= i < slots :: SlotOk(i) ==> setBits[i] < 2 && sent[i] <= MyQuotas()[i];
      Slots(setBits[..], sent, received)
    }

    /** Slots start with set bit 1, which is flipped before the first message. */
    constructor (slots: nat, m: nat)
      requires 0 < slots && 0 < m
      ensures Shape() && fresh(pointers) && fresh(setBits) && this.slots == slots && this.m == m
      ensures forall i | 0 <= i < slots :: setBits[i] == 1
    {
      this.slots := slots;
      this.m := m;
      pointers := new int[slots](_ => 0);
      setBits := new nat[slots](_ => 1);
      endPointer, outstanding := 0, 0;
      base, share := 0, 0;
      firstBits := seq(slots, _ => 1);
      sent, received := seq(slots, _ => 0), seq(slots, _ => 0);
    }

    /** Start a reduction: this thread's interval of messages, its slots' first messages and what to wait for. */
    method ComputeThreadPointers(length: nat, cores: nat, thread: nat)
      requires Shape() && thread < cores && (pointers as object) != setBits
      requires forall i | 0 <= i < slots :: setBits[i] < 2
      modifies this, pointers
      ensures Valid() && sent == received == seq(slots, _ => 0) && firstBits == old(setBits[..])
      ensures var total := TotalMessages(length, m);
              var start, end := Start(total, cores, thread), End(total, cores, thread);
              base == Floats(start, m) && share == end - start && endPointer == EndPointer(start, end, m, length)
    {
      hide Quota, Start, End, Message, Sum, TotalMessages, Floats, EndPointer, Sendable;
      var total := TotalMessages(length, m);
      var start, end := Start(total, cores, thread), End(total, cores, thread);
      endPointer := EndPointer(start, end, m, length);
      ShareIsNat(total, cores, thread);
      outstanding := 2 * (end - start);
      base, share := Floats(start, m), end - start;
      firstBits := setBits[..];
      sent, received := seq(slots, _ => 0), seq(slots, _ => 0);
      InitPointers(Floats(start, m));
      SumZeros(sent);
    }

    /** Each slot starts with the message of its own number. */
    method InitPointers(first: int)
      requires 0 < slots == pointers.Length
      modifies pointers
      ensures forall i | 0 <= i < slots :: pointers[i] == first + Floats(Message(slots, i, 0), m)
    {
      hide Message;
      for i := 0 to slots
        invariant forall k | 0 <= k < i :: pointers[k] == first + Floats(Message(slots, k, 0), m)
      {
        pointers[i] := first + i * m;
        FirstMessage(slots, i);
      }
    }

    /** Post slot i's next message, if there is one: where it starts and how many bytes it has. */
    method PostNext(i: nat) returns (posted: bool, offset: int, bytes: int)
      requires Valid() && i < slots
      modifies this`outstanding, this`sent, pointers, setBits
      ensures Valid() && Model() == Post(old(Model()), MyQuotas(), i)
      ensures posted <==> old(sent[i]) < Quota(Available(), slots, i)
      ensures posted ==>
                && offset == base + Floats(Message(slots, i, old(sent[i])), m) < endPointer
                && bytes == MessageBytes(endPointer - offset, m)
    {
      hide Quota, Message, Sum, Floats, Sendable;
      posted, offset, bytes := false, pointers[i], 0;
      ghost var n := sent[i];
      assert SlotOk(i);
      QuotaIff(Available(), slots, i, n);
      SendableIff(endPointer - base, m, Message(slots, i, n));
      if pointers[i] < endPointer {
        posted, bytes := true, MessageBytes(endPointer - pointers[i], m);
        NextPointer(slots, i, n, m);
        SumReplaced(sent, i, n + 1);
        setBits[i] := 1 - setBits[i];
        pointers[i] := pointers[i] + slots * m;
        outstanding := outstanding - 1;
        sent := sent[i := n + 1];
        FlipBit(firstBits[i], n);
        assert forall k | 0 <= k < slots && k != i :: old(SlotOk(k)) ==> SlotOk(k);
        assert setBits[..] == old(setBits[..])[i := 1 - old(setBits[i])];
      }
    }

    /** Post the first message of every slot that has one. */
    method PostInitialWrites()
      requires Valid() && sent == seq(slots, _ => 0)
      modifies this`outstanding, this`sent, pointers, setBits
      ensures Valid() && received == old(received) && |sent| == slots
      ensures forall i | 0 <= i < slots :: sent[i] == if i < Available() then 1 else 0
      ensures received == seq(slots, _ => 0) ==> Waits(Model(), MyQuotas())
    {
      hide Quota, Message, Sum, Sendable;
      for i := 0 to slots
        invariant Valid()
        invariant forall k | 0 <= k < slots :: sent[k] == if k < i && k < Available() then 1 else 0
      {
        QuotaIff(Available(), slots, i, 0);
        FirstMessage(slots, i);
        var posted, offset, bytes := PostNext(i);
      }
      forall i | 0 <= i < slots
        ensures 1 <= MyQuotas()[i] <==> i < Available()
      {
        QuotaIff(Available(), slots, i, 0);
        FirstMessage(slots, i);
      }
    }

    /**
     * Handle a reply to slot i. A reply that comes again after it was kept is kept again exactly when the slot had no
     * next message.
     */
    method HandleReceive(i: nat, bit: nat) returns (kept: bool)
      requires Valid() && i < slots
      modifies this`outstanding, this`sent, this`received, pointers, setBits
      ensures Valid() && Model() == Handle(old(Model()), MyQuotas(), ReplyTo(i, bit))
      ensures kept <==> bit == old(setBits[i])
      ensures kept ==> (setBits[i] == bit <==> old(sent[i]) == Quota(Available(), slots, i))
    {
      hide Quota, Message, Sum, Floats, Sendable;
      assert SlotOk(i);
      kept := bit == setBits[i];
      if kept {
        var posted, offset, bytes := PostNext(i);
        label Posted:
        SumReplaced(received, i, received[i] + 1);
        outstanding := outstanding - 1;
        received := received[i := received[i] + 1];
        forall k | 0 <= k < slots
          ensures SlotOk(k)
        {
          assert old@Posted(SlotOk(k));
        }
      }
    }

    /**
     * Handle batches of replies for as long as operations are outstanding; the count is looked at between batches only.
     * If the thread can post what it waits for, the count is what is still missing exactly when no slot has kept its
     * last reply again, and then the loop goes on exactly until everything is received.
     */
    method Run(batches: seq<seq<ReplyTo>>) returns (n: nat)
      requires Valid() && forall k | 0 <= k < |batches| :: ForSlots(batches[k], slots)
      modifies this`outstanding, this`sent, this`received, pointers, setBits
      ensures Valid() && n <= |batches| && ForSlots(Flat(batches[..n]), slots)
      ensures Model() == HandleAll(old(Model()), MyQuotas(), Flat(batches[..n]))
      ensures n == |batches| || outstanding <= 0
      ensures forall k | 0 <= k < n :: StillWaits(old(Model()), MyQuotas(), share, batches[..k])
      ensures share == Available() && Repeats(old(Model()), MyQuotas(), slots) == 0 ==>
                && (outstanding == Missing(Model(), MyQuotas(), slots) <==>
                    NoRepeat(old(Model()), MyQuotas(), Flat(batches[..n])))
                && (NoRepeat(old(Model()), MyQuotas(), Flat(batches[..n])) ==>
                      (outstanding <= 0 <==> AllReceived(Model(), MyQuotas())))
    {
      hide Quota, Message, Sum, Floats, Sendable, Handle, SlotOk, Quotas;
      n := 0;
      ghost var s0 := Model();
      while n < |batches| && outstanding > 0
        invariant Valid() && n <= |batches| && ForSlots(Flat(batches[..n]), slots)
        invariant Model() == HandleAll(s0, MyQuotas(), Flat(batches[..n]))
        invariant forall k | 0 <= k < n :: StillWaits(s0, MyQuotas(), share, batches[..k])
        decreases |batches| - n
      {
        FlatNext(batches, n);
        HandleBatch(batches[n], s0, Flat(batches[..n]));
        n := n + 1;
      }
      if share == Available() && Repeats(s0, MyQuotas(), slots) == 0 {
        RunCounts(s0, MyQuotas(), Flat(batches[..n]));
        QuotasAddUp(Available(), slots);
        OutstandingIs(Model(), MyQuotas(), share);
      }
    }

    /** One batch, after the replies in `before`. */
    method HandleBatch(batch: seq<ReplyTo>, ghost s0: Slots, ghost before: seq<ReplyTo>)
      requires Valid() && ForSlots(batch, slots) && ForSlots(before, slots) && Fits(s0, MyQuotas()) && Bits(s0)
      requires Model() == HandleAll(s0, MyQuotas(), before)
      modifies this`outstanding, this`sent, this`received, pointers, setBits
      ensures Valid() && ForSlots(before + batch, slots) && Model() == HandleAll(s0, MyQuotas(), before + batch)
    {
      hide Quota, Message, Sum, Floats, Sendable, Handle, SlotOk, Quotas;
      assert before + batch[..0] == before;
      for k := 0 to |batch|
        invariant Valid() && ForSlots(before + batch[..k], slots)
        invariant Model() == HandleAll(s0, MyQuotas(), before + batch[..k])
      {
        var kept := HandleReceive(batch[k].slot, batch[k].bit);
        HandleOneMore(s0, MyQuotas(), before + batch[..k], batch[k]);
        assert before + batch[..k] + [batch[k]] == before + batch[..k + 1];
      }
      assert batch[..|batch|] == batch;
    }
  }

  lemma TwoMessages(m: nat)
    requires 0 < m
    ensures TotalMessages(2 * m, m) == 2 && EndPointer(0, 2, m, 2 * m) == 2 * m && Floats(0, m) == 0
    ensures Sendable(2 * m, m) == 2
  {
    TotalIsEnough(2 * m, m);
    var total := TotalMessages(2 * m, m);
    hide TotalMessages, Sendable;
    if 3 <= total {
      Monotone(2, total - 1, m);
    }
    assert total == 1 ==> total * m == m;
    SendableIs(2 * m, m, 2);
  }

  lemma OneThread(total: nat)
    ensures Start(total, 1, 0) == 0 && End(total, 1, 0) == total
  {
  }

  lemma TwoQuotas()
    ensures Quotas(2, 2, 2) == [1, 1]
  {
    hide Quotas;
  }

  /** A new thread with two slots that has posted its two messages. */
  method StartTwo(m: nat) returns (t: ClientThread)
    requires 0 < m
    ensures fresh(t) && fresh(t.pointers) && fresh(t.setBits) && t.Valid() && t.slots == t.share == t.Available() == 2
    ensures t.sent == t.MyQuotas() == [1, 1] && t.received == [0, 0] && t.setBits[0] == 0
  {
    hide TotalMessages, Start, End, EndPointer, Floats, Sendable, Quotas, Quota, Message, Sum;
    TwoMessages(m);
    OneThread(2);
    TwoQuotas();
    t := new ClientThread(2, m);
    t.ComputeThreadPointers(2 * m, 1, 0);
    t.PostInitialWrites();
    assert t.SlotOk(0);
    assert t.sent == [1, 1];
  }

  /**
   * The thread is done before it has everything: with two slots and two messages of any length, the reply to the first
   * message, delivered twice, takes the count to zero although the second message is still unanswered.
   */
  method FinishesTooEarly(m: nat) returns (t: ClientThread)
    requires 0 < m
    ensures fresh(t) && t.Valid() && t.slots == t.share == t.Available() == 2 && t.outstanding == 0
    ensures t.sent == t.MyQuotas() == [1, 1] && t.received == [2, 0] && !AllReceived(t.Model(), t.MyQuotas())
  {
    hide Floats, Sendable, Quotas, Quota, Message, Sum;
    t := StartTwo(m);
    var kept := t.HandleReceive(0, 0);
    assert t.Model().received == [1, 0];
    kept := t.HandleReceive(0, 0);
    assert t.Model().received == [2, 0];
    SumOfTwo(t.sent);
    SumOfTwo(t.received);
    assert t.Model().received[1] < t.MyQuotas()[1];
  }

  lemma SumOfTwo(q: seq<nat>)
    requires |q| == 2
    ensures Sum(q) == q[0] + q[1]
  {
    var p: seq<nat> := q[..1];
    assert Sum(p) == Sum(p[..0]) + p[0];
  }

  /** All replies of the batches, in order. */
  function Flat(batches: seq<seq<ReplyTo>>): seq<ReplyTo> {
    if batches == [] then [] else Flat(batches[..|batches| - 1]) + batches[|batches| - 1]
  }

  /** Something is outstanding after these batches. */
  ghost predicate StillWaits(s: Slots, quotas: seq<nat>, share: nat, batches: seq<seq<ReplyTo>>) {
    && Fits(s, quotas) && Bits(s) && ForSlots(Flat(batches), |quotas|)
    && 0 < Outstanding(HandleAll(s, quotas, Flat(batches)), share)
  }

  lemma FlatNext(batches: seq<seq<ReplyTo>>, n: nat)
    requires n < |batches|
    ensures Flat(batches[..n + 1]) == Flat(batches[..n]) + batches[n]
  {
    assert batches[..n + 1][..n] == batches[..n];
  }

  lemma HandleOneMore(s: Slots, quotas: seq<nat>, rs: seq<ReplyTo>, r: ReplyTo)
    requires Fits(s, quotas) && Bits(s) && ForSlots(rs, |quotas|) && r.slot < |quotas|
    ensures ForSlots(rs + [r], |quotas|)
    ensures HandleAll(s, quotas, rs + [r]) == Handle(HandleAll(s, quotas, rs), quotas, r)
  {
    assert (rs + [r])[..|rs|] == rs;
  }

  lemma ShareIsNat(total: nat, cores: nat, thread: nat)
    requires 0 < cores
    ensures Start(total, cores, thread) <= End(total, cores, thread)
  {
  }

  lemma FirstMessage(slots: nat, i: nat)
    ensures Message(slots, i, 0) == i
  {
  }

  lemma NextPointer(slots: nat, i: nat, n: nat, m: nat)
    ensures Floats(Message(slots, i, n + 1), m) == Floats(Message(slots, i, n), m) + slots * m
  {
    MessageNext(slots, i, n);
  }

  lemma FlipBit(first: nat, n: nat)
    ensures (first + n + 1) % 2 == 1 - (first + n) % 2
  {
  }
}
