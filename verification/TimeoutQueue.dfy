/**
 * The client's timeout queue: a doubly linked list over a fixed array of entries, newest entry first, with an extra
 * entry at the end of the array as its tail. It refines a sequence of queue pair indices.
 */
module TimeoutQueues {

  // ---------- the sequence it refines ----------

  predicate Distinct(q: seq<int>) {
    forall i, k | 0 <= i < k < |q| :: q[i] != q[k]
  }

  function Without(q: seq<int>, x: int): seq<int> {
    if q == [] then [] else if q[0] == x then q[1..] else [q[0]] + Without(q[1..], x)
  }

  lemma {:induction false} WithoutAbsent(q: seq<int>, x: int)
    requires x !in q
    ensures Without(q, x) == q
  {
    if q != [] {
      WithoutAbsent(q[1..], x);
    }
  }

  lemma {:induction false} WithoutAt(q: seq<int>, p: nat)
    requires p < |q| && Distinct(q)
    ensures Without(q, q[p]) == q[..p] + q[p + 1..]
  {
    if p != 0 {
      assert q[0] != q[p];
      WithoutAt(q[1..], p - 1);
      assert q[1..][..p - 1] == q[1..p];
      assert q[..p] == [q[0]] + q[1..p];
    }
  }

  // ---------- the links ----------

  /** The list with both ends: -1, the queued indices, the tail entry. */
  function At(q: seq<int>, tail: int, k: int): int
    requires 0 <= k <= |q| + 1
  {
    if k == 0 then -1 else if k <= |q| then q[k - 1] else tail
  }

  /** Entry b follows entry a; the head stands for the link out of -1. */
  predicate Follows(a: int, b: int, next: seq<int>, previous: seq<int>, head: int) {
    && 0 <= b < |previous| && previous[b] == a
    && (if a == -1 then head == b else 0 <= a < |next| && next[a] == b)
  }

  ghost predicate Linked(q: seq<int>, next: seq<int>, previous: seq<int>, head: int) {
    var tail := |next| - 1;
    && 1 <= |next| == |previous| && Distinct(q) && (forall k | 0 <= k < |q| :: 0 <= q[k] < tail)
    && (forall k | 0 <= k <= |q| :: Follows(At(q, tail, k), At(q, tail, k + 1), next, previous, head))
    && (forall i | 0 <= i < tail && i !in q :: next[i] == previous[i] == -1)
  }

  lemma AtDistinct(q: seq<int>, tail: int, i: int, k: int)
    requires Distinct(q) && (forall k | 0 <= k < |q| :: 0 <= q[k] < tail) && 0 <= tail
    requires 0 <= i <= |q| + 1 && 0 <= k <= |q| + 1 && i != k
    ensures At(q, tail, i) != At(q, tail, k)
  {
  }

  /** The links after entry x has been taken out. */
  function UnlinkedNext(x: int, next: seq<int>, previous: seq<int>): seq<int>
    requires 0 <= x < |next| == |previous| && -1 <= previous[x] < |next|
  {
    (if previous[x] != -1 then next[previous[x] := next[x]] else next)[x := -1]
  }

  function UnlinkedPrevious(x: int, next: seq<int>, previous: seq<int>): seq<int>
    requires 0 <= x < |next| == |previous| && -1 <= next[x] < |next|
  {
    (if next[x] != -1 then previous[next[x] := previous[x]] else previous)[x := -1]
  }

  lemma LinkAt(q: seq<int>, next: seq<int>, previous: seq<int>, head: int, p: nat)
    requires Linked(q, next, previous, head) && p < |q|
    ensures var tail := |next| - 1;
            && previous[q[p]] == At(q, tail, p) && next[q[p]] == At(q, tail, p + 2) && q[p] == At(q, tail, p + 1)
            && -1 <= At(q, tail, p) <= tail && 0 <= At(q, tail, p + 2) <= tail && (At(q, tail, p) == -1 <==> p == 0)
            && (head == q[p] <==> p == 0)
  {
    var tail := |next| - 1;
    assert Follows(At(q, tail, p), At(q, tail, p + 1), next, previous, head);
    assert Follows(At(q, tail, p + 1), At(q, tail, p + 2), next, previous, head);
    assert Follows(At(q, tail, 0), At(q, tail, 1), next, previous, head);
  }

  lemma Unlink(q: seq<int>, next: seq<int>, previous: seq<int>, head: int, p: nat)
    requires Linked(q, next, previous, head) && p < |q|
    ensures -1 <= next[q[p]] < |next| && -1 <= previous[q[p]] < |next|
    ensures Linked(q[..p] + q[p + 1..], UnlinkedNext(q[p], next, previous), UnlinkedPrevious(q[p], next, previous),
                   if head == q[p] then next[q[p]] else head)
  {
    var tail, x, q' := |next| - 1, q[p], q[..p] + q[p + 1..];
    LinkAt(q, next, previous, head, p);
    var next', previous' := UnlinkedNext(x, next, previous), UnlinkedPrevious(x, next, previous);
    var head' := if head == x then next[x] else head;
    forall k | 0 <= k <= |q'|
      ensures Follows(At(q', tail, k), At(q', tail, k + 1), next', previous', head')
    {
      UnlinkAt(q, next, previous, head, p, k);
    }
    forall i | 0 <= i < tail && i !in q'
      ensures next'[i] == previous'[i] == -1
    {
      UnlinkOutside(q, next, previous, head, p, i);
    }
  }

  lemma UnlinkAt(q: seq<int>, next: seq<int>, previous: seq<int>, head: int, p: nat, k: nat)
    requires Linked(q, next, previous, head) && p < |q| && k < |q|
    ensures -1 <= next[q[p]] < |next| && -1 <= previous[q[p]] < |next|
    ensures var tail, q' := |next| - 1, q[..p] + q[p + 1..];
            Follows(At(q', tail, k), At(q', tail, k + 1), UnlinkedNext(q[p], next, previous),
                    UnlinkedPrevious(q[p], next, previous), if head == q[p] then next[q[p]] else head)
  {
    hide At, Follows, UnlinkedNext, UnlinkedPrevious, Distinct;
    var tail, x := |next| - 1, q[p];
    LinkAt(q, next, previous, head, p);
    // the link that survives, or the two whose ends are joined
    var i := if k <= p then k else k + 1;
    var j := if k < p then k + 1 else k + 2;
    AtCut(q, tail, p, k);
    AtCut(q, tail, p, k + 1);
    AtDistinct(q, tail, i, p + 1);
    AtDistinct(q, tail, j, p + 1);
    if k != p {
      AtDistinct(q, tail, i, p);
      AtDistinct(q, tail, j, p + 2);
      FollowsElsewhere(At(q, tail, i), At(q, tail, j), x, next, previous, head);
    } else {
      FollowsJoined(At(q, tail, i), At(q, tail, j), x, next, previous, head);
    }
  }

  lemma AtCut(q: seq<int>, tail: int, p: nat, k: nat)
    requires p < |q| && k <= |q|
    ensures At(q[..p] + q[p + 1..], tail, k) == At(q, tail, if k <= p then k else k + 1)
  {
  }

  lemma FollowsElsewhere(a: int, b: int, x: int, next: seq<int>, previous: seq<int>, head: int)
    requires 0 <= x < |next| == |previous| && -1 <= previous[x] < |next| && -1 <= next[x] < |next|
    requires Follows(a, b, next, previous, head) && a != x && b != x && a != previous[x] && b != next[x]
    ensures Follows(a, b, UnlinkedNext(x, next, previous), UnlinkedPrevious(x, next, previous),
                    if head == x then next[x] else head)
  {
  }

  lemma FollowsJoined(a: int, b: int, x: int, next: seq<int>, previous: seq<int>, head: int)
    requires 0 <= x < |next| == |previous| && previous[x] == a && next[x] == b
    requires -1 <= a < |next| && 0 <= b < |next| && a != x && b != x && (a == -1 <==> head == x)
    ensures Follows(a, b, UnlinkedNext(x, next, previous), UnlinkedPrevious(x, next, previous),
                    if head == x then next[x] else head)
  {
  }

  lemma UnlinkOutside(q: seq<int>, next: seq<int>, previous: seq<int>, head: int, p: nat, i: int)
    requires Linked(q, next, previous, head) && p < |q|
    requires 0 <= i < |next| - 1 && i !in q[..p] + q[p + 1..]
    ensures -1 <= next[q[p]] < |next| && -1 <= previous[q[p]] < |next|
    ensures UnlinkedNext(q[p], next, previous)[i] == UnlinkedPrevious(q[p], next, previous)[i] == -1
  {
    var tail, q' := |next| - 1, q[..p] + q[p + 1..];
    LinkAt(q, next, previous, head, p);
    if i != q[p] {
      assert i !in q by {
        assert forall k | 0 <= k < |q| && k != p :: q[k] == q'[if k < p then k else k - 1];
      }
    }
  }

  /** The links after x, which is not in the list, has been put in front. */
  lemma LinkInFront(q: seq<int>, next: seq<int>, previous: seq<int>, head: int, x: int)
    requires Linked(q, next, previous, head) && x !in q && 0 <= x < |next| - 1
    ensures 0 <= head < |next|
    ensures Linked([x] + q, next[x := head], previous[x := -1][head := x], x)
  {
    var tail, q', next' := |next| - 1, [x] + q, next[x := head];
    assert Follows(At(q, tail, 0), At(q, tail, 1), next, previous, head);
    var previous' := previous[x := -1][head := x];
    forall k | 0 <= k <= |q'|
      ensures Follows(At(q', tail, k), At(q', tail, k + 1), next', previous', x)
    {
      if k != 0 {
        assert At(q', tail, k + 1) == At(q, tail, k);
        if k != 1 {
          assert At(q', tail, k) == At(q, tail, k - 1);
          assert Follows(At(q, tail, k - 1), At(q, tail, k), next, previous, head);
          AtDistinct(q, tail, k, 1);
        }
      }
    }
  }

  // ---------- timestamps ----------

  /** Timestamps do not increase from the newest to the oldest entry. */
  ghost predicate Sorted(q: seq<int>, time: seq<nat>) {
    forall i, k | 0 <= i < k < |q| && 0 <= q[i] < |time| && 0 <= q[k] < |time| :: time[q[k]] <= time[q[i]]
  }

  ghost predicate InRange(q: seq<int>, n: nat) {
    Distinct(q) && forall k | 0 <= k < |q| :: 0 <= q[k] < n
  }

  lemma CutKeepsSorted(q: seq<int>, time: seq<nat>, time': seq<nat>, p: nat)
    requires InRange(q, |time|) && |time'| == |time| && Sorted(q, time) && p < |q|
    requires forall i | 0 <= i < |time| && i != q[p] :: time'[i] == time[i]
    ensures var rest := q[..p] + q[p + 1..]; Sorted(rest, time') && InRange(rest, |time|) && q[p] !in rest
  {
    var rest := q[..p] + q[p + 1..];
    forall i, k | 0 <= i < k < |rest|
      ensures rest[i] != rest[k] && 0 <= rest[i] < |time| && 0 <= rest[k] < |time| && time'[rest[k]] <= time'[rest[i]]
    {
      var i', k' := if i < p then i else i + 1, if k < p then k else k + 1;
      assert rest[i] == q[i'] && rest[k] == q[k'] && q[i'] != q[p] && q[k'] != q[p];
    }
  }

  /** Taking an entry out keeps the order of the others. */
  lemma RemoveKeepsSorted(q: seq<int>, time: seq<nat>, time': seq<nat>, x: int)
    requires InRange(q, |time|) && |time'| == |time| && Sorted(q, time)
    requires forall i | 0 <= i < |time| && i != x :: time'[i] == time[i]
    ensures Sorted(Without(q, x), time') && InRange(Without(q, x), |time|) && x !in Without(q, x)
  {
    if x in q {
      hide Sorted;
      var p :| 0 <= p < |q| && q[p] == x;
      WithoutAt(q, p);
      CutKeepsSorted(q, time, time', p);
    } else {
      WithoutAbsent(q, x);
      assert forall k | 0 <= k < |q| :: time'[q[k]] == time[q[k]];
    }
  }

  /** A push keeps the queue sorted exactly when the newest of the other entries is not younger. */
  lemma PushKeepsSortedIff(q: seq<int>, time: seq<nat>, x: int, t: nat)
    requires InRange(q, |time|) && Sorted(q, time) && 0 <= x < |time|
    ensures var rest := Without(q, x);
            && (forall k | 0 <= k < |rest| :: 0 <= rest[k] < |time|)
            && (Sorted([x] + rest, time[x := t]) <==> rest == [] || time[rest[0]] <= t)
  {
    var rest, time' := Without(q, x), time[x := t];
    RemoveKeepsSorted(q, time, time', x);
    FrontSortedIff(rest, time', x);
  }

  lemma FrontSortedIff(rest: seq<int>, time: seq<nat>, x: int)
    requires InRange(rest, |time|) && Sorted(rest, time) && 0 <= x < |time| && x !in rest
    ensures Sorted([x] + rest, time) <==> rest == [] || time[rest[0]] <= time[x]
  {
    var q := [x] + rest;
    if rest != [] {
      assert q[0] == x && q[1] == rest[0];
      if time[rest[0]] <= time[x] {
        forall i, k | 0 <= i < k < |q|
          ensures 0 <= q[i] < |time| && 0 <= q[k] < |time| && time[q[k]] <= time[q[i]]
        {
          assert q[k] == rest[k - 1];
          assert k == 1 || time[rest[k - 1]] <= time[rest[0]];
          if i != 0 {
            assert q[i] == rest[i - 1];
          }
        }
      }
    }
  }

  ghost predicate HasExpired(x: int, time: seq<nat>, now: nat, ticks: nat) {
    0 <= x < |time| && now - time[x] > ticks
  }

  /** No queued entry is from the future. */
  ghost predicate UpTo(q: seq<int>, time: seq<nat>, now: nat) {
    forall k | 0 <= k < |q| && 0 <= q[k] < |time| :: time[q[k]] <= now
  }

  /** In a sorted queue some entry has expired exactly when the oldest one has. */
  lemma OldestExpiresFirst(q: seq<int>, time: seq<nat>, now: nat, ticks: nat)
    requires InRange(q, |time|) && Sorted(q, time) && q != []
    ensures (exists k :: 0 <= k < |q| && HasExpired(q[k], time, now, ticks)) <==>
            HasExpired(q[|q| - 1], time, now, ticks)
  {
  }

  /** What the client does with the queue: send completions push, replies remove. */
  datatype Op = PushAt(index: int, time: nat) | Drop(index: int)

  datatype Queue = Queue(order: seq<int>, time: seq<nat>)

  function Apply(s: Queue, op: Op): Queue {
    if !(0 <= op.index < |s.time|) then s
    else match op
      case PushAt(x, t) => Queue([x] + Without(s.order, x), s.time[x := t])
      case Drop(x) => Queue(Without(s.order, x), s.time[x := 0])
  }

  function ApplyAll(s: Queue, ops: seq<Op>): Queue {
    if ops == [] then s else Apply(ApplyAll(s, ops[..|ops| - 1]), ops[|ops| - 1])
  }

  /** The clock does not run backwards between pushes. */
  ghost predicate Monotone(ops: seq<Op>) {
    forall i, k | 0 <= i < k < |ops| && ops[i].PushAt? && ops[k].PushAt? :: ops[i].time <= ops[k].time
  }

  ghost predicate NotAfter(ops: seq<Op>, now: nat) {
    forall i | 0 <= i < |ops| && ops[i].PushAt? :: ops[i].time <= now
  }

  lemma ApplyKeeps(s: Queue, op: Op, now: nat)
    requires InRange(s.order, |s.time|) && Sorted(s.order, s.time)
    requires UpTo(s.order, s.time, if op.PushAt? then op.time else now) && (op.PushAt? ==> op.time <= now)
    ensures var s' := Apply(s, op);
            InRange(s'.order, |s'.time|) && Sorted(s'.order, s'.time) && UpTo(s'.order, s'.time, now)
  {
    hide Sorted;
    if 0 <= op.index < |s.time| {
      var x, s' := op.index, Apply(s, op);
      RemoveKeepsSorted(s.order, s.time, s'.time, x);
      WithoutSubset(s.order, x);
      if op.PushAt? {
        PushKeepsSortedIff(s.order, s.time, x, op.time);
      }
    }
  }

  lemma {:induction false} WithoutSubset(q: seq<int>, x: int)
    ensures forall k | 0 <= k < |Without(q, x)| :: Without(q, x)[k] in q
  {
    if q != [] && q[0] != x {
      WithoutSubset(q[1..], x);
    }
  }

  /** Over any run the queue stays sorted by age, so that the oldest entry is always the first to expire. */
  lemma {:induction false} RunStaysSorted(n: nat, ops: seq<Op>, now: nat)
    requires Monotone(ops) && NotAfter(ops, now)
    ensures var s := ApplyAll(Queue([], seq(n, _ => 0)), ops);
            InRange(s.order, |s.time|) && Sorted(s.order, s.time) && UpTo(s.order, s.time, now)
    decreases |ops|
  {
    if ops != [] {
      var rest, op := ops[..|ops| - 1], ops[|ops| - 1];
      RunStaysSorted(n, rest, if op.PushAt? then op.time else now);
      ApplyKeeps(ApplyAll(Queue([], seq(n, _ => 0)), rest), op, now);
    }
  }

  /** The client's clock counts ticks in 64 bits. */
  const CLOCK_MODULUS: int := 0x1_0000_0000_0000_0000

  class TimeoutQueue {
    const timestamp: array<nat>
    const next: array<int>
    const previous: array<int>
    var head: int
    /** The queued indices, newest first. */
    ghost var order: seq<int>

    ghost predicate Valid()
      reads this, timestamp, next, previous
    {
      && 1 <= timestamp.Length == next.Length == previous.Length && next != previous
      && Linked(order, next[..], previous[..], head)
      && timestamp[timestamp.Length - 1] == 0
    }

    ghost function Model(): Queue
      requires Valid()
      reads this, timestamp, next, previous
    {
      Queue(order, timestamp[..timestamp.Length - 1])
    }

    constructor (entries: nat)
      ensures Valid() && fresh(timestamp) && fresh(next) && fresh(previous)
      ensures Model() == Queue([], seq(entries, _ => 0))
    {
      timestamp := new nat[entries + 1](_ => 0);
      next := new int[entries + 1](_ => -1);
      previous := new int[entries + 1](_ => -1);
      head := entries;
      order := [];
    }

    /** Unlink an entry. An index that is not in the queue, or not an entry at all, changes nothing. */
    method Remove(index: int)
      requires Valid()
      modifies this, timestamp, next, previous
      ensures Valid() && Model() == Apply(old(Model()), Drop(index))
    {
      hide Linked;
      ghost var q := order;
      if 0 <= index < timestamp.Length - 1 {
        Unlinked(q, next[..], previous[..], head, index);
        var before, after := previous[index], next[index];
        if before != -1 {
          next[before] := after;
        }
        if after != -1 {
          previous[after] := before;
        }
        if head == index {
          head := after;
        }
        timestamp[index] := 0;
        next[index] := -1;
        previous[index] := -1;
        order := Without(q, index);
      } else {
        NotAnEntry(q, next[..], previous[..], head, index);
      }
    }

    /** Queue an entry, or move it, to the front. */
    method Push(index: int, time: nat)
      requires Valid()
      modifies this, timestamp, next, previous
      ensures Valid() && Model() == Apply(old(Model()), PushAt(index, time))
    {
      hide Linked;
      if 0 <= index < timestamp.Length - 1 {
        Remove(index);
        GoneFrom(old(order), old(next[..]), old(previous[..]), old(head), index);
        LinkInFront(order, next[..], previous[..], head, index);
        timestamp[index] := time;
        previous[index] := -1;
        next[index] := head;
        previous[head] := index;
        head := index;
        order := [index] + order;
      }
    }

    /** Drop the newest entry. */
    method Pop()
      requires Valid()
      modifies this, timestamp, next, previous
      ensures Valid() && Model() == if old(order) == [] then old(Model()) else Apply(old(Model()), Drop(old(order)[0]))
    {
      Ends(order, next[..], previous[..], head);
      Remove(head);
    }

    /** The newest entry, or the tail entry if there is none. */
    method Top() returns (index: int, time: nat)
      requires Valid()
      ensures index == (if order == [] then timestamp.Length - 1 else order[0])
      ensures 0 <= index < timestamp.Length && time == timestamp[index] && (order == [] ==> time == 0)
    {
      Ends(order, next[..], previous[..], head);
      return head, timestamp[head];
    }

    /** The oldest entry, or -1. */
    method Bottom() returns (index: int, time: nat)
      requires Valid()
      ensures order == [] ==> index == -1 && time == 0
      ensures order != [] ==> index == order[|order| - 1] && 0 <= index < timestamp.Length && time == timestamp[index]
    {
      Ends(order, next[..], previous[..], head);
      index, time := previous[previous.Length - 1], 0;
      if index != -1 {
        time := timestamp[index];
      }
    }

    /** The entry to post again, or -1: one is found exactly if any queued entry has expired. */
    method CheckForTimeouts(now: nat, ticks: nat) returns (expired: int)
      requires Valid()
      ensures expired ==
              if order != [] && (now - Model().time[order[|order| - 1]]) % CLOCK_MODULUS > ticks then order[|order| - 1]
              else -1
      ensures Sorted(order, Model().time) && UpTo(order, Model().time, now) && now < CLOCK_MODULUS ==>
                (expired != -1 <==> exists k :: 0 <= k < |order| && HasExpired(order[k], Model().time, now, ticks))
    {
      expired := -1;
      var index, time := Bottom();
      Ends(order, next[..], previous[..], head);
      if order != [] && Sorted(order, Model().time) {
        OldestExpiresFirst(order, Model().time, now, ticks);
      }
      if index != -1 && (now - time) % CLOCK_MODULUS > ticks {
        expired := index;
      }
    }
  }

  // ---------- from links to the class ----------

  lemma Unlinked(q: seq<int>, next: seq<int>, previous: seq<int>, head: int, x: int)
    requires Linked(q, next, previous, head) && 0 <= x < |next| - 1
    ensures |next| == |previous| && -1 <= next[x] < |next| && -1 <= previous[x] < |next| && next[x] != x
    ensures previous[x] != x
    ensures Linked(Without(q, x), UnlinkedNext(x, next, previous), UnlinkedPrevious(x, next, previous),
                   if head == x then next[x] else head)
  {
    if x in q {
      var p :| 0 <= p < |q| && q[p] == x;
      LinkAt(q, next, previous, head, p);
      WithoutAt(q, p);
      Unlink(q, next, previous, head, p);
      AtDistinct(q, |next| - 1, p, p + 1);
      AtDistinct(q, |next| - 1, p + 2, p + 1);
    } else {
      WithoutAbsent(q, x);
      assert UnlinkedNext(x, next, previous) == next && UnlinkedPrevious(x, next, previous) == previous;
      Ends(q, next, previous, head);
    }
  }

  lemma NotAnEntry(q: seq<int>, next: seq<int>, previous: seq<int>, head: int, x: int)
    requires Linked(q, next, previous, head) && !(0 <= x < |next| - 1)
    ensures Without(q, x) == q
  {
    WithoutAbsent(q, x);
  }

  lemma GoneFrom(q: seq<int>, next: seq<int>, previous: seq<int>, head: int, x: int)
    requires Linked(q, next, previous, head)
    ensures x !in Without(q, x)
  {
    if x in q {
      var p :| 0 <= p < |q| && q[p] == x;
      WithoutAt(q, p);
    } else {
      WithoutAbsent(q, x);
    }
  }

  lemma Ends(q: seq<int>, next: seq<int>, previous: seq<int>, head: int)
    requires Linked(q, next, previous, head)
    ensures |next| == |previous| && head == (if q == [] then |next| - 1 else q[0])
    ensures previous[|next| - 1] == if q == [] then -1 else q[|q| - 1]
    ensures InRange(q, |next| - 1)
    ensures Without(q, head) == if q == [] then [] else q[1..]
  {
    var tail := |next| - 1;
    assert Follows(At(q, tail, 0), At(q, tail, 1), next, previous, head);
    assert Follows(At(q, tail, |q|), At(q, tail, |q| + 1), next, previous, head);
  }
}
