/** How a buffer is divided into messages, the messages over threads, and a thread's messages over its slots. */
module Partitions {

  function Min(a: int, b: int): int {
    if a < b then a else b
  }

  /** Division as the client's language has it: towards zero. */
  function Truncated(a: int, b: int): int
    requires 0 < b
  {
    if 0 <= a then a / b else -(-a / b)
  }

  /** Messages for a buffer of `length` floats, with `m` floats (4 * m bytes) to a message. */
  function TotalMessages(length: nat, m: nat): nat
    requires 0 < m
  {
    Truncated(4 * length - 1, 4 * m) + 1
  }

  /** The messages cover the buffer, and the last one is not empty; an empty buffer still takes one message. */
  lemma TotalIsEnough(length: nat, m: nat)
    requires 0 < m
    ensures var total := TotalMessages(length, m);
            && 1 <= total && length <= total * m
            && (0 < length ==> (total - 1) * m < length) && (length == 0 ==> total == 1)
  {
    var q := (4 * length - 1) / (4 * m);
    if 0 < length {
      assert 4 * length - 1 == q * (4 * m) + (4 * length - 1) % (4 * m);
      assert q * (4 * m) == 4 * (q * m);
      assert (q + 1) * m == q * m + m;
    }
  }

  // ---------- threads ----------

  function Start(total: nat, cores: nat, t: nat): nat
    requires 0 < cores
  {
    t * (total / cores) + Min(t, total % cores)
  }

  function End(total: nat, cores: nat, t: nat): nat
    requires 0 < cores
  {
    Start(total, cores, t) + total / cores + if t < total % cores then 1 else 0
  }

  lemma EndIsNextStart(total: nat, cores: nat, t: nat)
    requires 0 < cores
    ensures End(total, cores, t) == Start(total, cores, t + 1)
  {
    assert (t + 1) * (total / cores) == t * (total / cores) + total / cores;
  }

  lemma StartEnds(total: nat, cores: nat)
    requires 0 < cores
    ensures Start(total, cores, 0) == 0 && Start(total, cores, cores) == total
  {
  }

  lemma {:induction false} StartGrows(total: nat, cores: nat, t: nat, u: nat)
    requires 0 < cores && t <= u
    ensures Start(total, cores, t) <= Start(total, cores, u)
  {
    if t != u {
      StartGrows(total, cores, t, u - 1);
      EndIsNextStart(total, cores, u - 1);
    }
  }

  lemma {:induction false} FindThread(total: nat, cores: nat, message: nat, u: nat) returns (t: nat)
    requires 0 < cores && message < Start(total, cores, u)
    ensures t < u && Start(total, cores, t) <= message < End(total, cores, t)
  {
    StartEnds(total, cores);
    EndIsNextStart(total, cores, u - 1);
    if Start(total, cores, u - 1) <= message {
      t := u - 1;
    } else {
      t := FindThread(total, cores, message, u - 1);
    }
  }

  /**
   * The threads' intervals partition the messages, no thread has more than one message more than another, and the
   * threads that have one more are the first ones.
   */
  lemma ThreadsPartition(total: nat, cores: nat, message: nat)
    requires 0 < cores && message < total
    ensures exists t :: 0 <= t < cores && Start(total, cores, t) <= message < End(total, cores, t)
    ensures forall t, u | 0 <= t < cores && 0 <= u < cores
                          && Start(total, cores, t) <= message < End(total, cores, t)
                          && Start(total, cores, u) <= message < End(total, cores, u) :: t == u
    ensures forall t, u | 0 <= t < cores && 0 <= u < cores ::
              End(total, cores, t) - Start(total, cores, t) <= End(total, cores, u) - Start(total, cores, u) + 1
    ensures forall t, u | 0 <= t < u < cores ::
              End(total, cores, u) - Start(total, cores, u) <= End(total, cores, t) - Start(total, cores, t)
  {
    hide Start;
    StartEnds(total, cores);
    var found := FindThread(total, cores, message, cores);
    forall t, u | 0 <= t < u < cores
      ensures End(total, cores, t) <= Start(total, cores, u)
    {
      EndIsNextStart(total, cores, t);
      StartGrows(total, cores, t + 1, u);
    }
  }

  /** Where a thread stops, in floats from the start of the buffer. The client adds the end to the thread's start. */
  function EndPointer(start: nat, end: nat, m: nat, length: nat): int {
    Min(start * m + end * m, length)
  }

  /** A thread stops at the end of its own interval exactly when that interval is the first or the last one. */
  lemma EndPointerIff(length: nat, m: nat, cores: nat, t: nat)
    requires 0 < m && 0 < cores && t < cores
    ensures var total := TotalMessages(length, m);
            var start, end := Start(total, cores, t), End(total, cores, t);
            end <= total && (EndPointer(start, end, m, length) == Min(end * m, length) <==> start == 0 || end == total)
  {
    TotalIsEnough(length, m);
    var total := TotalMessages(length, m);
    var start, end := Start(total, cores, t), End(total, cores, t);
    StartEnds(total, cores);
    EndIsNextStart(total, cores, t);
    StartGrows(total, cores, t + 1, cores);
    if 0 < length {
      Products(start, end, total, m, length);
    }
  }

  lemma Products(start: nat, end: nat, total: nat, m: nat, length: nat)
    requires 0 < m && end <= total && 1 <= total && (total - 1) * m < length <= total * m
    ensures EndPointer(start, end, m, length) == Min(end * m, length) <==> start == 0 || end == total
  {
    if start != 0 {
      assert 1 * m <= start * m by {
        Monotone(1, start, m);
      }
      if end < total {
        Monotone(end, total - 1, m);
      }
    }
  }

  lemma Monotone(a: nat, b: nat, m: nat)
    requires a <= b
    ensures a * m <= b * m
  {
  }

  /** Three messages on three threads: the second thread also sends the third one's message. */
  lemma EndPointerFails()
    ensures Start(3, 3, 1) == 1 && End(3, 3, 1) == 2 && EndPointer(1, 2, 64, 192) == 192 && Min(2 * 64, 192) == 128
  {
  }

  // ---------- the length of a message ----------

  /** The bytes of the message at `remaining` floats before the end. The product is kept in 32 bits. */
  function MessageBytes(remaining: nat, m: nat): int {
    Min(4 * m, (4 * remaining) % 0x1_0000_0000)
  }

  /**
   * It is the rest of the buffer, or a full message, exactly when the remaining bytes do not wrap below a message.
   * Otherwise it is what is left of them in 32 bits.
   */
  lemma MessageBytesIff(remaining: nat, m: nat)
    requires 4 * m < 0x1_0000_0000
    ensures MessageBytes(remaining, m) == Min(4 * m, 4 * remaining) <==>
            4 * remaining < 0x1_0000_0000 || 4 * m <= (4 * remaining) % 0x1_0000_0000
    ensures 0 <= MessageBytes(remaining, m) <= 4 * m
    ensures MessageBytes(remaining, m) < 4 * m ==> (4 * remaining - MessageBytes(remaining, m)) % 0x1_0000_0000 == 0
  {
  }

  /** A buffer of 4 GiB ahead of the end yields an empty message. */
  lemma MessageBytesFails()
    ensures MessageBytes(0x4000_0000, 64) == 0
  {
  }
}
