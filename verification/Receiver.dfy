/**
 * Reception of RDMA messages: only the first packet of a message names a pool index, so the switch keeps the expected
 * sequence number and the pool index of the current message per queue pair, and must not assign a slot to a packet
 * whose predecessors in the message are missing.
 */
module Receivers {
  import opened Words

  /** Packet sequence numbers are 24 bits wide. */
  const PSN_MODULUS: int := 0x100_0000

  /** The top bit of the pool index register marks a sequence violation. */
  const ERROR_BIT: int := 0x8000_0000

  type Psn = x: nat | x < 0x100_0000

  /** The place of a packet in its message, as its opcode gives it. */
  datatype Kind = First | Middle | Last | Only

  predicate StartsMessage(kind: Kind) {
    kind == First || kind == Only
  }

  /** receiver_data_t. */
  datatype Register = Register(next: Word, pool: Word)

  function Successor(psn: Word): Word {
    if psn == 0xff_ffff then 0 else (psn + 1) % MODULUS
  }

  /** `|+|` on 32 bits. */
  function SaturatingAdd(x: Word, y: Word): Word {
    if x + y < MODULUS then x + y else MODULUS - 1
  }

  /** The register action for a packet: reset on the first packet of a message, check and increment on later ones. */
  function RegisterAfter(reg: Register, kind: Kind, psn: Psn, rkey: Word): Register {
    if StartsMessage(kind) then Register(Successor(psn), rkey)
    else if psn == reg.next then Register(Successor(reg.next), SaturatingAdd(reg.pool, 2))
    else Register(reg.next, ERROR_BIT)
  }

  /** Is the packet dropped, given the register after its action? First packets never are. */
  predicate IsDropped(reg: Register, kind: Kind) {
    !StartsMessage(kind) && ERROR_BIT <= reg.pool
  }

  /** The register file of all queue pairs. */
  class Receiver {
    const next: array<Word>
    const pool: array<Word>

    ghost predicate Valid() {
      next.Length == pool.Length && next != pool
    }

    ghost function Registers(qp: nat): Register
      requires Valid() && qp < next.Length
      reads next, pool
    {
      Register(next[qp], pool[qp])
    }

    constructor (queuePairs: nat)
      ensures Valid() && fresh(next) && fresh(pool) && next.Length == queuePairs
      ensures forall qp | 0 <= qp < queuePairs :: Registers(qp) == Register(0, 0)
    {
      next := new Word[queuePairs](_ => 0);
      pool := new Word[queuePairs](_ => 0);
    }

    /** Receive a packet: its 15-bit pool index, and whether it is dropped as a sequence violation. */
    method Receive(qp: nat, kind: Kind, psn: Psn, rkey: Word) returns (dropped: bool, index: nat)
      requires Valid() && qp < next.Length
      modifies next, pool
      ensures Registers(qp) == RegisterAfter(old(Registers(qp)), kind, psn, rkey)
      ensures dropped == IsDropped(Registers(qp), kind) && index == pool[qp] % 0x8000
      ensures kind == First || kind == Only ==> !dropped && pool[qp] == rkey && index == rkey % 0x8000
      ensures (kind == Middle || kind == Last) && psn != old(next[qp]) ==> dropped && next[qp] == old(next[qp])
      ensures forall i | 0 <= i < next.Length && i != qp :: Registers(i) == old(Registers(i))
    {
      if StartsMessage(kind) {
        next[qp] := if psn == 0xff_ffff then 0 else psn + 1;
        pool[qp] := rkey;
        dropped := false;
      } else {
        if psn == next[qp] {
          pool[qp] := SaturatingAdd(pool[qp], 2);
          next[qp] := if next[qp] == 0xff_ffff then 0 else (next[qp] + 1) % 0x1_0000_0000;
        } else {
          pool[qp] := 0x8000_0000;
        }
        dropped := 0x8000_0000 <= pool[qp];
      }
      index := pool[qp] % 0x8000;
    }
  }

  // ---------- what the sender sends ----------

  /** The message of the g-th packet a queue pair sends: its first packet, its length and its rkey. */
  datatype Sent = Sent(start: nat, length: nat, rkey: Word)

  /** The opcode of packet g of the stream, from its place in its message. */
  function KindOf(m: Sent, g: nat): Kind {
    if m.length == 1 then Only
    else if g == m.start then First
    else if g + 1 == m.start + m.length then Last
    else Middle
  }

  /** Messages of any lengths follow each other, and the pool indices of a message stay below the error bit. */
  ghost predicate IsStream(sent: nat -> Sent) {
    && (forall g: nat :: sent(g).start <= g < sent(g).start + sent(g).length)
    && (forall g: nat | 0 < g :: sent(g) == sent(g - 1) || sent(g).start == g == sent(g - 1).start + sent(g - 1).length)
    && (forall g: nat :: sent(g).rkey + 2 * (g - sent(g).start) < ERROR_BIT)
  }

  function PsnOf(psn0: Psn, g: nat): Psn {
    (psn0 + g) % 0x100_0000
  }

  /** Packets may be lost on the way, but not so many in a row that sequence numbers repeat, and keep their order. */
  ghost predicate IsArrival(got: seq<nat>) {
    forall k | 0 < k < |got| :: got[k - 1] < got[k] <= got[k - 1] + PSN_MODULUS
  }

  /** The register after the packets that arrived. */
  function After(sent: nat -> Sent, psn0: Psn, reg: Register, got: seq<nat>): Register {
    if got == [] then reg else
      var g := got[|got| - 1];
      RegisterAfter(After(sent, psn0, reg, got[..|got| - 1]), KindOf(sent(g), g), PsnOf(psn0, g), sent(g).rkey)
  }

  /** Every packet of the message of packet g has arrived, up to g itself. */
  ghost predicate WholePrefix(sent: nat -> Sent, got: seq<nat>, g: nat) {
    forall k | sent(g).start <= k <= g :: k in got
  }

  lemma {:induction false} Increasing(got: seq<nat>, i: nat, k: nat)
    requires IsArrival(got) && i < k < |got|
    ensures got[i] < got[k]
  {
    if i + 1 < k {
      Increasing(got, i, k - 1);
    }
  }

  lemma NextPsn(psn0: Psn, g: nat)
    ensures Successor(PsnOf(psn0, g)) == PsnOf(psn0, g + 1)
  {
  }

  lemma PsnDiffers(psn0: Psn, g: nat, g': nat)
    requires g < g' < g + PSN_MODULUS
    ensures PsnOf(psn0, g) != PsnOf(psn0, g')
  {
  }

  /** The prefix of a message is complete when its last packet and the prefix before that are. */
  lemma PrefixStep(sent: nat -> Sent, got: seq<nat>, g: nat)
    requires IsStream(sent) && IsArrival(got) && 2 <= |got| && g == got[|got| - 1] && sent(g).start != g
    ensures var rest := got[..|got| - 1];
            var before := rest[|rest| - 1];
            && sent(g).start <= g - 1
            && (WholePrefix(sent, got, g) <==> before == g - 1 && WholePrefix(sent, rest, before))
  {
    var rest := got[..|got| - 1];
    var before := rest[|rest| - 1];
    StreamAt(sent, g);
    assert before < g;
    forall k | k < g && k in got
      ensures k in rest && k <= before
    {
      var i :| 0 <= i < |got| && got[i] == k;
      if i + 1 < |got| - 1 {
        Increasing(got, i, |got| - 2);
      }
      assert i < |rest| ==> rest[i] == k;
    }
    assert got[|got| - 1] in got;
    assert forall k | k in rest :: k in got;
    if WholePrefix(sent, got, g) {
      assert g - 1 in got;
    }
  }

  /**
   * While the message's prefix is complete the register predicts its next packet, and the pool index has advanced
   * by two per packet; otherwise the error bit is set.
   */
  lemma {:induction false} RegisterTracks(sent: nat -> Sent, psn0: Psn, reg: Register, got: seq<nat>)
    requires IsStream(sent) && IsArrival(got) && got != [] && sent(got[0]).start == got[0]
    ensures var g, r := got[|got| - 1], After(sent, psn0, reg, got);
            if WholePrefix(sent, got, g) then
              r == Register(PsnOf(psn0, g + 1), sent(g).rkey + 2 * (g - sent(g).start))
            else ERROR_BIT <= r.pool
    decreases |got|
  {
    hide PsnOf, Successor, WholePrefix, KindOf, IsStream;
    var rest, g := got[..|got| - 1], got[|got| - 1];
    NextPsn(psn0, g);
    StartsIff(sent, g);
    if sent(g).start == g {
      assert WholePrefix(sent, got, g) by {
        StartIsWhole(sent, got, g);
      }
    } else {
      RegisterTracks(sent, psn0, reg, rest);
      PrefixStep(sent, got, g);
      var before := rest[|rest| - 1];
      StreamAt(sent, g);
      InRange(sent, before);
      TracksNext(sent(g), psn0, After(sent, psn0, reg, rest), before, g, WholePrefix(sent, rest, before));
    }
  }

  lemma InRange(sent: nat -> Sent, g: nat)
    requires IsStream(sent)
    ensures sent(g).start <= g && sent(g).rkey + 2 * (g - sent(g).start) < ERROR_BIT
  {
  }

  /** A packet that does not start its message, after an arrival at which the register was right or in error. */
  lemma TracksNext(m: Sent, psn0: Psn, reg: Register, before: nat, g: nat, whole: bool)
    requires before < g <= before + PSN_MODULUS && m.start < g && m.rkey + 2 * (g - m.start) < ERROR_BIT
    requires !StartsMessage(KindOf(m, g))
    requires if whole then reg.next == PsnOf(psn0, before + 1) else ERROR_BIT <= reg.pool
    requires whole && before == g - 1 ==> reg.pool == m.rkey + 2 * (before - m.start)
    ensures var r := RegisterAfter(reg, KindOf(m, g), PsnOf(psn0, g), m.rkey);
            if whole && before == g - 1 then r == Register(PsnOf(psn0, g + 1), m.rkey + 2 * (g - m.start))
            else ERROR_BIT <= r.pool
  {
    hide PsnOf, Successor, KindOf;
    NextPsn(psn0, g);
    if whole && before != g - 1 {
      PsnDiffers(psn0, before + 1, g);
    }
  }

  /** Exactly the packets that start a message reset the register. */
  lemma StartsIff(sent: nat -> Sent, g: nat)
    requires IsStream(sent)
    ensures StartsMessage(KindOf(sent(g), g)) <==> sent(g).start == g
  {
  }

  /** A packet that starts a message is never dropped and gets its own rkey, whatever the register holds. */
  lemma StartIsAccepted(sent: nat -> Sent, psn0: Psn, reg: Register, g: nat)
    requires IsStream(sent) && sent(g).start == g
    ensures var r := RegisterAfter(reg, KindOf(sent(g), g), PsnOf(psn0, g), sent(g).rkey);
            && !IsDropped(r, KindOf(sent(g), g)) && r == Register(PsnOf(psn0, g + 1), sent(g).rkey)
  {
    StartsIff(sent, g);
    NextPsn(psn0, g);
  }

  lemma StartIsWhole(sent: nat -> Sent, got: seq<nat>, g: nat)
    requires IsStream(sent) && g in got && sent(g).start == g
    ensures WholePrefix(sent, got, g)
  {
  }

  lemma StreamAt(sent: nat -> Sent, g: nat)
    requires IsStream(sent) && sent(g).start != g
    ensures 0 < g && sent(g) == sent(g - 1) && sent(g).start <= g
    ensures sent(g).rkey + 2 * (g - sent(g).start) < ERROR_BIT
  {
  }

  /**
   * A packet is accepted exactly when every earlier packet of its message has arrived, and then gets the pool index
   * its place in the message calls for.
   */
  lemma AcceptedIffPrefixArrived(sent: nat -> Sent, psn0: Psn, reg: Register, got: seq<nat>)
    requires IsStream(sent) && IsArrival(got) && got != [] && sent(got[0]).start == got[0]
    ensures var g, r := got[|got| - 1], After(sent, psn0, reg, got);
            && (!IsDropped(r, KindOf(sent(g), g)) <==> WholePrefix(sent, got, g))
            && (WholePrefix(sent, got, g) ==> r.pool % 0x8000 == (sent(g).rkey + 2 * (g - sent(g).start)) % 0x8000)
  {
    RegisterTracks(sent, psn0, reg, got);
    var g := got[|got| - 1];
    StartsIff(sent, g);
    if sent(g).start == g {
      StartIsWhole(sent, got, g);
    }
    assert sent(g).rkey + 2 * (g - sent(g).start) < ERROR_BIT;
  }

  /**
   * Why the bound on losses is needed: after an accepted packet g, a later packet of a message that was not announced
   * is accepted exactly when a multiple of 2^24 packets were lost in between.
   */
  lemma AcceptedAfterGap(psn0: Psn, reg: Register, g: nat, g': nat, kind: Kind, rkey: Word)
    requires g < g' && reg.next == PsnOf(psn0, g + 1) && reg.pool + 2 < ERROR_BIT && (kind == Middle || kind == Last)
    ensures !IsDropped(RegisterAfter(reg, kind, PsnOf(psn0, g'), rkey), kind) <==> (g' - g - 1) % PSN_MODULUS == 0
  {
    Congruent(psn0 + g + 1, g' - g - 1);
  }

  /** Why the first arrival must start a message: a register that was never reset accepts sequence number 0. */
  lemma ColdRegister(kind: Kind, psn: Psn, rkey: Word)
    requires kind == Middle || kind == Last
    ensures !IsDropped(RegisterAfter(Register(0, 0), kind, psn, rkey), kind) <==> psn == 0
  {
  }

  lemma Congruent(a: nat, d: nat)
    ensures (a + d) % PSN_MODULUS == a % PSN_MODULUS <==> d % PSN_MODULUS == 0
  {
  }
}
