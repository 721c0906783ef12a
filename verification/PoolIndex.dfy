/**
 * Pool indices of multi-packet messages: where a client places its slots, how the index of any packet of a message
 * leads back to the message, and how a reply finds its queue pair and its slot.
 */
module PoolIndices {
  import opened BitMasks
  import opened Partitions
  import opened ThreadSlots

  /** The switch keeps 15 bits of a pool index, 14 of which number packets. */
  const INDICES: nat := 0x8000
  const PACKETS: nat := 0x4000

  /** The rkey of the message in slot i of a thread, for `ppm` packets per message: its first packet and its set. */
  function Rkey(slots: nat, ppm: nat, thread: nat, i: nat, bit: nat): nat {
    2 * Message(ppm, 0, Message(slots, i, thread)) + bit
  }

  /** The switch adds two to the rkey for every packet of the message before packet o. */
  function IndexOf(rkey: nat, o: nat): nat {
    (rkey + 2 * o) % INDICES
  }

  /** The packets of the message can be numbered in 14 bits. */
  predicate InPool(slots: nat, ppm: nat, thread: nat, i: nat) {
    i < slots && Message(ppm, 0, Message(slots, i, thread) + 1) <= PACKETS
  }

  lemma PacketNumber(ppm: nat, q: nat, o: nat)
    requires o < ppm
    ensures Message(ppm, 0, q) + o == Message(ppm, o, q) < Message(ppm, 0, q + 1)
    ensures Message(ppm, o, q) % ppm == o && Message(ppm, 0, q) % ppm == 0
  {
    MessageNext(ppm, 0, q);
    Remainder(Message(ppm, o, q), ppm, q, o);
    Remainder(Message(ppm, 0, q), ppm, q, 0);
  }

  lemma IndexInPool(slots: nat, ppm: nat, thread: nat, i: nat, o: nat, bit: nat)
    requires InPool(slots, ppm, thread, i) && o < ppm && bit < 2
    ensures IndexOf(Rkey(slots, ppm, thread, i, bit), o) ==
            2 * Message(ppm, o, Message(slots, i, thread)) + bit < INDICES
  {
    hide Message;
    PacketNumber(ppm, Message(slots, i, thread), o);
  }

  // ---------- every packet has its own index ----------

  datatype Packet = Packet(thread: nat, slot: nat, place: nat, bit: nat)

  predicate IsPacket(cores: nat, slots: nat, ppm: nat, p: Packet) {
    p.thread < cores && p.slot < slots && p.place < ppm && p.bit < 2
  }

  function PoolIndex(slots: nat, ppm: nat, p: Packet): nat {
    IndexOf(Rkey(slots, ppm, p.thread, p.slot, p.bit), p.place)
  }

  ghost predicate AllDistinct(cores: nat, slots: nat, ppm: nat) {
    forall p, p' | IsPacket(cores, slots, ppm, p) && IsPacket(cores, slots, ppm, p') &&
                   PoolIndex(slots, ppm, p) == PoolIndex(slots, ppm, p') :: p == p'
  }

  function PacketsOf(cores: nat, slots: nat, ppm: nat): nat {
    Message(ppm, 0, Message(slots, 0, cores))
  }

  lemma SamePlace(slots: nat, i: nat, n: nat, i': nat, n': nat)
    requires i < slots && i' < slots && Message(slots, i, n) == Message(slots, i', n')
    ensures i == i' && n == n'
  {
    if n < n' {
      Apart(slots, i, n, i', n');
    } else if n' < n {
      Apart(slots, i', n', i, n);
    }
  }

  lemma Fewer(slots: nat, i: nat, n: nat, n': nat)
    requires i < slots && n < n'
    ensures Message(slots, 0, n + 1) <= Message(slots, 0, n') && Message(slots, i, n) < Message(slots, 0, n')
  {
    Monotone(n + 1, n', slots);
    MessageNext(slots, 0, n);
  }

  lemma PacketInPool(cores: nat, slots: nat, ppm: nat, p: Packet)
    requires IsPacket(cores, slots, ppm, p) && PacketsOf(cores, slots, ppm) <= PACKETS
    ensures InPool(slots, ppm, p.thread, p.slot)
  {
    hide Message;
    var q := Message(slots, p.slot, p.thread);
    Fewer(slots, p.slot, p.thread, cores);
    Fewer(ppm, p.place, q, Message(slots, 0, cores));
  }

  lemma DistinctInPool(cores: nat, slots: nat, ppm: nat, p: Packet, p': Packet)
    requires IsPacket(cores, slots, ppm, p) && IsPacket(cores, slots, ppm, p')
    requires InPool(slots, ppm, p.thread, p.slot) && InPool(slots, ppm, p'.thread, p'.slot)
    requires PoolIndex(slots, ppm, p) == PoolIndex(slots, ppm, p')
    ensures p == p'
  {
    hide Message, Rkey, IndexOf;
    IndexInPool(slots, ppm, p.thread, p.slot, p.place, p.bit);
    IndexInPool(slots, ppm, p'.thread, p'.slot, p'.place, p'.bit);
    SamePlace(ppm, p.place, Message(slots, p.slot, p.thread), p'.place, Message(slots, p'.slot, p'.thread));
    SamePlace(slots, p.slot, p.thread, p'.slot, p'.thread);
  }

  lemma Quotient(slots: nat, k: nat, n: nat)
    requires 0 < slots && k < Message(slots, 0, n)
    ensures k / slots < n
  {
    assert k == slots * (k / slots) + k % slots;
    if n <= k / slots {
      Monotone(n, k / slots, slots);
    }
  }

  /** The packet of a number, in the given set. */
  lemma PacketOf(cores: nat, slots: nat, ppm: nat, number: nat, bit: nat) returns (p: Packet)
    requires number < PacketsOf(cores, slots, ppm) && bit < 2
    ensures IsPacket(cores, slots, ppm, p) && p.bit == bit
    ensures Rkey(slots, ppm, p.thread, p.slot, bit) + 2 * p.place == 2 * number + bit
  {
    assert 0 < ppm && 0 < slots;
    hide Message;
    var q := number / ppm;
    Quotient(ppm, number, Message(slots, 0, cores));
    Quotient(slots, q, cores);
    p := Packet(q / slots, q % slots, number % ppm, bit);
    Place(slots, q);
    Place(ppm, number);
    PacketNumber(ppm, q, p.place);
  }

  /** If there is a packet with number 2^14, it has the index of packet 0. */
  lemma Collides(cores: nat, slots: nat, ppm: nat) returns (p: Packet, p0: Packet)
    requires PACKETS < PacketsOf(cores, slots, ppm)
    ensures IsPacket(cores, slots, ppm, p) && IsPacket(cores, slots, ppm, p0) && p != p0
    ensures PoolIndex(slots, ppm, p) == PoolIndex(slots, ppm, p0)
  {
    hide PacketsOf, Rkey;
    p := PacketOf(cores, slots, ppm, PACKETS, 0);
    p0 := PacketOf(cores, slots, ppm, 0, 0);
  }

  lemma PacketsAre(cores: nat, slots: nat, ppm: nat)
    ensures PacketsOf(cores, slots, ppm) == cores * slots * ppm
  {
  }

  lemma UniqueByNumber(cores: nat, slots: nat, ppm: nat)
    ensures AllDistinct(cores, slots, ppm) <==> PacketsOf(cores, slots, ppm) <= PACKETS
  {
    hide PacketsOf, PoolIndex, InPool;
    if PacketsOf(cores, slots, ppm) <= PACKETS {
      forall p, p' | IsPacket(cores, slots, ppm, p) && IsPacket(cores, slots, ppm, p') &&
                     PoolIndex(slots, ppm, p) == PoolIndex(slots, ppm, p')
        ensures p == p'
      {
        PacketInPool(cores, slots, ppm, p);
        PacketInPool(cores, slots, ppm, p');
        DistinctInPool(cores, slots, ppm, p, p');
      }
    } else {
      var p, p0 := Collides(cores, slots, ppm);
    }
  }

  /** No two packets share a pool index, exactly if 14 bits are enough to number them. */
  lemma UniqueIff(cores: nat, slots: nat, ppm: nat)
    ensures AllDistinct(cores, slots, ppm) <==> cores * slots * ppm <= PACKETS
  {
    hide AllDistinct, PacketsOf;
    UniqueByNumber(cores, slots, ppm);
    PacketsAre(cores, slots, ppm);
  }

  /** Every packet has a register of its own, if the registers have `size` entries, for both sets together. */
  ghost predicate HasRegisters(cores: nat, slots: nat, ppm: nat, size: nat) {
    && AllDistinct(cores, slots, ppm)
    && forall p | IsPacket(cores, slots, ppm, p) :: PoolIndex(slots, ppm, p) < size
  }

  lemma RegistersByNumber(cores: nat, slots: nat, ppm: nat, size: nat)
    requires size <= INDICES
    ensures HasRegisters(cores, slots, ppm, size) <==> 2 * PacketsOf(cores, slots, ppm) <= size
  {
    hide PacketsOf, AllDistinct, PoolIndex, InPool;
    var packets := PacketsOf(cores, slots, ppm);
    UniqueByNumber(cores, slots, ppm);
    if 2 * packets <= size {
      forall p | IsPacket(cores, slots, ppm, p)
        ensures PoolIndex(slots, ppm, p) < size
      {
        PacketInPool(cores, slots, ppm, p);
        IndexBelow(cores, slots, ppm, p);
      }
    } else if packets <= PACKETS {
      var p := LastIndex(cores, slots, ppm);
    }
  }

  /** The last packet has the greatest index. */
  lemma LastIndex(cores: nat, slots: nat, ppm: nat) returns (p: Packet)
    requires 0 < PacketsOf(cores, slots, ppm) <= PACKETS
    ensures IsPacket(cores, slots, ppm, p) && PoolIndex(slots, ppm, p) == 2 * PacketsOf(cores, slots, ppm) - 1
  {
    hide PacketsOf, Rkey;
    p := PacketOf(cores, slots, ppm, PacketsOf(cores, slots, ppm) - 1, 1);
  }

  /** That is, exactly if there are two entries for each packet. */
  lemma HasRegistersIff(cores: nat, slots: nat, ppm: nat, size: nat)
    requires size <= INDICES
    ensures HasRegisters(cores, slots, ppm, size) <==> 2 * (cores * slots * ppm) <= size
  {
    hide HasRegisters, PacketsOf;
    RegistersByNumber(cores, slots, ppm, size);
    PacketsAre(cores, slots, ppm);
  }

  lemma IndexBelow(cores: nat, slots: nat, ppm: nat, p: Packet)
    requires IsPacket(cores, slots, ppm, p) && InPool(slots, ppm, p.thread, p.slot)
    ensures PoolIndex(slots, ppm, p) < 2 * PacketsOf(cores, slots, ppm)
  {
    hide Message;
    var q := Message(slots, p.slot, p.thread);
    IndexInPool(slots, ppm, p.thread, p.slot, p.place, p.bit);
    Fewer(slots, p.slot, p.thread, cores);
    Fewer(ppm, p.place, q, Message(slots, 0, cores));
  }

  // ---------- the client's mask ----------

  const WORD: nat := 0x1_0000_0000

  /** All but the bits below the number of packets, shifted by one in 32 bits; or-ing 1 to an even number adds it. */
  function MessageMask(ppm: nat): nat
    requires 0 < ppm <= WORD
  {
    (2 * (WORD - 1 - (ppm - 1))) % WORD + 1
  }

  lemma Pow2s()
    ensures Pow2(1) == 2 && Pow2(14) == PACKETS && Pow2(15) == INDICES && Pow2(31) == 0x8000_0000
  {
    assert Pow2(5) == 32 && Pow2(10) == 1024;
    assert Pow2(20) == 0x10_0000 && Pow2(25) == 0x200_0000 && Pow2(30) == 0x4000_0000;
  }

  lemma MaskParts(ppm: nat)
    requires 0 < ppm <= PACKETS
    ensures MessageMask(ppm) == 2 * (0x8000_0000 - ppm) + 1
  {
  }

  /** A message has no more packets than the pool. */
  lemma LengthInPool(slots: nat, ppm: nat, thread: nat, i: nat)
    requires InPool(slots, ppm, thread, i)
    ensures ppm <= PACKETS
  {
    MessageNext(ppm, 0, Message(slots, i, thread));
  }

  /**
   * Messages start at multiples of their length, and an index holds the packet's place in the message between the start
   * and the set bit, where the mask for the first and last packets finds it.
   */
  lemma PacketIndex(slots: nat, k: nat, thread: nat, i: nat, o: nat, bit: nat)
    requires InPool(slots, Pow2(k), thread, i) && o < Pow2(k) && bit < 2
    ensures And(Message(Pow2(k), 0, Message(slots, i, thread)), Pow2(k) - 1) == 0
    ensures And(IndexOf(Rkey(slots, Pow2(k), thread, i, bit), o), 2 * (Pow2(k) - 1)) == 2 * o
  {
    hide Message, And, Rkey, IndexOf, InPool;
    var ppm, q := Pow2(k), Message(slots, i, thread);
    PacketNumber(ppm, q, o);
    LowMask(Message(ppm, 0, q), k);
    LowMask(Message(ppm, o, q), k);
    IndexInPool(slots, ppm, thread, i, o, bit);
    AndParts(Message(ppm, o, q), bit, ppm - 1, 0);
  }

  lemma SmallModulo(x: nat, m: nat)
    requires x < m
    ensures x % m == x
  {
  }

  /** Whichever packet of the message a reply is for, the mask gives back the rkey the message was sent with. */
  lemma MaskGivesRkey(slots: nat, k: nat, thread: nat, i: nat, o: nat, bit: nat)
    requires InPool(slots, Pow2(k), thread, i) && o < Pow2(k) && bit < 2
    ensures Pow2(k) <= PACKETS
    ensures And(IndexOf(Rkey(slots, Pow2(k), thread, i, bit), o), MessageMask(Pow2(k))) ==
            Rkey(slots, Pow2(k), thread, i, bit)
  {
    var ppm, q := Pow2(k), Message(slots, i, thread);
    LengthInPool(slots, ppm, thread, i);
    hide Message, And, IndexOf, InPool, MessageMask, Pow2;
    IndexInPool(slots, ppm, thread, i, o, bit);
    PacketNumber(ppm, q, o);
    ClearPlace(Message(ppm, o, q), k, bit);
  }

  lemma ClearPlace(y: nat, k: nat, bit: nat)
    requires y < PACKETS && Pow2(k) <= PACKETS && bit < 2
    ensures And(2 * y + bit, MessageMask(Pow2(k))) == 2 * (y - y % Pow2(k)) + bit
  {
    hide And, MessageMask, Pow2;
    MaskParts(Pow2(k));
    Pow2s();
    LogBelow(k, 31);
    HighMask(y, 31, k);
    SmallModulo(y, 0x8000_0000);
    AndParts(y, bit, 0x8000_0000 - Pow2(k), 1);
  }

  lemma {:induction false} LogBelow(k: nat, n: nat)
    requires Pow2(k) <= Pow2(n)
    ensures k <= n
  {
    if n < k {
      Pow2Monotone(n + 1, k);
    }
  }

  /**
   * For other message lengths it does not: the message that starts at packet number ppm itself gets its own rkey
   * back, as its first packet's index, exactly when ppm is a power of two.
   */
  lemma MaskNeedsPowerOfTwo(ppm: nat)
    requires 0 < ppm < PACKETS
    ensures And(2 * ppm, MessageMask(ppm)) == 2 * ppm <==> IsPowerOfTwo(ppm)
  {
    hide And, IsPowerOfTwo, Pow2;
    MaskParts(ppm);
    AndParts(ppm, 0, 0x8000_0000 - ppm, 1);
    Pow2s();
    NegativeMask(ppm, 31);
  }

  ghost predicate MaskFindsMessages(slots: nat, ppm: nat)
    requires 0 < ppm <= WORD
  {
    forall thread: nat, i: nat, o: nat, bit: nat | InPool(slots, ppm, thread, i) && o < ppm && bit < 2 ::
      And(IndexOf(Rkey(slots, ppm, thread, i, bit), o), MessageMask(ppm)) == Rkey(slots, ppm, thread, i, bit)
  }

  /** The mask gives back every rkey exactly for the powers of two, if the pool has room for a second message at all. */
  lemma MaskIffPowerOfTwo(slots: nat, ppm: nat)
    requires 0 < slots && 0 < ppm && 2 * ppm <= PACKETS
    ensures MaskFindsMessages(slots, ppm) <==> IsPowerOfTwo(ppm)
  {
    hide And, MessageMask, IsPowerOfTwo, Pow2;
    MaskNeedsPowerOfTwo(ppm);
    if IsPowerOfTwo(ppm) {
      hide InPool, IndexOf, Rkey;
      var k := Log2(ppm);
      forall thread: nat, i: nat, o: nat, bit: nat | InPool(slots, ppm, thread, i) && o < ppm && bit < 2
        ensures And(IndexOf(Rkey(slots, ppm, thread, i, bit), o), MessageMask(ppm)) == Rkey(slots, ppm, thread, i, bit)
      {
        MaskGivesRkey(slots, k, thread, i, o, bit);
      }
    } else {
      var thread, i := SecondMessage(slots, ppm);
      assert And(IndexOf(Rkey(slots, ppm, thread, i, 0), 0), MessageMask(ppm)) != Rkey(slots, ppm, thread, i, 0);
    }
  }

  lemma SecondMessage(slots: nat, ppm: nat) returns (thread: nat, i: nat)
    requires 0 < slots && 0 < ppm && 2 * ppm <= PACKETS
    ensures InPool(slots, ppm, thread, i) && Rkey(slots, ppm, thread, i, 0) == 2 * ppm == IndexOf(2 * ppm, 0)
  {
    thread, i := 1 / slots, 1 % slots;
    Place(slots, 1);
  }

  // ---------- replies ----------

  /** The immediate of a reply: the 15-bit pool index above the two exponents. */
  function Immediate(index: nat, e1: nat, e0: nat): nat {
    0x1_0000 * index + 0x100 * e1 + e0
  }

  function IndexOfImmediate(immediate: nat): nat {
    And(immediate / 0x1_0000, 0x7fff)
  }

  /** The parts of an immediate can be read back: the first exponent from the lowest byte, the second from the next. */
  lemma ImmediateCarriesIndex(index: nat, e1: nat, e0: nat)
    requires index < INDICES && e1 <= 0xff && e0 <= 0xff
    ensures var immediate := Immediate(index, e1, e0);
            && immediate % 0x100 == e0 && immediate / 0x100 % 0x100 == e1 && immediate / 0x1_0000 == index
            && immediate < 0x8000_0000 && IndexOfImmediate(immediate) == index
  {
    hide And, Pow2;
    Pow2s();
    LowMask(index, 15);
  }

  /** The slot's rkey as the client works it out from any packet's reply. */
  function BaseIndex(immediate: nat, ppm: nat): nat
    requires 0 < ppm <= WORD
  {
    And(IndexOfImmediate(immediate), MessageMask(ppm))
  }

  /**
   * From the rkey to the packet's pool index in the switch, to the immediate of its reply and back: the client
   * recognises the reply to any packet of its outstanding message, and finds both exponents in it.
   */
  lemma ReplyRoundTrip(slots: nat, k: nat, thread: nat, i: nat, o: nat, bit: nat, e1: nat, e0: nat)
    requires InPool(slots, Pow2(k), thread, i) && o < Pow2(k) && bit < 2 && e1 <= 0xff && e0 <= 0xff
    ensures Pow2(k) <= PACKETS
    ensures var immediate := Immediate(IndexOf(Rkey(slots, Pow2(k), thread, i, bit), o), e1, e0);
            && BaseIndex(immediate, Pow2(k)) == Rkey(slots, Pow2(k), thread, i, bit)
            && immediate % 0x100 == e0 && immediate / 0x100 % 0x100 == e1 && immediate < 0x8000_0000
  {
    hide MessageMask, Immediate, IndexOfImmediate, And, InPool, Message, Pow2;
    ImmediateCarriesIndex(IndexOf(Rkey(slots, Pow2(k), thread, i, bit), o), e1, e0);
    MaskGivesRkey(slots, k, thread, i, o, bit);
  }

  lemma RkeyIsUnique(slots: nat, ppm: nat, thread: nat, i: nat, bit: nat, thread': nat, i': nat, bit': nat)
    requires 0 < ppm && i < slots && i' < slots && bit < 2 && bit' < 2
    ensures Rkey(slots, ppm, thread, i, bit) == Rkey(slots, ppm, thread', i', bit') <==>
            thread == thread' && i == i' && bit == bit'
  {
    hide Message;
    if Rkey(slots, ppm, thread, i, bit) == Rkey(slots, ppm, thread', i', bit') {
      SamePlace(ppm, 0, Message(slots, i, thread), 0, Message(slots, i', thread'));
      SamePlace(slots, i, thread, i', thread');
    }
  }

  /** It takes the reply for a message of its own slot and set, and for no other. */
  lemma RecognisedIff(slots: nat, k: nat, p: Packet, e1: nat, e0: nat, thread: nat, i: nat, bit: nat)
    requires InPool(slots, Pow2(k), p.thread, p.slot) && p.place < Pow2(k) && p.bit < 2 && e1 <= 0xff && e0 <= 0xff
    requires i < slots && bit < 2
    ensures Pow2(k) <= PACKETS
    ensures BaseIndex(Immediate(PoolIndex(slots, Pow2(k), p), e1, e0), Pow2(k)) ==
            Rkey(slots, Pow2(k), thread, i, bit) <==>
            thread == p.thread && i == p.slot && bit == p.bit
  {
    hide Immediate, BaseIndex, Rkey, Pow2;
    ReplyRoundTrip(slots, k, p.thread, p.slot, p.place, p.bit, e1, e0);
    RkeyIsUnique(slots, Pow2(k), p.thread, p.slot, p.bit, thread, i, bit);
  }

  // ---------- the queue pair of a reply ----------

  /** The table entries that the control plane adds match on these bits of a pool index. */
  function EntryMask(ppm: nat): nat
    requires 0 < ppm
  {
    And(0x7ffe, INDICES - 1 - (2 * (ppm - 1)) % INDICES)
  }

  /** The key of the entry of queue pair q: its number, shifted by the number of packet bits and the set bit. */
  function EntryKey(k: nat, q: nat): nat {
    q * Pow2(k + 1)
  }

  predicate EntryMatches(index: nat, k: nat, q: nat) {
    And(index, EntryMask(Pow2(k))) == And(EntryKey(k, q), EntryMask(Pow2(k)))
  }

  lemma EntryMaskIs(k: nat)
    requires Pow2(k) <= PACKETS
    ensures Pow2(k + 1) <= INDICES && EntryMask(Pow2(k)) == INDICES - Pow2(k + 1)
  {
    hide And, Pow2;
    var p := Pow2(k);
    Double(k);
    var x := INDICES - 1 - 2 * (p - 1);
    Pow2s();
    AndCommutes(0x7ffe, x);
    HighMask(x, 15, 1);
  }

  /** The entry's key is the rkey of the queue pair's slot in the first set. */
  lemma KeyIsRkey(slots: nat, k: nat, thread: nat, i: nat)
    ensures EntryKey(k, Message(slots, i, thread)) == Rkey(slots, Pow2(k), thread, i, 0)
  {
    var q, p := Message(slots, i, thread), Pow2(k);
    assert q * (2 * p) == 2 * (q * p);
  }

  /** The entry's bits of a packet's index are the rkey of the first set. */
  lemma EntryBits(slots: nat, k: nat, thread: nat, i: nat, o: nat, bit: nat)
    requires InPool(slots, Pow2(k), thread, i) && o < Pow2(k) && bit < 2
    ensures And(IndexOf(Rkey(slots, Pow2(k), thread, i, bit), o), EntryMask(Pow2(k))) ==
            Rkey(slots, Pow2(k), thread, i, 0)
  {
    var ppm, q := Pow2(k), Message(slots, i, thread);
    LengthInPool(slots, ppm, thread, i);
    hide Message, And, IndexOf, InPool, EntryMask, Pow2;
    IndexInPool(slots, ppm, thread, i, o, bit);
    PacketNumber(ppm, q, o);
    ClearPlaceAndSet(Message(ppm, o, q), k, bit);
  }

  lemma ClearPlaceAndSet(y: nat, k: nat, bit: nat)
    requires y < PACKETS && Pow2(k) <= PACKETS && bit < 2
    ensures And(2 * y + bit, EntryMask(Pow2(k))) == 2 * (y - y % Pow2(k))
  {
    hide And, EntryMask, Pow2;
    Double(k);
    EntryMaskIs(k);
    Pow2s();
    LogBelow(k + 1, 15);
    HighMask(2 * y + bit, 15, k + 1);
    SmallModulo(2 * y + bit, INDICES);
    RestHalf(2 * y + bit, Pow2(k));
  }

  /** A packet's reply matches the entry of its own queue pair, for either set, and no other queue pair's. */
  lemma EntryOfOwnSlot(slots: nat, k: nat, p: Packet, thread: nat, i: nat)
    requires InPool(slots, Pow2(k), p.thread, p.slot) && p.place < Pow2(k) && p.bit < 2
    requires InPool(slots, Pow2(k), thread, i)
    ensures EntryMatches(PoolIndex(slots, Pow2(k), p), k, Message(slots, i, thread)) <==>
            thread == p.thread && i == p.slot
  {
    var ppm := Pow2(k);
    EntryBits(slots, k, p.thread, p.slot, p.place, p.bit);
    KeyIsRkey(slots, k, thread, i);
    hide And, EntryMask, Rkey, Message, EntryKey, Pow2;
    EntryBits(slots, k, thread, i, 0, 0);
    RkeyIsUnique(slots, ppm, p.thread, p.slot, 0, thread, i, 0);
    RkeyIsIndex(slots, ppm, thread, i);
  }

  lemma RkeyIsIndex(slots: nat, ppm: nat, thread: nat, i: nat)
    requires InPool(slots, ppm, thread, i) && 0 < ppm
    ensures IndexOf(Rkey(slots, ppm, thread, i, 0), 0) == Rkey(slots, ppm, thread, i, 0)
  {
    IndexInPool(slots, ppm, thread, i, 0, 0);
  }
}
