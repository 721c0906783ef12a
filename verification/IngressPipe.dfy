/**
 * The registers of one ingress pipe, indexed by slot or by pool index, and the controls that update them in the
 * order of the ingress block. A pass refines the passes of SwitchPass on the slot it addresses, and leaves every
 * other slot alone.
 */
module IngressPipes {
  import opened Words
  import opened Jobs
  import opened SwitchTables
  import opened SwitchPass
  import opened Bitmaps

  class IngressPipe {
    const slots: nat
    // worker_bitmap: a pair per slot
    const bitmap0: array<bv32>
    const bitmap1: array<bv32>
    // worker_count, significands and exponents: one entry, or pair, per pool index
    const counts: array<Byte>
    const sums0: array<Slice>
    const sums1: array<Slice>
    const exponents0: array<Byte>
    const exponents1: array<Byte>

    ghost predicate Valid() {
      && bitmap0.Length == bitmap1.Length == slots
      && counts.Length == sums0.Length == sums1.Length == exponents0.Length == exponents1.Length == 2 * slots
      && bitmap0 != bitmap1 && sums0 != sums1
      && counts != exponents0 && counts != exponents1 && exponents0 != exponents1
    }

    /** A slot as the model of a single slot sees it. */
    ghost function Slot(slot: nat): Registers
      requires Valid() && slot < slots
      reads bitmap0, bitmap1, counts, sums0, sums1, exponents0, exponents1
    {
      var i := 2 * slot;
      Registers(SetRegisters(Bits(bitmap0[slot]), counts[i], sums0[i], sums1[i], exponents0[i], exponents1[i]),
                SetRegisters(Bits(bitmap1[slot]), counts[i + 1], sums0[i + 1], sums1[i + 1],
                             exponents0[i + 1], exponents1[i + 1]))
    }

    constructor (slots: nat)
      ensures Valid() && this.slots == slots
      ensures fresh(bitmap0) && fresh(bitmap1) && fresh(counts) && fresh(sums0) && fresh(sums1)
      ensures fresh(exponents0) && fresh(exponents1)
      ensures forall slot | 0 <= slot < slots ::
                && Slot(slot).even.members == Slot(slot).odd.members == {}
                && Slot(slot).even.count == Slot(slot).odd.count == 0
    {
      this.slots := slots;
      bitmap0 := new bv32[slots](_ => 0);
      bitmap1 := new bv32[slots](_ => 0);
      counts := new Byte[2 * slots](_ => 0);
      sums0 := new Slice[2 * slots](_ => ZeroSlice());
      sums1 := new Slice[2 * slots](_ => ZeroSlice());
      exponents0 := new Byte[2 * slots](_ => 0);
      exponents1 := new Byte[2 * slots](_ => 0);
      new;
      EmptyBitmap(0);
    }

    /** Record that the worker has contributed to this set, and may contribute to the other one again. */
    method UpdateAndCheckWorkerBitmap(slot: nat, bit: Bit, worker: nat) returns (before: bv32, mapResult: bv32)
      requires Valid() && slot < slots && worker < 32
      modifies bitmap0, bitmap1
      ensures before == 0 <==> IsUntouched(old(Slot(slot)).At(bit))
      ensures mapResult != 0 <==> worker in old(Slot(slot)).At(bit).members
      ensures Slot(slot) == Receive(old(Slot(slot)), bit, worker)
      ensures forall i | 0 <= i < slots && i != slot :: Slot(i) == old(Slot(i))
    {
      hide Mask, And, Or, Without, Bits;
      var mask := Mask(worker);
      BitOfWorker(bitmap0[slot], worker);
      BitOfWorker(bitmap1[slot], worker);
      if bit == 0 {
        before := bitmap0[slot];
        bitmap0[slot] := Or(bitmap0[slot], mask);
        bitmap1[slot] := Without(bitmap1[slot], mask);
      } else {
        before := bitmap1[slot];
        bitmap0[slot] := Without(bitmap0[slot], mask);
        bitmap1[slot] := Or(bitmap1[slot], mask);
      }
      mapResult := And(before, mask);
      EmptyBitmap(before);
      InBitmap(before, worker);
    }

    /** Count down the workers that are missing; a retransmission only reads. */
    method CountWorkers(slot: nat, bit: Bit, workers: nat, mapResult: bv32) returns (flag: nat)
      requires Valid() && slot < slots && workers < 256
      modifies counts
      ensures flag == CountFlag(old(Slot(slot)).At(bit).count, workers, mapResult != 0)
      ensures var v := old(Slot(slot)).At(bit);
              Slot(slot) == old(Slot(slot)).With(bit, v.(count := CountAfter(v.count, workers, mapResult != 0)))
      ensures forall i | 0 <= i < slots && i != slot :: Slot(i) == old(Slot(i))
    {
      hide Bits;
      var index := 2 * slot + bit;
      flag := counts[index];
      if mapResult == 0 {
        counts[index] := if counts[index] == 0 then (workers + 255) % 256 else counts[index] - 1;
      }
      if workers == 1 {
        flag := if mapResult == 0 then 1 else 0;
      }
    }

    /** Only CONSUME0 touches the exponents. */
    method ConsumeExponents(slot: nat, bit: Bit, before: bv32, mapResult: bv32, t: PacketType, e0: Byte, e1: Byte)
      returns (max0: Byte)
      requires Valid() && slot < slots
      modifies exponents0, exponents1
      ensures Slot(slot) ==
              var s := old(Slot(slot));
              s.With(bit, WithExponents(s.At(bit), before == 0, mapResult != 0, t, e0, e1))
      ensures max0 == if t == CONSUME0 then Slot(slot).At(bit).e0 else e0
      ensures forall i | 0 <= i < slots && i != slot :: Slot(i) == old(Slot(i))
    {
      hide Bits;
      var index := 2 * slot + bit;
      max0 := e0;
      if t == CONSUME0 {
        if before == 0 {
          exponents0[index], exponents1[index] := e0, e1;
        } else if mapResult == 0 {
          exponents0[index], exponents1[index] := Max(exponents0[index], e0), Max(exponents1[index], e1);
        }
        max0 := exponents0[index];
      }
    }

    /** Write, sum or only read; a new contribution reads back the second sum, a retransmission the first. */
    method ConsumeSignificands(slot: nat, bit: Bit, before: bv32, mapResult: bv32, d0: Slice, d1: Slice)
      returns (out0: Slice, out1: Slice)
      requires Valid() && slot < slots
      modifies sums0, sums1
      ensures Slot(slot) ==
              var s := old(Slot(slot));
              s.With(bit, WithSums(s.At(bit), before == 0, mapResult != 0, d0, d1))
      ensures out0 == if before != 0 && mapResult != 0 then Slot(slot).At(bit).d0 else d0
      ensures out1 == if before == 0 || mapResult == 0 then Slot(slot).At(bit).d1 else d1
      ensures forall i | 0 <= i < slots && i != slot :: Slot(i) == old(Slot(i))
    {
      hide Bits;
      var index := 2 * slot + bit;
      out0, out1 := d0, d1;
      if before == 0 {
        sums0[index], sums1[index] := d0, d1;
        out1 := sums1[index];
      } else if mapResult == 0 {
        sums0[index], sums1[index] := AddSlices(sums0[index], d0), AddSlices(sums1[index], d1);
        out1 := sums1[index];
      } else {
        out0 := sums0[index];
      }
    }

    /** A consume pass: the controls in the order of the ingress block. */
    method Consume(slot: nat, p: Packet) returns (dup: bool, flag: nat, outcome: Outcome)
      requires Valid() && slot < slots && p.md.worker < 32 && p.md.workers < 256
      modifies bitmap0, bitmap1, counts, sums0, sums1, exponents0, exponents1
      ensures var pass := ConsumePass(old(Slot(slot)), p);
              Slot(slot) == pass.regs && dup == pass.dup && flag == pass.flag && outcome == pass.outcome
      ensures forall i | 0 <= i < slots && i != slot :: Slot(i) == old(Slot(i))
    {
      hide NextStep, Perform, Stick, AddSlices, Max, Slot;
      if |p.payload| < 2 {
        return false, 255, Dropped;
      }
      var md, bit := p.md, p.md.setBit;
      var before, mapResult := UpdateAndCheckWorkerBitmap(slot, bit, md.worker);
      flag := CountWorkers(slot, bit, md.workers, mapResult);
      var e0 := ConsumeExponents(slot, bit, before, mapResult, md.packetType, md.e0, md.e1);
      var d0, d1 := ConsumeSignificands(slot, bit, before, mapResult, p.payload[0], p.payload[1]);
      dup := mapResult != 0;
      var a := NextStep(md.size, md.worker, md.packetType, flag, dup, md.workerType, p.port);
      outcome := Perform(a, Stick(md.(e0 := e0), flag, dup), d0, d1, p.payload[2..]);
    }

    /** A harvest pass only reads. */
    method Harvest(slot: nat, p: Packet) returns (outcome: Outcome)
      requires Valid() && slot < slots
      ensures outcome == HarvestPass(Slot(slot), p).outcome
    {
      var md, index := p.md, 2 * slot + p.md.setBit;
      var flag := RebuiltFlag(md);
      var d0, d1 := ZeroSlice(), ZeroSlice();
      if HarvestHalf(md.packetType) == D0 {
        d0 := sums0[index];
      } else {
        d1 := sums1[index];
      }
      var a := NextStep(md.size, md.worker, md.packetType, flag, md.dupFlag, md.workerType, p.port);
      if md.packetType == HARVEST7 {
        md := md.(e1 := exponents1[index]);
      }
      outcome := Perform(a, Stick(md, flag, md.dupFlag), d0, d1, p.payload);
    }
  }

  /** map_result is nonzero exactly when the worker was in the set before. */
  lemma InBitmap(before: bv32, w: nat)
    requires w < 32
    ensures And(before, Mask(w)) != 0 <==> w in Bits(before)
  {
    hide And, Mask;
  }
}
