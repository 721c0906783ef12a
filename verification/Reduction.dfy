/**
 * The main thread and the worker threads of a client, synchronised by one barrier that is used twice per reduction:
 * to start the workers and to wait for them. Thread 0 is the main thread. It performs a given number of reductions
 * and then shuts the workers down.
 */
module Reductions {
  import opened Barriers

  /** A thread runs its own code, or is blocked in the barrier with its copy of the flag. */
  datatype Pc = Running | Blocked(flagCopy: bool, notified: bool)

  /**
   * `entered[t]` and `left[t]` count thread t's calls and returns of wait(), `flips` the flips of the flag.
   * `posted` counts the main thread's announcements: reductions, and finally the shutdown. `input` is the reduction
   * whose parameters the main thread has stored last, and `used[t]` the parameters worker t has used so far.
   */
  datatype State = State(barrier: Shared, flips: nat, pc: seq<Pc>, entered: seq<nat>, left: seq<nat>,
                         posted: nat, input: int, shutdown: bool, used: seq<seq<int>>, exited: seq<bool>)

  datatype Event =
    | Announce        // the main thread stores the parameters of the next reduction, or the shutdown flag
    | Compute(t: nat) // a worker that has been started exits, or performs the reduction
    | Enter(t: nat)   // a thread arrives at the barrier
    | Wake(t: nat)    // a blocked thread is woken, possibly for no reason, and checks the flag

  predicate Shape(n: nat, s: State) {
    1 <= n && |s.pc| == |s.entered| == |s.left| == |s.used| == |s.exited| == n
  }

  function Zeros(n: nat): (z: seq<nat>)
    ensures |z| == n && forall t | 0 <= t < n :: z[t] == 0
  {
    seq(n, _ => 0)
  }

  function Init(n: nat): State {
    State(Shared(n, false), 0, seq(n, _ => Running), Zeros(n), Zeros(n), 0, -1, false, seq(n, _ => []),
          seq(n, _ => false))
  }

  /** Between the start and the finish barrier a worker computes. */
  predicate InReduction(s: State, t: nat)
    requires t < |s.pc| == |s.left|
  {
    s.pc[t] == Running && Odd(s.left[t])
  }

  /** The worker has not done yet what it was started for. */
  predicate MustCompute(s: State, t: nat)
    requires t < |s.pc| && |s.pc| == |s.left| == |s.used| == |s.exited|
  {
    t != 0 && InReduction(s, t) && !s.exited[t] && |s.used[t]| == s.left[t] / 2
  }

  predicate MustAnnounce(s: State)
    requires 0 < |s.pc| == |s.left|
  {
    s.pc[0] == Running && !Odd(s.left[0]) && s.posted == s.left[0] / 2
  }

  predicate Enabled(n: nat, s: State, ev: Event)
    requires Shape(n, s)
  {
    match ev
    case Announce => MustAnnounce(s)
    case Compute(t) => t < n && MustCompute(s, t)
    case Enter(t) =>
      && t < n && s.pc[t] == Running && !s.exited[t]
      && (if t == 0 then !MustAnnounce(s) && !(s.shutdown && Odd(s.left[0])) else !MustCompute(s, t))
    case Wake(t) => t < n && s.pc[t].Blocked?
  }

  /** notify_all: every thread blocked at this moment will be woken. */
  function Notify(pc: seq<Pc>): (r: seq<Pc>)
    ensures |r| == |pc|
    ensures forall t | 0 <= t < |pc| :: r[t] == if pc[t].Blocked? then pc[t].(notified := true) else pc[t]
  {
    if pc == [] then [] else [if pc[0].Blocked? then pc[0].(notified := true) else pc[0]] + Notify(pc[1..])
  }

  function Next(n: nat, rounds: nat, s: State, ev: Event): State
    requires Shape(n, s) && Enabled(n, s, ev)
  {
    match ev
    case Announce =>
      if s.posted < rounds then s.(posted := s.posted + 1, input := s.input + 1)
      else s.(posted := s.posted + 1, shutdown := true)
    case Compute(t) =>
      if s.shutdown then s.(exited := s.exited[t := true])
      else s.(used := s.used[t := s.used[t] + [s.input]])
    case Enter(t) =>
      var s' := s.(barrier := Arrive(s.barrier, n), entered := s.entered[t := s.entered[t] + 1]);
      if IsLast(s.barrier) then s'.(pc := Notify(s.pc), left := s.left[t := s.left[t] + 1], flips := s.flips + 1)
      else s'.(pc := s.pc[t := Blocked(s.barrier.flag, false)])
    case Wake(t) =>
      if IsReleased(s.pc[t].flagCopy, s.barrier) then s.(pc := s.pc[t := Running], left := s.left[t := s.left[t] + 1])
      else s.(pc := s.pc[t := Blocked(s.pc[t].flagCopy, false)])
  }

  // ---------- the barrier ----------

  /** How many threads have entered the current round of the barrier. */
  function Arrived(entered: seq<nat>, flips: nat): nat {
    if entered == [] then 0 else
      Arrived(entered[..|entered| - 1], flips) + if entered[|entered| - 1] == flips + 1 then 1 else 0
  }

  lemma {:induction false} OneMoreArrived(entered: seq<nat>, flips: nat, t: nat)
    requires t < |entered| && entered[t] == flips
    ensures Arrived(entered[t := flips + 1], flips) == Arrived(entered, flips) + 1
  {
    var rest: seq<nat>, entered': seq<nat> := entered[..|entered| - 1], entered[t := flips + 1];
    if t == |entered| - 1 {
      assert entered'[..|entered| - 1] == rest;
    } else {
      OneMoreArrived(rest, flips, t);
      assert entered'[..|entered| - 1] == rest[t := flips + 1];
    }
  }

  lemma {:induction false} ArrivedBounds(entered: seq<nat>, flips: nat)
    requires forall t | 0 <= t < |entered| :: flips <= entered[t] <= flips + 1
    ensures Arrived(entered, flips) <= |entered|
    ensures Arrived(entered, flips) == |entered| <==> forall t | 0 <= t < |entered| :: entered[t] == flips + 1
    ensures Arrived(entered, flips + 1) == 0
  {
    if entered != [] {
      ArrivedBounds(entered[..|entered| - 1], flips);
    }
  }

  predicate Odd(x: nat) {
    x % 2 == 1
  }

  /** A thread is running and has left every round it entered, or is blocked in the last one. */
  predicate ThreadOk(pc: Pc, e: nat, l: nat, flips: nat) {
    && flips <= e <= flips + 1
    && if pc == Running then e == l == flips
       else e == l + 1 && pc.flagCopy == Odd(l) && (e == flips <==> pc.notified)
  }

  ghost predicate BarrierOk(n: nat, s: State) {
    && Shape(n, s)
    && s.barrier.flag == Odd(s.flips)
    && s.barrier.count == n - Arrived(s.entered, s.flips) && 1 <= s.barrier.count
    && forall t | 0 <= t < n :: ThreadOk(s.pc[t], s.entered[t], s.left[t], s.flips)
  }

  lemma NextIsOdd(x: nat)
    ensures Odd(x + 1) == !Odd(x)
  {
  }

  /** When the last thread arrives, everybody else is in the round already. */
  lemma EverybodyArrived(n: nat, s: State, t: nat)
    requires BarrierOk(n, s) && t < n && s.pc[t] == Running && IsLast(s.barrier)
    ensures forall u | 0 <= u < n && u != t :: s.entered[u] == s.flips + 1
    ensures Arrived(s.entered[t := s.flips + 1], s.flips + 1) == 0
  {
    hide Odd;
    var e: seq<nat> := s.entered[t := s.flips + 1];
    OneMoreArrived(s.entered, s.flips, t);
    ArrivedBounds(e, s.flips);
    assert forall u | 0 <= u < n && u != t :: e[u] == s.entered[u];
  }

  /** The last arrival releases everybody. */
  lemma FlipKeepsBarrier(n: nat, rounds: nat, s: State, t: nat)
    requires BarrierOk(n, s) && Enabled(n, s, Enter(t)) && IsLast(s.barrier)
    ensures BarrierOk(n, Next(n, rounds, s, Enter(t)))
  {
    hide Odd, Arrived, Notify, MustAnnounce, MustCompute;
    var s' := Next(n, rounds, s, Enter(t));
    EverybodyArrived(n, s, t);
    NextIsOdd(s.flips);
    forall u | 0 <= u < n
      ensures ThreadOk(s'.pc[u], s'.entered[u], s'.left[u], s'.flips)
    {
      assert ThreadOk(s.pc[u], s.entered[u], s.left[u], s.flips);
    }
  }

  /** An earlier arrival blocks. */
  lemma BlockKeepsBarrier(n: nat, rounds: nat, s: State, t: nat)
    requires BarrierOk(n, s) && Enabled(n, s, Enter(t)) && !IsLast(s.barrier)
    ensures BarrierOk(n, Next(n, rounds, s, Enter(t)))
  {
    hide Odd;
    OneMoreArrived(s.entered, s.flips, t);
  }

  lemma StepKeepsBarrier(n: nat, rounds: nat, s: State, ev: Event)
    requires BarrierOk(n, s) && Enabled(n, s, ev)
    ensures BarrierOk(n, Next(n, rounds, s, ev))
  {
    hide Odd, Arrived;
    match ev {
      case Enter(t) =>
        if IsLast(s.barrier) {
          FlipKeepsBarrier(n, rounds, s, t);
        } else {
          BlockKeepsBarrier(n, rounds, s, t);
        }
      case Wake(t) =>
        NextIsOdd(s.left[t]);
      case _ =>
    }
  }

  // ---------- the threads ----------

  function Half(x: nat): nat {
    x / 2
  }

  lemma NextHalf(x: nat)
    ensures Half(x + 1) == Half(x) + if Odd(x) then 1 else 0
    ensures x == 2 * Half(x) + if Odd(x) then 1 else 0
  {
  }

  /** The main thread: it has announced the reduction it is in. */
  ghost predicate MainOk(rounds: nat, s: State)
    requires 0 < |s.pc| == |s.left| == |s.exited| == |s.used|
  {
    var l := s.left[0];
    && Half(l) <= s.posted <= Half(l) + 1
    && (s.posted == Half(l) ==> s.pc[0] == Running && !Odd(l))
    && s.posted <= rounds + 1 && s.shutdown == (s.posted == rounds + 1)
    && s.input == (if s.posted <= rounds then s.posted - 1 else rounds - 1)
    && l <= 2 * rounds + 1 && !s.exited[0] && s.used[0] == []
    && (Odd(l) && s.shutdown ==> s.pc[0] == Running)
  }

  /** A worker has used the parameters of reductions 0, 1, 2, ... in this order, each once. */
  ghost predicate WorkerOk(rounds: nat, pc: Pc, l: nat, used: seq<int>, exited: bool, shutdown: bool) {
    && Half(l) <= |used| <= Half(l) + 1 && |used| <= rounds
    && (|used| == Half(l) + 1 ==> Odd(l)) && (pc.Blocked? && Odd(l) ==> |used| == Half(l) + 1)
    && (forall i | 0 <= i < |used| :: used[i] == i)
    && (exited ==> pc == Running && shutdown && l == 2 * rounds + 1 && |used| == rounds)
  }

  ghost predicate Inv(n: nat, rounds: nat, s: State) {
    && BarrierOk(n, s) && MainOk(rounds, s)
    && forall t | 1 <= t < n :: WorkerOk(rounds, s.pc[t], s.left[t], s.used[t], s.exited[t], s.shutdown)
  }

  lemma InitInv(n: nat, rounds: nat)
    requires 1 <= n
    ensures Inv(n, rounds, Init(n))
  {
    NoneArrived(Zeros(n), 0);
  }

  lemma {:induction false} NoneArrived(entered: seq<nat>, flips: nat)
    requires forall t | 0 <= t < |entered| :: entered[t] == flips
    ensures Arrived(entered, flips) == 0
  {
    if entered != [] {
      NoneArrived(entered[..|entered| - 1], flips);
    }
  }

  /** While a worker is between the two barriers, the main thread is in the same reduction. */
  lemma SameReduction(n: nat, rounds: nat, s: State, t: nat)
    requires Inv(n, rounds, s) && t < n && InReduction(s, t)
    ensures s.posted == Half(s.left[t]) + 1 && s.left[t] == s.flips && s.left[t] <= 2 * rounds + 1
    ensures !MustAnnounce(s)
  {
    hide Odd, Half, Arrived;
    assert ThreadOk(s.pc[0], s.entered[0], s.left[0], s.flips);
    assert ThreadOk(s.pc[t], s.entered[t], s.left[t], s.flips);
    NextHalf(s.left[0]);
    NextIsOdd(s.left[0]);
  }

  lemma ComputeInv(n: nat, rounds: nat, s: State, t: nat)
    requires Inv(n, rounds, s) && Enabled(n, s, Compute(t))
    ensures Inv(n, rounds, Next(n, rounds, s, Compute(t)))
  {
    hide Arrived, Odd;
    StepKeepsBarrier(n, rounds, s, Compute(t));
    SameReduction(n, rounds, s, t);
    NextHalf(s.left[t]);
    assert WorkerOk(rounds, s.pc[t], s.left[t], s.used[t], s.exited[t], s.shutdown);
  }

  lemma AnnounceInv(n: nat, rounds: nat, s: State)
    requires Inv(n, rounds, s) && Enabled(n, s, Announce)
    ensures Inv(n, rounds, Next(n, rounds, s, Announce))
  {
    hide Arrived, Odd;
    StepKeepsBarrier(n, rounds, s, Announce);
    NextHalf(s.left[0]);
  }

  /** The main thread never gets past the barrier of the shutdown. */
  lemma MainBound(n: nat, rounds: nat, s: State)
    requires Inv(n, rounds, s)
    ensures s.flips <= s.entered[0] <= 2 * rounds + 1
    ensures s.pc[0] == Running && s.shutdown && Odd(s.left[0]) <==> s.left[0] == 2 * rounds + 1
  {
    hide Odd, Half, Arrived;
    NextHalf(s.left[0]);
    NextIsOdd(2 * rounds);
    NextHalf(2 * rounds + 1);
  }

  /** Leaving one more round of the barrier. */
  lemma LeaveMain(rounds: nat, l: nat, posted: nat)
    requires Half(l) <= posted <= Half(l) + 1 && (posted == Half(l) + 1) && l <= 2 * rounds + 1 && posted <= rounds + 1
    requires !(Odd(l) && posted == rounds + 1)
    ensures Half(l + 1) <= posted <= Half(l + 1) + 1 && (posted == Half(l + 1) ==> !Odd(l + 1))
    ensures l + 1 <= 2 * rounds + 1
  {
  }

  lemma LeaveWorker(rounds: nat, pc: Pc, l: nat, used: seq<int>, exited: bool, shutdown: bool)
    requires WorkerOk(rounds, pc, l, used, exited, shutdown) && !exited
    requires Odd(l) ==> |used| == Half(l) + 1
    ensures WorkerOk(rounds, Running, l + 1, used, exited, shutdown)
  {
  }

  lemma EnterInv(n: nat, rounds: nat, s: State, t: nat)
    requires Inv(n, rounds, s) && Enabled(n, s, Enter(t))
    ensures Inv(n, rounds, Next(n, rounds, s, Enter(t)))
  {
    hide Arrived, Odd, Half, BarrierOk;
    StepKeepsBarrier(n, rounds, s, Enter(t));
    assert Shape(n, s) by {
      BarrierShape(n, s);
    }
    MustByHalf(s, t);
    var s' := Next(n, rounds, s, Enter(t));
    assert MainOk(rounds, s') by {
      if t == 0 && IsLast(s.barrier) {
        LeaveMain(rounds, s.left[0], s.posted);
      }
    }
    forall u | 1 <= u < n
      ensures WorkerOk(rounds, s'.pc[u], s'.left[u], s'.used[u], s'.exited[u], s'.shutdown)
    {
      assert WorkerOk(rounds, s.pc[u], s.left[u], s.used[u], s.exited[u], s.shutdown);
      if u == t && IsLast(s.barrier) {
        LeaveWorker(rounds, s.pc[u], s.left[u], s.used[u], s.exited[u], s.shutdown);
      }
    }
  }

  lemma BarrierShape(n: nat, s: State)
    requires BarrierOk(n, s)
    ensures Shape(n, s)
  {
  }

  lemma MustByHalf(s: State, t: nat)
    requires t < |s.pc| && |s.pc| == |s.left| == |s.used| == |s.exited|
    ensures MustCompute(s, t) <==> t != 0 && InReduction(s, t) && !s.exited[t] && |s.used[t]| == Half(s.left[t])
    ensures MustAnnounce(s) <==> s.pc[0] == Running && !Odd(s.left[0]) && s.posted == Half(s.left[0])
  {
  }

  lemma WakeInv(n: nat, rounds: nat, s: State, t: nat)
    requires Inv(n, rounds, s) && Enabled(n, s, Wake(t))
    ensures Inv(n, rounds, Next(n, rounds, s, Wake(t)))
  {
    hide Arrived, Odd, Half, BarrierOk;
    StepKeepsBarrier(n, rounds, s, Wake(t));
    BarrierShape(n, s);
    var s' := Next(n, rounds, s, Wake(t));
    assert MainOk(rounds, s') by {
      if t == 0 && s'.pc[0] == Running {
        LeaveMain(rounds, s.left[0], s.posted);
      }
    }
    forall u | 1 <= u < n
      ensures WorkerOk(rounds, s'.pc[u], s'.left[u], s'.used[u], s'.exited[u], s'.shutdown)
    {
      assert WorkerOk(rounds, s.pc[u], s.left[u], s.used[u], s.exited[u], s.shutdown);
      if u == t && s'.pc[u] == Running {
        LeaveWorker(rounds, s.pc[u], s.left[u], s.used[u], s.exited[u], s.shutdown);
      }
    }
  }

  lemma StepInv(n: nat, rounds: nat, s: State, ev: Event)
    requires Inv(n, rounds, s) && Enabled(n, s, ev)
    ensures Inv(n, rounds, Next(n, rounds, s, ev))
  {
    match ev {
      case Announce => AnnounceInv(n, rounds, s);
      case Compute(t) => ComputeInv(n, rounds, s, t);
      case Enter(t) => EnterInv(n, rounds, s, t);
      case Wake(t) => WakeInv(n, rounds, s, t);
    }
  }

  // ---------- what holds in every run ----------

  ghost predicate Reachable(n: nat, rounds: nat, s: State, steps: nat)
    decreases steps
  {
    1 <= n && if steps == 0 then s == Init(n)
              else exists s0, ev :: Reachable(n, rounds, s0, steps - 1) && Shape(n, s0) && Enabled(n, s0, ev) &&
                                    s == Next(n, rounds, s0, ev)
  }

  lemma {:induction false} ReachableInv(n: nat, rounds: nat, s: State, steps: nat)
    requires Reachable(n, rounds, s, steps)
    ensures Inv(n, rounds, s)
    decreases steps
  {
    hide Inv, Next, Enabled;
    if steps == 0 {
      InitInv(n, rounds);
    } else {
      var s0, ev :| Reachable(n, rounds, s0, steps - 1) && Shape(n, s0) && Enabled(n, s0, ev) &&
                    s == Next(n, rounds, s0, ev);
      ReachableInv(n, rounds, s0, steps - 1);
      StepInv(n, rounds, s0, ev);
    }
  }

  /**
   * Barrier safety: nobody returns from the k-th wait before everybody has called it, and nobody gets a second
   * round ahead. The flag flips at most once while a thread is blocked, so that one bit tells it when to leave.
   */
  lemma BarrierSafety(n: nat, rounds: nat, s: State, steps: nat, t: nat, u: nat)
    requires Reachable(n, rounds, s, steps) && t < n && u < n && Shape(n, s)
    ensures s.left[t] <= s.entered[u] && s.entered[t] <= s.left[t] + 1 && s.entered[t] <= s.entered[u] + 1
    ensures s.left[t] <= s.flips <= s.left[t] + 1
    ensures s.pc[t].Blocked? ==> (IsReleased(s.pc[t].flagCopy, s.barrier) <==> s.flips == s.left[t] + 1)
  {
    hide Arrived, Odd, Reachable, MainOk, WorkerOk;
    ReachableInv(n, rounds, s, steps);
    assert ThreadOk(s.pc[t], s.entered[t], s.left[t], s.flips);
    assert ThreadOk(s.pc[u], s.entered[u], s.left[u], s.flips);
    NextIsOdd(s.left[t]);
  }

  /** The main thread stores parameters only while no worker is between the two barriers. */
  lemma NoOverlap(n: nat, rounds: nat, s: State, steps: nat, t: nat)
    requires Reachable(n, rounds, s, steps) && t < n && Shape(n, s) && Enabled(n, s, Announce)
    ensures !InReduction(s, t)
  {
    hide Inv;
    ReachableInv(n, rounds, s, steps);
    if InReduction(s, t) {
      SameReduction(n, rounds, s, t);
    }
  }

  /** Every worker performs reductions 0, 1, 2, ... once each, and each of them with its own parameters. */
  lemma EachReductionOnce(n: nat, rounds: nat, s: State, steps: nat, t: nat, i: nat)
    requires Reachable(n, rounds, s, steps) && 1 <= t < n && Shape(n, s) && i < |s.used[t]|
    ensures s.used[t][i] == i && |s.used[t]| <= rounds
  {
    hide BarrierOk, MainOk;
    ReachableInv(n, rounds, s, steps);
    assert WorkerOk(rounds, s.pc[t], s.left[t], s.used[t], s.exited[t], s.shutdown);
  }

  /** allreduce_inplace returns from reduction r only after every worker has performed it. */
  lemma ReturnsAfterAll(n: nat, rounds: nat, s: State, steps: nat, t: nat, r: nat)
    requires Reachable(n, rounds, s, steps) && 1 <= t < n && Shape(n, s) && 2 * r + 2 <= s.left[0]
    ensures r < |s.used[t]|
  {
    hide Arrived;
    ReachableInv(n, rounds, s, steps);
    assert ThreadOk(s.pc[0], s.entered[0], s.left[0], s.flips);
    assert ThreadOk(s.pc[t], s.entered[t], s.left[t], s.flips);
    assert WorkerOk(rounds, s.pc[t], s.left[t], s.used[t], s.exited[t], s.shutdown);
  }

  /** A blocked thread may be woken at any time. If the flag has not flipped, it goes on waiting as before. */
  lemma SpuriousWake(n: nat, rounds: nat, s: State, steps: nat, t: nat)
    requires Reachable(n, rounds, s, steps) && t < n && Shape(n, s) && s.pc[t].Blocked? && s.flips == s.left[t]
    ensures Enabled(n, s, Wake(t)) && !s.pc[t].notified
    ensures Next(n, rounds, s, Wake(t)) == s
  {
    hide Arrived, Odd, Reachable, MainOk, WorkerOk;
    BarrierSafety(n, rounds, s, steps, t, t);
    ReachableInv(n, rounds, s, steps);
    assert ThreadOk(s.pc[t], s.entered[t], s.left[t], s.flips);
    assert s.pc[t := s.pc[t]] == s.pc;
  }

  // ---------- nobody is left behind ----------

  /** The main thread has left the last barrier, and every worker has performed all reductions and exited. */
  ghost predicate Done(n: nat, rounds: nat, s: State) {
    && Shape(n, s) && s.pc[0] == Running && s.left[0] == 2 * rounds + 1
    && forall t | 1 <= t < n :: s.exited[t] && |s.used[t]| == rounds
  }

  /** Anything but a spurious wake-up. */
  predicate Useful(n: nat, s: State, ev: Event)
    requires Shape(n, s) && Enabled(n, s, ev)
  {
    ev.Wake? ==> s.pc[ev.t].notified
  }

  /** A thread that is not blocked in the current round and has not finished can make a step. */
  lemma CanMove(n: nat, rounds: nat, s: State, t: nat) returns (ev: Event)
    requires Inv(n, rounds, s) && t < n && s.entered[t] == s.flips
    requires if t == 0 then s.left[0] != 2 * rounds + 1 else !s.exited[t]
    ensures Enabled(n, s, ev) && Useful(n, s, ev)
  {
    hide Arrived, Half;
    assert ThreadOk(s.pc[t], s.entered[t], s.left[t], s.flips);
    MainBound(n, rounds, s);
    ev := if s.pc[t].Blocked? then Wake(t)
          else if t == 0 && MustAnnounce(s) then Announce
          else if MustCompute(s, t) then Compute(t)
          else Enter(t);
  }

  lemma {:induction false} SomebodyMissing(entered: seq<nat>, flips: nat) returns (t: nat)
    requires (forall t | 0 <= t < |entered| :: flips <= entered[t] <= flips + 1) && Arrived(entered, flips) < |entered|
    ensures t < |entered| && entered[t] == flips
  {
    t := |entered| - 1;
    if entered[t] != flips {
      t := SomebodyMissing(entered[..|entered| - 1], flips);
    }
  }

  /** No deadlock: unless everything is done, some thread can make a step that is not just a spurious wake-up. */
  lemma NoDeadlock(n: nat, rounds: nat, s: State, steps: nat) returns (ev: Event)
    requires Reachable(n, rounds, s, steps) && !Done(n, rounds, s)
    ensures Shape(n, s) && Enabled(n, s, ev) && Useful(n, s, ev)
  {
    hide Arrived, Half, Odd, Enabled;
    ReachableInv(n, rounds, s, steps);
    assert forall u | 0 <= u < n :: ThreadOk(s.pc[u], s.entered[u], s.left[u], s.flips);
    var t := SomebodyMissing(s.entered, s.flips);
    if if t == 0 then s.left[0] != 2 * rounds + 1 else !s.exited[t] {
      ev := CanMove(n, rounds, s, t);
    } else {
      assert s.flips == 2 * rounds + 1 by {
        FinishedMeansLast(n, rounds, s, t);
      }
      MainBound(n, rounds, s);
      if s.pc[0].Blocked? || s.left[0] != 2 * rounds + 1 {
        ev := CanMove(n, rounds, s, 0);
      } else {
        var u :| 1 <= u < n && !(s.exited[u] && |s.used[u]| == rounds);
        assert WorkerOk(rounds, s.pc[u], s.left[u], s.used[u], s.exited[u], s.shutdown);
        LastRound(n, rounds, s, u);
        ev := CanMove(n, rounds, s, u);
      }
    }
  }

  lemma FinishedMeansLast(n: nat, rounds: nat, s: State, t: nat)
    requires Inv(n, rounds, s) && t < n && s.entered[t] == s.flips
    requires if t == 0 then s.left[0] == 2 * rounds + 1 else s.exited[t]
    ensures s.flips == 2 * rounds + 1
  {
    hide Arrived, Half, Odd;
    assert ThreadOk(s.pc[t], s.entered[t], s.left[t], s.flips);
    MainBound(n, rounds, s);
    if t != 0 {
      assert WorkerOk(rounds, s.pc[t], s.left[t], s.used[t], s.exited[t], s.shutdown);
    }
  }

  /** Nobody enters the barrier again after the shutdown. */
  lemma LastRound(n: nat, rounds: nat, s: State, u: nat)
    requires Inv(n, rounds, s) && 1 <= u < n && s.flips == 2 * rounds + 1
    ensures s.entered[u] == s.flips
  {
    hide Arrived;
    assert ThreadOk(s.pc[u], s.entered[u], s.left[u], s.flips);
    assert WorkerOk(rounds, s.pc[u], s.left[u], s.used[u], s.exited[u], s.shutdown);
  }

  /** How much a thread has done. */
  function ThreadWork(s: State, t: nat): nat
    requires t < |s.entered| && |s.entered| == |s.left| == |s.used| == |s.exited|
  {
    s.entered[t] + s.left[t] + |s.used[t]| + if s.exited[t] then 1 else 0
  }

  /** How much has been done: by the main thread's announcements, and by the first k threads. */
  function Work(s: State, k: nat): nat
    requires k <= |s.entered| && |s.entered| == |s.left| == |s.used| == |s.exited|
  {
    if k == 0 then s.posted else Work(s, k - 1) + ThreadWork(s, k - 1)
  }

  lemma ThreadWorkBounded(n: nat, rounds: nat, s: State, t: nat)
    requires Inv(n, rounds, s) && t < n
    ensures ThreadWork(s, t) <= 5 * rounds + 4
  {
    hide Arrived, Half, Odd;
    MainBound(n, rounds, s);
    assert ThreadOk(s.pc[t], s.entered[t], s.left[t], s.flips);
    if t != 0 {
      assert WorkerOk(rounds, s.pc[t], s.left[t], s.used[t], s.exited[t], s.shutdown);
    }
  }

  lemma {:induction false} WorkBounded(n: nat, rounds: nat, s: State, k: nat)
    requires Inv(n, rounds, s) && k <= n
    ensures Work(s, k) <= rounds + 1 + k * (5 * rounds + 4)
  {
    hide BarrierOk, ThreadWork;
    BarrierShape(n, s);
    if k != 0 {
      WorkBounded(n, rounds, s, k - 1);
      ThreadWorkBounded(n, rounds, s, k - 1);
    }
  }

  lemma StepWork(n: nat, rounds: nat, s: State, ev: Event, t: nat)
    requires BarrierOk(n, s) && Enabled(n, s, ev) && t < n
    ensures Shape(n, Next(n, rounds, s, ev))
    ensures ThreadWork(s, t) <= ThreadWork(Next(n, rounds, s, ev), t)
    ensures !ev.Announce? && ev.t == t && Useful(n, s, ev) ==> ThreadWork(s, t) < ThreadWork(Next(n, rounds, s, ev), t)
  {
    hide Arrived, MustAnnounce, Odd, Notify;
    assert ThreadOk(s.pc[t], s.entered[t], s.left[t], s.flips);
    if ev.Wake? {
      NextIsOdd(s.left[ev.t]);
    }
  }

  lemma PostedGrows(n: nat, rounds: nat, s: State, ev: Event)
    requires Shape(n, s) && Enabled(n, s, ev)
    ensures Next(n, rounds, s, ev).posted == s.posted + if ev.Announce? then 1 else 0
  {
  }

  lemma {:induction false} WorkGrows(n: nat, rounds: nat, s: State, ev: Event, k: nat)
    requires BarrierOk(n, s) && Enabled(n, s, ev) && k <= n
    ensures Shape(n, Next(n, rounds, s, ev))
    ensures Work(s, k) <= Work(Next(n, rounds, s, ev), k)
    ensures Useful(n, s, ev) && (ev.Announce? || ev.t < k) ==> Work(s, k) < Work(Next(n, rounds, s, ev), k)
  {
    hide Next, Useful, BarrierOk, ThreadWork, Enabled;
    BarrierShape(n, s);
    StepWork(n, rounds, s, ev, 0);
    PostedGrows(n, rounds, s, ev);
    if k != 0 {
      WorkGrows(n, rounds, s, ev, k - 1);
      StepWork(n, rounds, s, ev, k - 1);
    }
  }

  /** All the work there is. */
  function Bound(n: nat, rounds: nat): nat {
    rounds + 1 + n * (5 * rounds + 4)
  }

  /**
   * Shutdown releases everybody: every step but a spurious wake-up adds to the work done, the work is bounded, and by
   * NoDeadlock such a step is possible until all reductions are performed and all workers have exited.
   */
  lemma Terminates(n: nat, rounds: nat, s: State, steps: nat, ev: Event)
    requires Reachable(n, rounds, s, steps) && Shape(n, s) && Enabled(n, s, ev) && Useful(n, s, ev)
    ensures Shape(n, Next(n, rounds, s, ev))
    ensures Work(s, n) < Work(Next(n, rounds, s, ev), n) <= Bound(n, rounds)
  {
    hide Next, Useful, BarrierOk, Work;
    ReachableInv(n, rounds, s, steps);
    WorkGrows(n, rounds, s, ev, n);
    StepInv(n, rounds, s, ev);
    WorkBounded(n, rounds, Next(n, rounds, s, ev), n);
  }

  /** The events are possible one after the other. */
  ghost predicate IsRun(n: nat, rounds: nat, s: State, evs: seq<Event>)
    decreases |evs|
  {
    evs == [] || (Shape(n, s) && Enabled(n, s, evs[0]) && IsRun(n, rounds, Next(n, rounds, s, evs[0]), evs[1..]))
  }

  ghost function After(n: nat, rounds: nat, s: State, evs: seq<Event>): State
    requires IsRun(n, rounds, s, evs)
    decreases |evs|
  {
    if evs == [] then s else After(n, rounds, Next(n, rounds, s, evs[0]), evs[1..])
  }

  ghost predicate AllUseful(n: nat, rounds: nat, s: State, evs: seq<Event>)
    requires IsRun(n, rounds, s, evs)
    decreases |evs|
  {
    evs == [] || (Useful(n, s, evs[0]) && AllUseful(n, rounds, Next(n, rounds, s, evs[0]), evs[1..]))
  }

  lemma ReachableNext(n: nat, rounds: nat, s: State, steps: nat, ev: Event)
    requires Reachable(n, rounds, s, steps) && Shape(n, s) && Enabled(n, s, ev)
    ensures Reachable(n, rounds, Next(n, rounds, s, ev), steps + 1)
  {
  }

  lemma ReachableShape(n: nat, rounds: nat, s: State, steps: nat)
    requires Reachable(n, rounds, s, steps)
    ensures Shape(n, s) && Work(s, n) <= Bound(n, rounds)
  {
    hide Work;
    ReachableInv(n, rounds, s, steps);
    WorkBounded(n, rounds, s, n);
  }

  /** Without spurious wake-ups, no run goes on for ever. */
  lemma {:induction false} RunsEnd(n: nat, rounds: nat, s: State, steps: nat, evs: seq<Event>)
    requires Reachable(n, rounds, s, steps) && IsRun(n, rounds, s, evs) && AllUseful(n, rounds, s, evs)
    ensures Shape(n, s) && |evs| + Work(s, n) <= Bound(n, rounds)
    decreases |evs|
  {
    hide Reachable, Work, Next, Enabled, Useful;
    ReachableShape(n, rounds, s, steps);
    if evs != [] {
      ReachableNext(n, rounds, s, steps, evs[0]);
      Terminates(n, rounds, s, steps, evs[0]);
      RunsEnd(n, rounds, Next(n, rounds, s, evs[0]), steps + 1, evs[1..]);
    }
  }

  /** From every reachable state, some run leads to the state in which everything is done. */
  lemma {:induction false} ReachesDone(n: nat, rounds: nat, s: State, steps: nat) returns (evs: seq<Event>)
    requires Reachable(n, rounds, s, steps)
    ensures IsRun(n, rounds, s, evs) && AllUseful(n, rounds, s, evs) && Done(n, rounds, After(n, rounds, s, evs))
    decreases if Shape(n, s) then Bound(n, rounds) - Work(s, n) else 0
  {
    hide Reachable, Work, Next, Enabled, Useful, Done, Bound;
    ReachableShape(n, rounds, s, steps);
    evs := [];
    if !Done(n, rounds, s) {
      var ev := NoDeadlock(n, rounds, s, steps);
      ReachableNext(n, rounds, s, steps, ev);
      Terminates(n, rounds, s, steps, ev);
      var rest := ReachesDone(n, rounds, Next(n, rounds, s, ev), steps + 1);
      evs := [ev] + rest;
      assert evs[1..] == rest;
    }
  }
}
