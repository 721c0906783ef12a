/** The sense-reversing barrier: a count of missing participants, a flag, a mutex and a condition variable. */
module Barriers {

  /** The fields the mutex protects. */
  datatype Shared = Shared(count: int, flag: bool)

  /** What a thread does under the mutex when it arrives: note itself, and release the others if it is the last. */
  function Arrive(s: Shared, participants: nat): Shared {
    if s.count - 1 > 0 then s.(count := s.count - 1) else Shared(participants, !s.flag)
  }

  predicate IsLast(s: Shared) {
    s.count - 1 <= 0
  }

  /**
   * The loop condition, checked after every wake-up, spurious or not: the flag differs from the copy taken on
   * arrival.
   */
  predicate IsReleased(flagCopy: bool, s: Shared) {
    flagCopy != s.flag
  }

  /** The barrier object. Arrival and each check after a wake-up are critical sections of their own. */
  class Barrier {
    const participants: nat
    var count: int
    var flag: bool

    ghost function State(): Shared
      reads this
    {
      Shared(count, flag)
    }

    constructor (participants: nat)
      ensures this.participants == participants && State() == Shared(participants, false)
    {
      this.participants := participants;
      count := participants;
      flag := false;
    }

    /** The part of wait() before the condition variable; `wait` tells whether the thread has to wait for a flip. */
    method Enter() returns (flagCopy: bool, wait: bool)
      modifies this
      ensures flagCopy == old(flag) && wait == !IsLast(old(State()))
      ensures State() == Arrive(old(State()), participants)
    {
      flagCopy := flag;
      count := count - 1;
      wait := count > 0;
      if !wait {
        flag := !flag;
        count := participants;
      }
    }
  }
}
