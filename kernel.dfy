/**
 * A self-contained discrete-event scheduler: a simulated clock and the set of
 * pending wake-ups, each keyed by (trigger time, insertion number). A process
 * waits on one thing at a time, so pending wake-ups are indexed by the process
 * (or process step) they resume. It stands in for `simpy.Environment`:
 * `Schedule` is `env.timeout(delay)` and `Pop` is one iteration of `env.run()`.
 */
module Kernel {
  import opened Ordering

  class Scheduler<T(==)> {
    /** Simulated time (`env.now`). */
    var now: real
    /** Pending wake-ups: target -> Key(trigger time, insertion number). */
    var pending: map<T, Key>
    /** The insertion number the next scheduled wake-up receives. */
    var nextId: nat

    ghost predicate Valid()
      reads this
    {
      && 0.0 <= now
      && (forall w :: w in pending ==> now <= pending[w].major)
      && SeqnosBelow(pending, nextId)
      && DistinctSeqnos(pending)
    }

    constructor ()
      ensures Valid()
      ensures now == 0.0 && pending == map[]
    {
      now := 0.0;
      pending := map[];
      nextId := 0;
    }

    /** Suspends `w` until `now + delay`; the clock does not move. */
    method Schedule(delay: real, w: T)
      requires Valid()
      requires 0.0 <= delay
      requires w !in pending
      modifies this
      ensures Valid()
      ensures now == old(now)
      ensures pending == old(pending)[w := Key(old(now) + delay, old(nextId))]
    {
      AddFresh(pending, w, now + delay, nextId);
      pending := pending[w := Key(now + delay, nextId)];
      nextId := nextId + 1;
    }

    /**
     * Removes the wake-up with the earliest (time, insertion number) and
     * advances the clock to its time; the clock never goes back.
     */
    method Pop() returns (w: T)
      requires Valid()
      requires pending != map[]
      modifies this
      ensures Valid()
      ensures IsEarliest(old(pending), w)
      ensures now == old(pending)[w].major && old(now) <= now
      ensures pending == old(pending) - {w}
    {
      w := Earliest(pending);
      now := pending[w].major;
      pending := pending - {w};
    }
  }
}
