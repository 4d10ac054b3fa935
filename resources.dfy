/**
 * A pool of interchangeable units with a priority-ordered waiting queue,
 * standing in for `simpy.PriorityResource`. A request is granted at once while
 * fewer than `capacity` units are busy; otherwise it waits, keyed by
 * (priority, request number). A release hands the unit to the waiting request
 * with the smallest key: the smallest priority value, and among equal
 * priorities the earliest request. A holder is never preempted.
 */
module Resources {
  import opened Wrappers
  import opened Ordering

  /** Why a scenario cannot be set up: a pool needs at least one unit (`simpy` raises `ValueError`). */
  datatype SimError = InvalidCapacity

  class PriorityResource {
    const capacity: nat
    /** Owners currently holding a unit; the busy count is `|users|`. */
    var users: set<nat>
    /** Waiting owners -> Key(priority, request number). */
    var queue: map<nat, Key>
    /** The request number the next queued request receives. */
    var nextId: nat

    ghost predicate Valid()
      reads this
    {
      && 1 <= capacity
      && |users| <= capacity
      && (queue != map[] ==> |users| == capacity)
      && users !! queue.Keys
      && SeqnosBelow(queue, nextId)
      && DistinctSeqnos(queue)
    }

    constructor (capacity: nat)
      requires 1 <= capacity
      ensures Valid()
      ensures this.capacity == capacity && users == {} && queue == map[]
    {
      this.capacity := capacity;
      users := {};
      queue := map[];
      nextId := 0;
    }

    /**
     * `owner` asks for a unit with the given priority: granted at once when a
     * unit is free, queued otherwise. Nobody already holding a unit loses it.
     */
    method Request(owner: nat, priority: int) returns (granted: bool)
      requires Valid()
      requires owner !in users && owner !in queue
      modifies this
      ensures Valid()
      ensures granted <==> |old(users)| < capacity
      ensures granted ==> users == old(users) + {owner} && queue == old(queue)
      ensures !granted ==> users == old(users) && queue == old(queue)[owner := Key(priority as real, old(nextId))]
    {
      if |users| < capacity {
        users := users + {owner};
        granted := true;
      } else {
        AddFresh(queue, owner, priority as real, nextId);
        queue := queue[owner := Key(priority as real, nextId)];
        nextId := nextId + 1;
        granted := false;
      }
    }

    /**
     * `owner` gives its unit back. When requests are waiting, the one with the
     * smallest (priority, request number) receives the unit and is returned.
     */
    method Release(owner: nat) returns (next: Option<nat>)
      requires Valid()
      requires owner in users
      modifies this
      ensures Valid()
      ensures old(queue) == map[] ==> next == None && users == old(users) - {owner} && queue == old(queue)
      ensures old(queue) != map[] ==>
                && next.Some?
                && IsEarliest(old(queue), next.value)
                && users == old(users) - {owner} + {next.value}
                && queue == old(queue) - {next.value}
    {
      users := users - {owner};
      if queue == map[] {
        next := None;
      } else {
        var n := Earliest(queue);
        queue := queue - {n};
        users := users + {n};
        next := Some(n);
      }
    }
  }
}
