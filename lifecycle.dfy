/**
 * The life-cycle of a simulated call, shared by the priority-dispatch
 * simulation and the FIFO baseline: its phases, its record, how many calls
 * have reached each phase, what each process waits for, and how the calls'
 * phases line up with the holders and waiters of the unit pool.
 */
module Lifecycle {
  import opened Ordering

  /**
   * Arrived -> Triaged -> Queued -> Granted -> InService -> Completed. A call
   * whose request finds a free unit skips Queued. Granted is the interval
   * between the grant of the request and the call process resuming on it.
   */
  datatype Phase = Arrived | Triaged | Queued | Granted | InService | Completed

  function Rank(p: Phase): nat {
    match p
    case Arrived => 0
    case Triaged => 1
    case Queued => 2
    case Granted => 3
    case InService => 4
    case Completed => 5
  }

  /** The phases in which a call holds a unit. */
  predicate HoldsUnit(p: Phase) {
    p == Granted || p == InService
  }

  /** A call's local state; a time field is meaningful once the phase has reached it. */
  datatype CallRecord = CallRecord(
    phase: Phase,
    priority: int,     // queue priority, set at triage
    arrival: real,     // tempo_chegada
    queueEntry: real,  // tempo_entrada_fila_bombeiros
    grant: real,       // instant the request was granted
    service: real,     // tempo_servico
    finish: real       // instant the unit was released
  )

  /** Number of calls whose phase has reached rank `r`. */
  function CountReached(calls: seq<CallRecord>, r: nat): (n: nat)
    ensures n <= |calls|
  {
    if calls == [] then 0
    else CountReached(calls[..|calls| - 1], r) + (if Rank(calls[|calls| - 1].phase) >= r then 1 else 0)
  }

  lemma CountAppend(calls: seq<CallRecord>, x: CallRecord, r: nat)
    ensures CountReached(calls + [x], r) == CountReached(calls, r) + (if Rank(x.phase) >= r then 1 else 0)
  {
    assert (calls + [x])[..|calls|] == calls;
  }

  lemma {:induction false} CountUpdate(calls: seq<CallRecord>, i: nat, x: CallRecord, r: nat)
    requires i < |calls|
    ensures CountReached(calls[i := x], r)
         == CountReached(calls, r) - (if Rank(calls[i].phase) >= r then 1 else 0) + (if Rank(x.phase) >= r then 1 else 0)
  {
    var n := |calls|;
    var s := calls[i := x];
    if i == n - 1 {
      assert s[..n - 1] == calls[..n - 1];
    } else {
      assert s[..n - 1] == calls[..n - 1][i := x];
      CountUpdate(calls[..n - 1], i, x, r);
    }
  }

  /** Count changes of every rank when one call moves to a new record. */
  lemma CountsUpdate(calls: seq<CallRecord>, i: nat, x: CallRecord)
    requires i < |calls|
    ensures forall r: nat :: (CountReached(calls[i := x], r)
              == CountReached(calls, r) - (if Rank(calls[i].phase) >= r then 1 else 0) + (if Rank(x.phase) >= r then 1 else 0))
  {
    forall r: nat
      ensures CountReached(calls[i := x], r)
           == CountReached(calls, r) - (if Rank(calls[i].phase) >= r then 1 else 0) + (if Rank(x.phase) >= r then 1 else 0)
    {
      CountUpdate(calls, i, x, r);
    }
  }

  /** The count is exact: it is the number of calls exactly when every call has reached rank `r`, and zero exactly when none has. */
  lemma {:induction false} CountExtremes(calls: seq<CallRecord>, r: nat)
    ensures CountReached(calls, r) == |calls| <==> forall i :: 0 <= i < |calls| ==> Rank(calls[i].phase) >= r
    ensures CountReached(calls, r) == 0 <==> forall i :: 0 <= i < |calls| ==> Rank(calls[i].phase) < r
  {
    if calls != [] {
      var prefix := calls[..|calls| - 1];
      CountExtremes(prefix, r);
      assert forall i :: 0 <= i < |prefix| ==> prefix[i] == calls[i];
    }
  }

  lemma {:induction false} CountAllCompleted(calls: seq<CallRecord>, r: nat)
    requires r <= 5
    requires forall c :: 0 <= c < |calls| ==> calls[c].phase == Completed
    ensures CountReached(calls, r) == |calls|
  {
    if calls != [] {
      CountAllCompleted(calls[..|calls| - 1], r);
    }
  }

  /**
   * What a suspended call process, or the call generator, is waiting to be
   * resumed by: the generator's next gap, the start of a call's process, or
   * an event a started call waits on.
   */
  datatype Wakeup = Tick | Start(call: nat) | Resume(call: nat)

  /**
   * No process start is ever left pending. simpy schedules the start of a new
   * process as an urgent event, which is processed before every ordinary event
   * due at the same instant. Nothing else here is urgent, so the start of a
   * spawned call is always the very next event, and the models run it within
   * the step that spawns the call.
   */
  ghost predicate NoStarts(pending: map<Wakeup, Key>) {
    forall c: nat :: Start(c) !in pending
  }

  /** Owner `c` holds a unit exactly when granted or in service, and waits exactly when queued, at its priority. */
  ghost predicate UnitAt(calls: seq<CallRecord>, users: set<nat>, queue: map<nat, Key>, c: nat) {
    && (c in users <==> c < |calls| && HoldsUnit(calls[c].phase))
    && (c in queue <==> c < |calls| && calls[c].phase == Queued)
    && (c in queue ==> queue[c].major == calls[c].priority as real)
  }

  /** The units are held exactly by the granted and served calls and awaited exactly by the queued ones, at their priority. */
  ghost predicate UnitsOk(calls: seq<CallRecord>, users: set<nat>, queue: map<nat, Key>) {
    forall c: nat :: UnitAt(calls, users, queue, c)
  }

  /** With no calls, no unit is held or awaited. */
  lemma EmptyUnits()
    ensures UnitsOk([], {}, map[])
  {
    forall e: nat ensures UnitAt([], {}, map[], e) { }
  }

  /** Call `c`, neither holding nor awaiting a unit, is granted one at once. */
  lemma AdmitUnits(calls: seq<CallRecord>, users: set<nat>, queue: map<nat, Key>, c: nat, rec: CallRecord)
    requires UnitsOk(calls, users, queue) && c < |calls| && rec.phase == Granted
    requires !HoldsUnit(calls[c].phase) && calls[c].phase != Queued
    ensures UnitsOk(calls[c := rec], users + {c}, queue)
  {
    var calls', users', queue' := calls[c := rec], users + {c}, queue;
    forall e: nat ensures UnitAt(calls', users', queue', e) {
      assert UnitAt(calls, users, queue, e);
    }
  }

  /** Call `c`, neither holding nor awaiting a unit, waits for one with its priority. */
  lemma EnqueueUnits(calls: seq<CallRecord>, users: set<nat>, queue: map<nat, Key>, c: nat, rec: CallRecord, key: Key)
    requires UnitsOk(calls, users, queue) && c < |calls| && rec.phase == Queued
    requires !HoldsUnit(calls[c].phase) && calls[c].phase != Queued
    requires key.major == rec.priority as real
    ensures UnitsOk(calls[c := rec], users, queue[c := key])
  {
    var calls', users', queue' := calls[c := rec], users, queue[c := key];
    forall e: nat ensures UnitAt(calls', users', queue', e) {
      assert UnitAt(calls, users, queue, e);
    }
  }

  /** Waiting call `d` is granted a unit. */
  lemma GrantUnits(calls: seq<CallRecord>, users: set<nat>, queue: map<nat, Key>, d: nat, rec: CallRecord)
    requires UnitsOk(calls, users, queue) && d < |calls| && calls[d].phase == Queued && rec.phase == Granted
    ensures UnitsOk(calls[d := rec], users + {d}, queue - {d})
  {
    var calls', users', queue' := calls[d := rec], users + {d}, queue - {d};
    forall e: nat ensures UnitAt(calls', users', queue', e) {
      assert UnitAt(calls, users, queue, e);
    }
  }

  /** A call moving between two phases with the same standing towards the pool leaves the pool as it was. */
  lemma SameUnits(calls: seq<CallRecord>, users: set<nat>, queue: map<nat, Key>, c: nat, rec: CallRecord)
    requires UnitsOk(calls, users, queue) && c < |calls|
    requires HoldsUnit(calls[c].phase) == HoldsUnit(rec.phase)
    requires calls[c].phase != Queued && rec.phase != Queued
    ensures UnitsOk(calls[c := rec], users, queue)
  {
    var calls' := calls[c := rec];
    forall e: nat ensures UnitAt(calls', users, queue, e) {
      assert UnitAt(calls, users, queue, e);
    }
  }

  /** Call `c` has given its unit back and completes. */
  lemma ReleaseUnits(calls: seq<CallRecord>, users: set<nat>, queue: map<nat, Key>, c: nat, rec: CallRecord)
    requires UnitsOk(calls, users, queue) && c < |calls| && calls[c].phase == InService && rec.phase == Completed
    ensures UnitsOk(calls[c := rec], users - {c}, queue)
  {
    var calls', users', queue' := calls[c := rec], users - {c}, queue;
    forall e: nat ensures UnitAt(calls', users', queue', e) {
      assert UnitAt(calls, users, queue, e);
    }
  }

  /** The call granted next is among the most urgent waiting ones: no waiting call has a smaller priority value. */
  lemma EarliestMostUrgent(calls: seq<CallRecord>, users: set<nat>, queue: map<nat, Key>, d: nat)
    requires UnitsOk(calls, users, queue) && IsEarliest(queue, d)
    ensures d < |calls| && calls[d].phase == Queued
    ensures forall v :: v in queue ==> v < |calls| && calls[d].priority <= calls[v].priority
  {
    assert UnitAt(calls, users, queue, d);
    forall v | v in queue ensures v < |calls| && calls[d].priority <= calls[v].priority {
      assert UnitAt(calls, users, queue, v);
    }
  }

  /** Never more calls hold a unit than there are units. */
  lemma Occupancy(calls: seq<CallRecord>, users: set<nat>, queue: map<nat, Key>, capacity: nat)
    requires UnitsOk(calls, users, queue) && |users| <= capacity
    ensures users == set c | 0 <= c < |calls| && HoldsUnit(calls[c].phase)
    ensures |set c | 0 <= c < |calls| && HoldsUnit(calls[c].phase)| <= capacity
  {
    forall c ensures c in users <==> 0 <= c < |calls| && HoldsUnit(calls[c].phase) {
      if c >= 0 { assert UnitAt(calls, users, queue, c); }
    }
  }
}
