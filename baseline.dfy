/**
 * The FIFO baseline: the same queueing model without triage or priorities.
 * Each input row gives the gap since the previous call and the call's service
 * time; calls queue for a plain first-come-first-served pool of units, and
 * the run reports how many were served and the mean wait and service time.
 */
module Baseline {
  import opened Wrappers
  import opened Ordering
  import opened Kernel
  import opened Resources
  import opened Lifecycle

  // ---------------------------------------------------------------------------
  // Input rows, the closed form for one unit, and means
  // ---------------------------------------------------------------------------

  /** One row of the input table: the gap since the previous call (`Interarrival`) and the call's `Service Time`. */
  datatype Row = Row(interarrival: real, serviceTime: real)

  /** No negative delays. */
  predicate WellFormed(rows: seq<Row>) {
    forall j :: 0 <= j < |rows| ==> 0.0 <= rows[j].interarrival && 0.0 <= rows[j].serviceTime
  }

  /** Sum of the first `k` gaps: the arrival instant of the k-th call (1-based). */
  function Elapsed(rows: seq<Row>, k: nat): (t: real)
    requires k <= |rows|
    ensures WellFormed(rows) ==> 0.0 <= t
  {
    if k == 0 then 0.0 else Elapsed(rows, k - 1) + rows[k - 1].interarrival
  }

  /** Rows are processed in order: a later call never arrives earlier. */
  lemma {:induction false} ArrivalsInOrder(rows: seq<Row>, i: nat, j: nat)
    requires WellFormed(rows) && i <= j <= |rows|
    ensures Elapsed(rows, i) <= Elapsed(rows, j)
  {
    if i < j {
      ArrivalsInOrder(rows, i, j - 1);
    }
  }

  function Max(a: real, b: real): real {
    if a < b then b else a
  }

  /**
   * With a single unit, call `j` starts its service once it has arrived and
   * its predecessor has finished: `max(arrival_j, finish_{j-1})`.
   */
  function StartTime(rows: seq<Row>, j: nat): (s: real)
    requires j < |rows|
    ensures Elapsed(rows, j + 1) <= s
    ensures 0 < j ==> StartTime(rows, j - 1) + rows[j - 1].serviceTime <= s
    ensures 0 < j ==> s == Elapsed(rows, j + 1) || s == StartTime(rows, j - 1) + rows[j - 1].serviceTime
  {
    if j == 0 then Elapsed(rows, 1) else Max(Elapsed(rows, j + 1), StartTime(rows, j - 1) + rows[j - 1].serviceTime)
  }

  /** The waits a single unit produces, call by call. */
  function SerialWaits(rows: seq<Row>): (w: seq<real>)
    ensures |w| == |rows|
    ensures forall k :: 0 <= k < |rows| ==> w[k] == StartTime(rows, k) - Elapsed(rows, k + 1)
  {
    seq(|rows|, k requires 0 <= k < |rows| => StartTime(rows, k) - Elapsed(rows, k + 1))
  }

  /** Three calls one time unit apart, each needing five, on one unit: they wait 0, 4 and 8. */
  lemma ThreeCallsOneUnit()
    ensures SerialWaits([Row(1.0, 5.0), Row(1.0, 5.0), Row(1.0, 5.0)]) == [0.0, 4.0, 8.0]
  {
    var rows := [Row(1.0, 5.0), Row(1.0, 5.0), Row(1.0, 5.0)];
    assert StartTime(rows, 0) == 1.0;
    assert StartTime(rows, 1) == 6.0;
    assert StartTime(rows, 2) == 11.0;
  }

  function Sum(xs: seq<real>): real {
    if xs == [] then 0.0 else Sum(xs[..|xs| - 1]) + xs[|xs| - 1]
  }

  /** The arithmetic mean, or 0 for an empty list (`np.mean(xs) if xs else 0`). */
  function Mean(xs: seq<real>): (m: real)
    ensures |xs| == 0 ==> m == 0.0
    ensures 0 < |xs| ==> m * |xs| as real == Sum(xs)
  {
    if |xs| == 0 then 0.0 else Sum(xs) / |xs| as real
  }

  lemma {:induction false} SumBounds(xs: seq<real>, lo: real, hi: real)
    requires forall k :: 0 <= k < |xs| ==> lo <= xs[k] <= hi
    ensures lo * |xs| as real <= Sum(xs) <= hi * |xs| as real
  {
    if xs != [] {
      SumBounds(xs[..|xs| - 1], lo, hi);
    }
  }

  lemma CancelPositive(a: real, b: real, n: real)
    requires 0.0 < n && a * n <= b * n
    ensures a <= b
  {
    assert (b - a) * n >= 0.0;
  }

  /** The mean of a non-empty list lies between any bounds of its elements. */
  lemma MeanBounds(xs: seq<real>, lo: real, hi: real)
    requires 0 < |xs|
    requires forall k :: 0 <= k < |xs| ==> lo <= xs[k] <= hi
    ensures lo <= Mean(xs) <= hi
  {
    SumBounds(xs, lo, hi);
    var n := |xs| as real;
    assert lo * n <= Mean(xs) * n <= hi * n;
    CancelPositive(lo, Mean(xs), n);
    CancelPositive(Mean(xs), hi, n);
  }

  lemma {:induction false} SumNonNegative(xs: seq<real>)
    requires forall k :: 0 <= k < |xs| ==> 0.0 <= xs[k]
    ensures 0.0 <= Sum(xs)
  {
    if xs != [] {
      SumNonNegative(xs[..|xs| - 1]);
    }
  }

  /** The mean of non-negative values (or of none) is non-negative. */
  lemma MeanNonNegative(xs: seq<real>)
    requires forall k :: 0 <= k < |xs| ==> 0.0 <= xs[k]
    ensures 0.0 <= Mean(xs)
  {
    if 0 < |xs| {
      SumNonNegative(xs);
      CancelPositive(0.0, Mean(xs), |xs| as real);
    }
  }

  /** The run's raw measurements (`metrics`). */
  datatype Metrics = Metrics(waitTimes: seq<real>, serviceTimes: seq<real>, served: nat)

  /** The run's summary (`results`). */
  datatype Summary = Summary(numUnits: int, served: nat, avgWait: real, avgService: real)

  /** The summary of a run's measurements. */
  function Summarize(numUnits: int, m: Metrics): (s: Summary)
    ensures s.numUnits == numUnits && s.served == m.served
    ensures |m.waitTimes| == 0 ==> s.avgWait == 0.0
    ensures 0 < |m.waitTimes| ==> s.avgWait * |m.waitTimes| as real == Sum(m.waitTimes)
    ensures |m.serviceTimes| == 0 ==> s.avgService == 0.0
    ensures 0 < |m.serviceTimes| ==> s.avgService * |m.serviceTimes| as real == Sum(m.serviceTimes)
  {
    Summary(numUnits, m.served, Mean(m.waitTimes), Mean(m.serviceTimes))
  }

  // ---------------------------------------------------------------------------
  // The scenario invariant, stated over values
  // ---------------------------------------------------------------------------

  /** Whether a state with these calls expects `w` to be pending. */
  ghost predicate Awaits(rows: seq<Row>, calls: seq<CallRecord>, w: Wakeup) {
    match w
    case Tick => |calls| < |rows|
    case Start(c) => c < |calls| && calls[c].phase == Arrived
    case Resume(c) => c < |calls| && HoldsUnit(calls[c].phase)
  }

  /** The instant at which `w` is due. */
  ghost function WakeTime(rows: seq<Row>, calls: seq<CallRecord>, w: Wakeup): real {
    match w
    case Tick => if |calls| < |rows| then Elapsed(rows, |calls| + 1) else 0.0
    case Start(c) => if c < |calls| then calls[c].arrival else 0.0
    case Resume(c) =>
      if c >= |calls| then 0.0
      else if calls[c].phase == Granted then calls[c].grant
      else calls[c].grant + calls[c].service
  }

  ghost predicate PendingAt(rows: seq<Row>, calls: seq<CallRecord>, pending: map<Wakeup, Key>, skip: Option<Wakeup>,
                            w: Wakeup) {
    && (w in pending <==> Awaits(rows, calls, w) && skip != Some(w))
    && (w in pending ==> pending[w].major == WakeTime(rows, calls, w))
  }

  /** The pending wake-ups are exactly the awaited ones (but `skip`), each due at its time. */
  ghost predicate PendingOk(rows: seq<Row>, calls: seq<CallRecord>, pending: map<Wakeup, Key>, skip: Option<Wakeup>) {
    forall w :: PendingAt(rows, calls, pending, skip, w)
  }

  /** The life-cycle facts of call `c` (record `r`) at simulated time `now`; baseline calls skip triage. */
  ghost predicate CallOk(rows: seq<Row>, c: nat, r: CallRecord, now: real)
    requires c < |rows|
  {
    && r.phase != Triaged
    && r.arrival == Elapsed(rows, c + 1)
    && r.priority == 0
    && (r.phase != Arrived ==> r.queueEntry == r.arrival && r.arrival <= now)
    && (Rank(r.phase) >= 3 ==> r.queueEntry <= r.grant <= now)
    && (Rank(r.phase) >= 4 ==> r.service == rows[c].serviceTime)
    && (r.phase == Completed ==> r.finish == r.grant + r.service && r.finish <= now)
  }

  ghost predicate CallAt(rows: seq<Row>, calls: seq<CallRecord>, now: real, c: nat)
    requires |calls| <= |rows|
  {
    c < |calls| ==> CallOk(rows, c, calls[c], now)
  }

  ghost predicate CallsOk(rows: seq<Row>, calls: seq<CallRecord>, now: real)
    requires |calls| <= |rows|
  {
    forall c: nat :: CallAt(rows, calls, now, c)
  }

  /** Entry `k` of `wait_times` belongs to call `g[k]`, which has been granted a unit and resumed. */
  ghost predicate WaitLinked(calls: seq<CallRecord>, m: Metrics, g: seq<nat>, k: nat)
    requires k < |g| && |m.waitTimes| == |g|
  {
    && g[k] < |calls|
    && Rank(calls[g[k]].phase) >= 4
    && m.waitTimes[k] == calls[g[k]].grant - calls[g[k]].queueEntry
  }

  /** Entry `k` of `service_times` belongs to call `f[k]`, which has completed. */
  ghost predicate ServiceLinked(calls: seq<CallRecord>, m: Metrics, f: seq<nat>, k: nat)
    requires k < |f| && |m.serviceTimes| == |f|
  {
    && f[k] < |calls|
    && calls[f[k]].phase == Completed
    && m.serviceTimes[k] == calls[f[k]].service
  }

  /** The measurements agree with the calls' phases and records. */
  ghost predicate MetricsOk(calls: seq<CallRecord>, m: Metrics, g: seq<nat>, f: seq<nat>) {
    && |m.waitTimes| == |g| && |g| == CountReached(calls, 4)
    && (forall k: nat :: k < |g| ==> WaitLinked(calls, m, g, k))
    && (forall i, j :: 0 <= i < j < |g| ==> g[i] != g[j])
    && |m.serviceTimes| == |f| && m.served == |f| && |f| == CountReached(calls, 5)
    && (forall k: nat :: k < |f| ==> ServiceLinked(calls, m, f, k))
    && (forall i, j :: 0 <= i < j < |f| ==> f[i] != f[j])
  }

  /**
   * First come, first served: calls make their requests in row order (those
   * yet to request form a suffix) and are granted in row order, at
   * non-decreasing instants.
   */
  ghost predicate CallOrderOk(calls: seq<CallRecord>) {
    && (forall i, j :: 0 <= i < j < |calls| && calls[i].phase == Arrived ==> calls[j].phase == Arrived)
    && (forall i, j :: 0 <= i < j < |calls| && Rank(calls[j].phase) >= 3 ==>
          Rank(calls[i].phase) >= 3 && calls[i].grant <= calls[j].grant)
  }

  /** Waiting calls `i < j` requested in that order. */
  ghost predicate QueueOrdered(queue: map<nat, Key>, i: nat, j: nat) {
    i < j && i in queue && j in queue ==> queue[i].seqno < queue[j].seqno
  }

  ghost predicate QueueOk(queue: map<nat, Key>) {
    forall i, j :: QueueOrdered(queue, i, j)
  }

  /**
   * With a single unit, calls are served one after another: a granted call's
   * predecessors have completed (but the one releasing its unit), and its
   * grant is the closed-form start time.
   */
  ghost predicate SerialGrants(rows: seq<Row>, calls: seq<CallRecord>, releasing: Option<nat>)
    requires |calls| <= |rows|
  {
    && (forall i, j :: ServedBefore(calls, releasing, i, j))
    && (forall j :: OnTime(rows, calls, j))
  }

  /** If call `j` has been granted, call `i < j` has completed or is the one releasing its unit. */
  ghost predicate ServedBefore(calls: seq<CallRecord>, releasing: Option<nat>, i: nat, j: nat) {
    i < j < |calls| && Rank(calls[j].phase) >= 3 ==> calls[i].phase == Completed || releasing == Some(i)
  }

  /** If call `j` has been granted, it was granted at the closed-form start time. */
  ghost predicate OnTime(rows: seq<Row>, calls: seq<CallRecord>, j: nat)
    requires |calls| <= |rows|
  {
    j < |calls| && Rank(calls[j].phase) >= 3 ==> calls[j].grant == StartTime(rows, j)
  }

  /** With a single unit, both measurement lists are in row order. */
  ghost predicate SerialLists(calls: seq<CallRecord>, g: seq<nat>, f: seq<nat>) {
    && (forall i :: 0 <= i < |calls| ==> (Rank(calls[i].phase) >= 4 <==> i < |g|))
    && (forall k :: 0 <= k < |g| ==> g[k] == k)
    && (forall i :: 0 <= i < |calls| ==> (calls[i].phase == Completed <==> i < |f|))
    && (forall k :: 0 <= k < |f| ==> f[k] == k)
  }

  ghost predicate SerialOk(rows: seq<Row>, calls: seq<CallRecord>, g: seq<nat>, f: seq<nat>, releasing: Option<nat>)
    requires |calls| <= |rows|
  {
    SerialGrants(rows, calls, releasing) && SerialLists(calls, g, f)
  }

  /** The scenario invariant over plain values; `skip` is the wake-up being handled, `releasing` the call giving its unit back. */
  ghost predicate Good(rows: seq<Row>, capacity: nat, calls: seq<CallRecord>, now: real, pending: map<Wakeup, Key>,
                       skip: Option<Wakeup>, users: set<nat>, queue: map<nat, Key>, m: Metrics, g: seq<nat>, f: seq<nat>,
                       releasing: Option<nat>)
  {
    && WellFormed(rows)
    && |calls| <= |rows|
    && CallsOk(rows, calls, now)
    && PendingOk(rows, calls, pending, skip)
    && UnitsOk(calls, users, queue)
    && MetricsOk(calls, m, g, f)
    && CallOrderOk(calls)
    && NoStarts(pending)
    && QueueOk(queue)
    && (capacity == 1 ==> SerialOk(rows, calls, g, f, releasing))
  }

  /** Events still to come: at most six per call. */
  ghost function Measure(rows: seq<Row>, calls: seq<CallRecord>): int {
    6 * |rows| - |calls|
      - CountReached(calls, 1) - CountReached(calls, 2) - CountReached(calls, 3) - CountReached(calls, 4)
      - CountReached(calls, 5)
  }

  // ---------------------------------------------------------------------------
  // How each part of the invariant survives each kind of transition
  // ---------------------------------------------------------------------------

  lemma UpdateFrame(rows: seq<Row>, calls: seq<CallRecord>, c: nat, rec: CallRecord, w: Wakeup)
    requires c < |calls|
    requires w.Tick? || w.call != c
    ensures Awaits(rows, calls[c := rec], w) == Awaits(rows, calls, w)
    ensures WakeTime(rows, calls[c := rec], w) == WakeTime(rows, calls, w)
  {
  }

  lemma CallsOkUpdate(rows: seq<Row>, calls: seq<CallRecord>, now: real, c: nat, rec: CallRecord)
    requires |calls| <= |rows| && c < |calls|
    requires CallsOk(rows, calls, now) && CallOk(rows, c, rec, now)
    ensures CallsOk(rows, calls[c := rec], now)
  {
    var calls' := calls[c := rec];
    forall d: nat ensures CallAt(rows, calls', now, d) {
      assert CallAt(rows, calls, now, d);
    }
  }

  lemma CallsOkAppend(rows: seq<Row>, calls: seq<CallRecord>, now: real, rec: CallRecord)
    requires |calls| < |rows|
    requires CallsOk(rows, calls, now) && CallOk(rows, |calls|, rec, now)
    ensures CallsOk(rows, calls + [rec], now)
  {
    var calls' := calls + [rec];
    forall d: nat ensures CallAt(rows, calls', now, d) {
      assert CallAt(rows, calls, now, d);
    }
  }

  lemma CallsOkLater(rows: seq<Row>, calls: seq<CallRecord>, now: real, later: real)
    requires |calls| <= |rows| && now <= later
    requires CallsOk(rows, calls, now)
    ensures CallsOk(rows, calls, later)
  {
    forall d: nat ensures CallAt(rows, calls, later, d) {
      assert CallAt(rows, calls, now, d);
    }
  }

  // Pending wake-ups

  lemma InitialPending(rows: seq<Row>, pending: map<Wakeup, Key>)
    requires 0 < |rows| ==> pending.Keys == {Tick} && pending[Tick].major == rows[0].interarrival
    requires |rows| == 0 ==> pending == map[]
    ensures PendingOk(rows, [], pending, None)
  {
    forall w: Wakeup ensures PendingAt(rows, [], pending, None, w) {
      if 0 < |rows| {
        assert w in pending <==> w in pending.Keys;
        assert Elapsed(rows, 1) == rows[0].interarrival;
      }
    }
  }

  /**
   * The generator spawns call `|calls|` and, if rows remain, waits for the
   * next gap; the new call's start is being handled.
   */
  lemma SpawnPending(rows: seq<Row>, calls: seq<CallRecord>, pending: map<Wakeup, Key>, rec: CallRecord,
                     k2: Key, pending': map<Wakeup, Key>)
    requires |calls| < |rows|
    requires PendingOk(rows, calls, pending, Some(Tick))
    requires rec.phase == Arrived
    requires |calls| + 1 < |rows| ==> k2.major == rec.arrival + rows[|calls| + 1].interarrival
    requires rec.arrival == Elapsed(rows, |calls| + 1)
    requires pending' == if |calls| + 1 < |rows| then pending[Tick := k2] else pending
    ensures PendingOk(rows, calls + [rec], pending', Some(Start(|calls|)))
  {
    var calls' := calls + [rec];
    forall w: Wakeup ensures PendingAt(rows, calls', pending', Some(Start(|calls|)), w) {
      assert PendingAt(rows, calls, pending, Some(Tick), w);
      match w
      case Tick =>
      case Start(d) =>
        if d < |calls| { assert calls'[d] == calls[d]; }
      case Resume(d) =>
        if d < |calls| { assert calls'[d] == calls[d]; }
    }
  }

  /** Call `c`, resumed by `w0`, moves to `rec`; if it now awaits a resumption, that wake-up is scheduled with `key`. */
  lemma AdvancePending(rows: seq<Row>, calls: seq<CallRecord>, pending: map<Wakeup, Key>, c: nat, w0: Wakeup,
                       rec: CallRecord, key: Key, pending': map<Wakeup, Key>)
    requires c < |calls| && (w0 == Start(c) || w0 == Resume(c)) && Awaits(rows, calls, w0)
    requires PendingOk(rows, calls, pending, Some(w0))
    requires rec.phase != Arrived
    requires Awaits(rows, calls[c := rec], Resume(c)) ==> key.major == WakeTime(rows, calls[c := rec], Resume(c))
    requires pending' == if Awaits(rows, calls[c := rec], Resume(c)) then pending[Resume(c) := key] else pending
    ensures PendingOk(rows, calls[c := rec], pending', None)
  {
    var calls' := calls[c := rec];
    forall w: Wakeup ensures PendingAt(rows, calls', pending', None, w) {
      assert PendingAt(rows, calls, pending, Some(w0), w);
      if w.Tick? || w.call != c {
        UpdateFrame(rows, calls, c, rec, w);
      }
    }
  }

  /** While `c`'s release is handled, waiting call `d` is granted the unit and waits for the grant to be processed. */
  lemma GrantPending(rows: seq<Row>, calls: seq<CallRecord>, pending: map<Wakeup, Key>, c: nat, d: nat,
                     rec: CallRecord, key: Key)
    requires d < |calls| && c != d && calls[d].phase == Queued && rec.phase == Granted
    requires PendingOk(rows, calls, pending, Some(Resume(c)))
    requires key.major == rec.grant
    ensures PendingOk(rows, calls[d := rec], pending[Resume(d) := key], Some(Resume(c)))
  {
    var calls' := calls[d := rec];
    var pending' := pending[Resume(d) := key];
    forall w: Wakeup ensures PendingAt(rows, calls', pending', Some(Resume(c)), w) {
      assert PendingAt(rows, calls, pending, Some(Resume(c)), w);
      if w.Tick? || w.call != d {
        UpdateFrame(rows, calls, d, rec, w);
      }
    }
  }

  // Measurements

  lemma SpawnMetrics(calls: seq<CallRecord>, m: Metrics, g: seq<nat>, f: seq<nat>, rec: CallRecord)
    requires MetricsOk(calls, m, g, f) && rec.phase == Arrived
    ensures MetricsOk(calls + [rec], m, g, f)
  {
    var calls' := calls + [rec];
    CountAppend(calls, rec, 4);
    CountAppend(calls, rec, 5);
    forall k: nat | k < |g| ensures WaitLinked(calls', m, g, k) {
      assert WaitLinked(calls, m, g, k);
    }
    forall k: nat | k < |f| ensures ServiceLinked(calls', m, f, k) {
      assert ServiceLinked(calls, m, f, k);
    }
  }

  /** A call that has not resumed on its grant moves to another such phase: nothing is measured. */
  lemma QuietMetrics(calls: seq<CallRecord>, m: Metrics, g: seq<nat>, f: seq<nat>, d: nat, rec: CallRecord)
    requires MetricsOk(calls, m, g, f) && d < |calls|
    requires Rank(calls[d].phase) < 4 && Rank(rec.phase) < 4
    ensures MetricsOk(calls[d := rec], m, g, f)
  {
    var calls' := calls[d := rec];
    CountUpdate(calls, d, rec, 4);
    CountUpdate(calls, d, rec, 5);
    forall k: nat | k < |g| ensures WaitLinked(calls', m, g, k) {
      assert WaitLinked(calls, m, g, k);
    }
    forall k: nat | k < |f| ensures ServiceLinked(calls', m, f, k) {
      assert ServiceLinked(calls, m, f, k);
    }
  }

  /** Call `d` resumes on its grant: its wait is appended. */
  lemma ServeMetrics(calls: seq<CallRecord>, m: Metrics, g: seq<nat>, f: seq<nat>, d: nat, rec: CallRecord)
    requires MetricsOk(calls, m, g, f) && d < |calls|
    requires calls[d].phase == Granted && rec.phase == InService
    ensures MetricsOk(calls[d := rec], m.(waitTimes := m.waitTimes + [rec.grant - rec.queueEntry]), g + [d], f)
  {
    var calls' := calls[d := rec];
    var m' := m.(waitTimes := m.waitTimes + [rec.grant - rec.queueEntry]);
    CountUpdate(calls, d, rec, 4);
    CountUpdate(calls, d, rec, 5);
    forall i | 0 <= i < |g| ensures g[i] != d {
      assert WaitLinked(calls, m, g, i);
    }
    forall k: nat | k < |g| + 1 ensures WaitLinked(calls', m', g + [d], k) {
      if k < |g| {
        assert WaitLinked(calls, m, g, k);
      }
    }
    forall k: nat | k < |f| ensures ServiceLinked(calls', m', f, k) {
      assert ServiceLinked(calls, m, f, k);
    }
  }

  /** Call `c` completes: its service time is appended and it is counted as served. */
  lemma FinishMetrics(calls: seq<CallRecord>, m: Metrics, g: seq<nat>, f: seq<nat>, c: nat, rec: CallRecord)
    requires MetricsOk(calls, m, g, f) && c < |calls| && calls[c].phase == InService
    requires rec == calls[c].(phase := Completed, finish := rec.finish)
    ensures MetricsOk(calls[c := rec], m.(serviceTimes := m.serviceTimes + [rec.service], served := m.served + 1), g, f + [c])
  {
    var calls' := calls[c := rec];
    var m' := m.(serviceTimes := m.serviceTimes + [rec.service], served := m.served + 1);
    CountUpdate(calls, c, rec, 4);
    CountUpdate(calls, c, rec, 5);
    forall k: nat | k < |g| ensures WaitLinked(calls', m', g, k) {
      assert WaitLinked(calls, m, g, k);
    }
    forall i | 0 <= i < |f| ensures f[i] != c {
      assert ServiceLinked(calls, m, f, i);
    }
    forall k: nat | k < |f| + 1 ensures ServiceLinked(calls', m', f + [c], k) {
      if k < |f| {
        assert ServiceLinked(calls, m, f, k);
      }
    }
  }

  // First come, first served

  lemma CallOrderAppend(calls: seq<CallRecord>, rec: CallRecord)
    requires CallOrderOk(calls) && rec.phase == Arrived
    ensures CallOrderOk(calls + [rec])
  {
  }

  /** Call `c`, the first not to have requested, is granted at once: every earlier call already was. */
  lemma CallOrderAdmit(calls: seq<CallRecord>, c: nat, rec: CallRecord)
    requires CallOrderOk(calls) && c < |calls| && calls[c].phase == Arrived && rec.phase == Granted
    requires forall i :: 0 <= i < c ==> Rank(calls[i].phase) >= 3 && calls[i].grant <= rec.grant
    ensures CallOrderOk(calls[c := rec])
  {
  }

  /** Call `c`, the first not to have requested, has to wait. */
  lemma CallOrderEnqueue(calls: seq<CallRecord>, c: nat, rec: CallRecord)
    requires CallOrderOk(calls) && c < |calls| && calls[c].phase == Arrived && rec.phase == Queued
    requires forall i :: 0 <= i < c ==> calls[i].phase != Arrived
    ensures CallOrderOk(calls[c := rec])
  {
  }

  /** Waiting call `d` is granted a unit after every earlier call. */
  lemma CallOrderHand(calls: seq<CallRecord>, d: nat, rec: CallRecord)
    requires CallOrderOk(calls) && d < |calls| && calls[d].phase == Queued && rec.phase == Granted
    requires forall i :: 0 <= i < d ==> Rank(calls[i].phase) >= 3 && calls[i].grant <= rec.grant
    ensures CallOrderOk(calls[d := rec])
  {
  }

  /** A granted call moves on, keeping its grant. */
  lemma CallOrderSame(calls: seq<CallRecord>, c: nat, rec: CallRecord)
    requires CallOrderOk(calls) && c < |calls|
    requires Rank(calls[c].phase) >= 3 && Rank(rec.phase) >= 3 && rec.grant == calls[c].grant
    ensures CallOrderOk(calls[c := rec])
  {
  }

  lemma QueueRemove(queue: map<nat, Key>, d: nat)
    requires QueueOk(queue)
    ensures QueueOk(queue - {d})
  {
    var queue' := queue - {d};
    forall i: nat, j: nat ensures QueueOrdered(queue', i, j) {
      assert QueueOrdered(queue, i, j);
    }
  }

  /** A request joins the queue behind every waiting one. */
  lemma QueueAdd(queue: map<nat, Key>, c: nat, key: Key)
    requires QueueOk(queue)
    requires forall i :: i in queue ==> i < c && queue[i].seqno < key.seqno
    ensures QueueOk(queue[c := key])
  {
    var queue' := queue[c := key];
    forall i: nat, j: nat ensures QueueOrdered(queue', i, j) {
      assert QueueOrdered(queue, i, j);
    }
  }

  /** The waiting call released units go to is the first in row order, after every granted call. */
  lemma NextInLine(rows: seq<Row>, calls: seq<CallRecord>, now: real, users: set<nat>, queue: map<nat, Key>, c: nat, d: nat)
    requires |calls| <= |rows| && CallsOk(rows, calls, now) && UnitsOk(calls, users, queue)
    requires CallOrderOk(calls) && QueueOk(queue)
    requires IsEarliest(queue, d)
    requires c < |calls| && Rank(calls[c].phase) >= 3
    ensures d < |calls| && calls[d].phase == Queued && c < d
    ensures forall i :: 0 <= i < d ==> Rank(calls[i].phase) >= 3
  {
    assert UnitAt(calls, users, queue, d);
    forall i | 0 <= i < d ensures Rank(calls[i].phase) >= 3 {
      assert UnitAt(calls, users, queue, i);
      assert CallAt(rows, calls, now, i) && CallAt(rows, calls, now, d);
      assert QueueOrdered(queue, i, d);
    }
  }

  // One unit

  lemma SerialAppend(rows: seq<Row>, calls: seq<CallRecord>, m: Metrics, g: seq<nat>, f: seq<nat>, rec: CallRecord)
    requires |calls| < |rows| && SerialOk(rows, calls, g, f, None) && MetricsOk(calls, m, g, f)
    requires rec.phase == Arrived
    ensures SerialOk(rows, calls + [rec], g, f, None)
  {
    var calls' := calls + [rec];
    forall i: nat, j: nat ensures ServedBefore(calls', None, i, j) {
      assert ServedBefore(calls, None, i, j);
    }
    forall j: nat ensures OnTime(rows, calls', j) {
      assert OnTime(rows, calls, j);
    }
    if 0 < |g| {
      assert WaitLinked(calls, m, g, |g| - 1);
    }
    if 0 < |f| {
      assert ServiceLinked(calls, m, f, |f| - 1);
    }
  }

  /** A call that keeps its standing (granted or not, measured or not, completed or not) keeps the serial facts. */
  lemma SerialSame(rows: seq<Row>, calls: seq<CallRecord>, g: seq<nat>, f: seq<nat>, c: nat, rec: CallRecord)
    requires |calls| <= |rows| && SerialOk(rows, calls, g, f, None)
    requires c < |calls| && rec.grant == calls[c].grant
    requires (Rank(rec.phase) >= 3) == (Rank(calls[c].phase) >= 3)
    requires (Rank(rec.phase) >= 4) == (Rank(calls[c].phase) >= 4)
    requires (rec.phase == Completed) == (calls[c].phase == Completed)
    ensures SerialOk(rows, calls[c := rec], g, f, None)
  {
    var calls' := calls[c := rec];
    forall i: nat, j: nat ensures ServedBefore(calls', None, i, j) {
      assert ServedBefore(calls, None, i, j);
    }
    forall j: nat ensures OnTime(rows, calls', j) {
      assert OnTime(rows, calls, j);
    }
  }

  /** Updating a call without changing whether it has been measured or has completed keeps both lists in row order. */
  lemma SerialListsSame(calls: seq<CallRecord>, g: seq<nat>, f: seq<nat>, c: nat, rec: CallRecord)
    requires SerialLists(calls, g, f) && c < |calls|
    requires (Rank(rec.phase) >= 4) == (Rank(calls[c].phase) >= 4)
    requires (rec.phase == Completed) == (calls[c].phase == Completed)
    ensures SerialLists(calls[c := rec], g, f)
  {
  }

  /** On one unit, a call granted at arrival finds its predecessor finished: it starts at its arrival, the closed form. */
  lemma SerialAdmit(rows: seq<Row>, calls: seq<CallRecord>, now: real, g: seq<nat>, f: seq<nat>, c: nat, rec: CallRecord)
    requires |calls| <= |rows| && SerialOk(rows, calls, g, f, None)
    requires c < |calls| && calls[c].phase == Arrived && now == calls[c].arrival
    requires CallAt(rows, calls, now, c) && (0 < c ==> CallAt(rows, calls, now, c - 1))
    requires rec == calls[c].(phase := Granted, queueEntry := now, grant := now)
    requires forall i :: 0 <= i < c ==> calls[i].phase == Completed
    ensures SerialOk(rows, calls[c := rec], g, f, None)
  {
    var calls' := calls[c := rec];
    if 0 < c {
      assert OnTime(rows, calls, c - 1);
      assert calls[c - 1].grant + calls[c - 1].service <= now;
    }
    assert OnTime(rows, calls', c);
    forall i: nat, j: nat ensures ServedBefore(calls', None, i, j) {
      assert ServedBefore(calls, None, i, j);
    }
    forall j: nat | j != c ensures OnTime(rows, calls', j) {
      assert OnTime(rows, calls, j);
    }
    SerialListsSame(calls, g, f, c, rec);
  }

  lemma SerialEnqueue(rows: seq<Row>, calls: seq<CallRecord>, g: seq<nat>, f: seq<nat>, c: nat, rec: CallRecord)
    requires |calls| <= |rows| && SerialOk(rows, calls, g, f, None)
    requires c < |calls| && calls[c].phase == Arrived && rec.phase == Queued
    ensures SerialOk(rows, calls[c := rec], g, f, None)
  {
    var calls' := calls[c := rec];
    forall i: nat, j: nat ensures ServedBefore(calls', None, i, j) {
      assert ServedBefore(calls, None, i, j);
    }
    forall j: nat ensures OnTime(rows, calls', j) {
      assert OnTime(rows, calls, j);
    }
  }

  /** On one unit, the call resuming on its grant is the next one whose wait is measured. */
  lemma SerialServe(rows: seq<Row>, calls: seq<CallRecord>, g: seq<nat>, f: seq<nat>, c: nat, rec: CallRecord)
    requires |calls| <= |rows| && SerialOk(rows, calls, g, f, None)
    requires c < |calls| && calls[c].phase == Granted
    requires rec == calls[c].(phase := InService, service := rec.service)
    ensures |g| == c
    ensures SerialOk(rows, calls[c := rec], g + [c], f, None)
  {
    if 0 < c {
      assert ServedBefore(calls, None, c - 1, c);
    }
    var calls' := calls[c := rec];
    forall i: nat, j: nat ensures ServedBefore(calls', None, i, j) {
      assert ServedBefore(calls, None, i, j);
    }
    forall j: nat ensures OnTime(rows, calls', j) {
      assert OnTime(rows, calls, j);
    }
  }

  /** On one unit, the unit passes from `c` to `c + 1`, which starts at the closed-form instant. */
  lemma SerialHand(rows: seq<Row>, calls: seq<CallRecord>, now: real, g: seq<nat>, f: seq<nat>, c: nat, rec: CallRecord)
    requires |calls| <= |rows| && SerialOk(rows, calls, g, f, None)
    requires c + 1 < |calls| && calls[c].phase == InService && calls[c + 1].phase == Queued
    requires calls[c].service == rows[c].serviceTime && Elapsed(rows, c + 2) <= now
    requires now == calls[c].grant + calls[c].service
    requires rec == calls[c + 1].(phase := Granted, grant := now)
    ensures SerialOk(rows, calls[c + 1 := rec], g, f, Some(c))
  {
    var calls' := calls[c + 1 := rec];
    forall i: nat, j: nat ensures ServedBefore(calls', Some(c), i, j) {
      if j == c + 1 && i < c {
        assert ServedBefore(calls, None, i, c);
      } else {
        assert ServedBefore(calls, None, i, j);
      }
    }
    assert OnTime(rows, calls, c);
    forall j: nat ensures OnTime(rows, calls', j) {
      assert OnTime(rows, calls, j);
    }
  }

  /** Releasing a unit nobody waits for leaves the serial facts as they were. */
  lemma SerialRelax(rows: seq<Row>, calls: seq<CallRecord>, g: seq<nat>, f: seq<nat>, c: nat)
    requires |calls| <= |rows| && SerialOk(rows, calls, g, f, None)
    ensures SerialOk(rows, calls, g, f, Some(c))
  {
    forall i: nat, j: nat ensures ServedBefore(calls, Some(c), i, j) {
      assert ServedBefore(calls, None, i, j);
    }
  }

  /** On one unit, the call completing is the next one whose service time is measured. */
  lemma SerialFinish(rows: seq<Row>, calls: seq<CallRecord>, g: seq<nat>, f: seq<nat>, c: nat, rec: CallRecord)
    requires |calls| <= |rows| && SerialOk(rows, calls, g, f, Some(c))
    requires c < |calls| && calls[c].phase == InService
    requires rec == calls[c].(phase := Completed, finish := rec.finish)
    ensures |f| == c
    ensures SerialOk(rows, calls[c := rec], g, f + [c], None)
  {
    if 0 < c {
      assert ServedBefore(calls, Some(c), c - 1, c);
    }
    var calls' := calls[c := rec];
    forall i: nat, j: nat ensures ServedBefore(calls', None, i, j) {
      assert ServedBefore(calls, Some(c), i, j);
    }
    forall j: nat ensures OnTime(rows, calls', j) {
      assert OnTime(rows, calls, j);
    }
  }

  // ---------------------------------------------------------------------------
  // Whole transitions: each keeps the invariant and uses up one event
  // ---------------------------------------------------------------------------

  /** The state before the first event: no calls, the generator waiting for the first gap. */
  lemma InitialStep(rows: seq<Row>, capacity: nat, pending: map<Wakeup, Key>, key: Key)
    requires WellFormed(rows)
    requires 0 < |rows| ==> pending == map[Tick := key] && key.major == rows[0].interarrival
    requires |rows| == 0 ==> pending == map[]
    ensures Good(rows, capacity, [], 0.0, pending, None, {}, map[], Metrics([], [], 0), [], [], None)
  {
    if 0 < |rows| {
      assert pending.Keys == {Tick};
    }
    InitialPending(rows, pending);
    EmptyUnits();
    forall i: nat, j: nat ensures QueueOrdered(map[], i, j) { }
  }

  /** The earliest pending wake-up is taken out and the clock moves to its time; it is never a process start. */
  lemma PopStep(rows: seq<Row>, capacity: nat, calls: seq<CallRecord>, now: real, pending: map<Wakeup, Key>,
                users: set<nat>, queue: map<nat, Key>, m: Metrics, g: seq<nat>, f: seq<nat>, w: Wakeup, later: real)
    requires Good(rows, capacity, calls, now, pending, None, users, queue, m, g, f, None)
    requires IsEarliest(pending, w) && later == pending[w].major && now <= later
    ensures Good(rows, capacity, calls, later, pending - {w}, Some(w), users, queue, m, g, f, None)
    ensures Awaits(rows, calls, w) && later == WakeTime(rows, calls, w)
    ensures !w.Start?
  {
    assert PendingAt(rows, calls, pending, None, w);
    CallsOkLater(rows, calls, now, later);
    var pending' := pending - {w};
    forall v: Wakeup ensures PendingAt(rows, calls, pending', Some(w), v) {
      assert PendingAt(rows, calls, pending, None, v);
    }
  }

  /**
   * The generator spawns call `|calls|`, whose process starts at once. Every
   * earlier call has already made its request, since no start is left pending.
   */
  lemma SpawnStep(rows: seq<Row>, capacity: nat, calls: seq<CallRecord>, now: real, pending: map<Wakeup, Key>,
                  users: set<nat>, queue: map<nat, Key>, m: Metrics, g: seq<nat>, f: seq<nat>,
                  rec: CallRecord, k2: Key, pending': map<Wakeup, Key>)
    requires Good(rows, capacity, calls, now, pending, Some(Tick), users, queue, m, g, f, None)
    requires Awaits(rows, calls, Tick) && now == WakeTime(rows, calls, Tick)
    requires rec == CallRecord(Arrived, 0, now, 0.0, 0.0, 0.0, 0.0)
    requires |calls| + 1 < |rows| ==> k2.major == now + rows[|calls| + 1].interarrival
    requires pending' == if |calls| + 1 < |rows| then pending[Tick := k2] else pending
    ensures Good(rows, capacity, calls + [rec], now, pending', Some(Start(|calls|)), users, queue, m, g, f, None)
    ensures forall i :: 0 <= i < |calls| ==> calls[i].phase != Arrived
    ensures Measure(rows, calls + [rec]) < Measure(rows, calls)
  {
    var calls' := calls + [rec];
    forall r: nat | 1 <= r ensures CountReached(calls', r) == CountReached(calls, r) {
      CountAppend(calls, rec, r);
    }
    CallsOkAppend(rows, calls, now, rec);
    SpawnPending(rows, calls, pending, rec, k2, pending');
    forall e: nat ensures UnitAt(calls', users, queue, e) {
      assert UnitAt(calls, users, queue, e);
    }
    SpawnMetrics(calls, m, g, f, rec);
    CallOrderAppend(calls, rec);
    forall i | 0 <= i < |calls| ensures calls[i].phase != Arrived {
      assert PendingAt(rows, calls, pending, Some(Tick), Start(i));
    }
    if capacity == 1 {
      SerialAppend(rows, calls, m, g, f, rec);
    }
  }

  /** The first call yet to request a unit finds one free: every earlier call has been granted (on one unit: has completed). */
  lemma AdmitStep(rows: seq<Row>, capacity: nat, calls: seq<CallRecord>, now: real, pending: map<Wakeup, Key>,
                  users: set<nat>, queue: map<nat, Key>, m: Metrics, g: seq<nat>, f: seq<nat>,
                  c: nat, rec: CallRecord, key: Key)
    requires Good(rows, capacity, calls, now, pending, Some(Start(c)), users, queue, m, g, f, None)
    requires c < |calls| && calls[c].phase == Arrived && now == WakeTime(rows, calls, Start(c))
    requires forall i :: 0 <= i < c ==> calls[i].phase != Arrived
    requires queue == map[] && |users| < capacity
    requires rec == calls[c].(phase := Granted, queueEntry := now, grant := now)
    requires key.major == now
    ensures Good(rows, capacity, calls[c := rec], now, pending[Resume(c) := key], None, users + {c}, queue, m, g, f, None)
    ensures Measure(rows, calls[c := rec]) < Measure(rows, calls)
  {
    assert CallAt(rows, calls, now, c);
    CountsUpdate(calls, c, rec);
    CallsOkUpdate(rows, calls, now, c, rec);
    AdvancePending(rows, calls, pending, c, Start(c), rec, key, pending[Resume(c) := key]);
    AdmitUnits(calls, users, queue, c, rec);
    QuietMetrics(calls, m, g, f, c, rec);
    forall i | 0 <= i < c ensures Rank(calls[i].phase) >= 3 && calls[i].grant <= rec.grant {
      assert UnitAt(calls, users, queue, i) && CallAt(rows, calls, now, i);
    }
    CallOrderAdmit(calls, c, rec);
    if capacity == 1 {
      assert users == {};
      forall i | 0 <= i < c ensures calls[i].phase == Completed {
        assert UnitAt(calls, users, queue, i);
      }
      if 0 < c {
        assert CallAt(rows, calls, now, c - 1);
      }
      SerialAdmit(rows, calls, now, g, f, c, rec);
    }
  }

  /** The first call yet to request a unit finds them all busy and joins the queue behind every waiting call. */
  lemma EnqueueStep(rows: seq<Row>, capacity: nat, calls: seq<CallRecord>, now: real, pending: map<Wakeup, Key>,
                    users: set<nat>, queue: map<nat, Key>, m: Metrics, g: seq<nat>, f: seq<nat>,
                    c: nat, rec: CallRecord, key: Key)
    requires Good(rows, capacity, calls, now, pending, Some(Start(c)), users, queue, m, g, f, None)
    requires c < |calls| && calls[c].phase == Arrived && now == WakeTime(rows, calls, Start(c))
    requires forall i :: 0 <= i < c ==> calls[i].phase != Arrived
    requires SeqnosBelow(queue, key.seqno) && key.major == 0.0
    requires rec == calls[c].(phase := Queued, queueEntry := now)
    ensures Good(rows, capacity, calls[c := rec], now, pending, None, users, queue[c := key], m, g, f, None)
    ensures Measure(rows, calls[c := rec]) < Measure(rows, calls)
  {
    assert CallAt(rows, calls, now, c);
    CountsUpdate(calls, c, rec);
    CallsOkUpdate(rows, calls, now, c, rec);
    AdvancePending(rows, calls, pending, c, Start(c), rec, key, pending);
    EnqueueUnits(calls, users, queue, c, rec, key);
    QuietMetrics(calls, m, g, f, c, rec);
    CallOrderEnqueue(calls, c, rec);
    forall i | i in queue ensures i < c && queue[i].seqno < key.seqno {
      assert UnitAt(calls, users, queue, i);
    }
    QueueAdd(queue, c, key);
    if capacity == 1 {
      SerialEnqueue(rows, calls, g, f, c, rec);
    }
  }

  /** Call `c` resumes on its granted request: its wait since arrival is measured and its service starts. */
  lemma ServeStep(rows: seq<Row>, capacity: nat, calls: seq<CallRecord>, now: real, pending: map<Wakeup, Key>,
                  users: set<nat>, queue: map<nat, Key>, m: Metrics, g: seq<nat>, f: seq<nat>,
                  c: nat, rec: CallRecord, key: Key)
    requires Good(rows, capacity, calls, now, pending, Some(Resume(c)), users, queue, m, g, f, None)
    requires c < |calls| && calls[c].phase == Granted && now == WakeTime(rows, calls, Resume(c))
    requires rec == calls[c].(phase := InService, service := rows[c].serviceTime)
    requires key.major == now + rows[c].serviceTime
    ensures Good(rows, capacity, calls[c := rec], now, pending[Resume(c) := key], None, users, queue,
                 m.(waitTimes := m.waitTimes + [now - calls[c].arrival]), g + [c], f, None)
    ensures capacity == 1 ==> |g| == c
    ensures Measure(rows, calls[c := rec]) < Measure(rows, calls)
  {
    assert CallAt(rows, calls, now, c);
    CountsUpdate(calls, c, rec);
    CallsOkUpdate(rows, calls, now, c, rec);
    AdvancePending(rows, calls, pending, c, Resume(c), rec, key, pending[Resume(c) := key]);
    SameUnits(calls, users, queue, c, rec);
    ServeMetrics(calls, m, g, f, c, rec);
    CallOrderSame(calls, c, rec);
    if capacity == 1 {
      SerialServe(rows, calls, g, f, c, rec);
    }
  }

  /**
   * Call `c` gives its unit back and it passes to `d`, the earliest waiting
   * request: every call before `d` has already been granted, and on one unit
   * `d` is the call right after `c`.
   */
  lemma HandStep(rows: seq<Row>, capacity: nat, calls: seq<CallRecord>, now: real, pending: map<Wakeup, Key>,
                 users: set<nat>, queue: map<nat, Key>, m: Metrics, g: seq<nat>, f: seq<nat>,
                 c: nat, d: nat, rec: CallRecord, key: Key)
    requires Good(rows, capacity, calls, now, pending, Some(Resume(c)), users, queue, m, g, f, None)
    requires c < |calls| && calls[c].phase == InService && now == WakeTime(rows, calls, Resume(c))
    requires IsEarliest(queue, d) && d < |calls|
    requires rec == calls[d].(phase := Granted, grant := now)
    requires key.major == now
    ensures d != c && c in users && calls[d].phase == Queued
    ensures forall i :: 0 <= i < d ==> Rank(calls[i].phase) >= 3
    ensures capacity == 1 ==> d == c + 1
    ensures Good(rows, capacity, calls[d := rec], now, pending[Resume(d) := key], Some(Resume(c)), users + {d}, queue - {d},
                 m, g, f, Some(c))
    ensures calls[d := rec][c] == calls[c] && now == WakeTime(rows, calls[d := rec], Resume(c))
    ensures Measure(rows, calls[d := rec]) < Measure(rows, calls)
  {
    NextInLine(rows, calls, now, users, queue, c, d);
    assert UnitAt(calls, users, queue, c) && CallAt(rows, calls, now, c) && CallAt(rows, calls, now, d);
    CountsUpdate(calls, d, rec);
    CallsOkUpdate(rows, calls, now, d, rec);
    GrantPending(rows, calls, pending, c, d, rec, key);
    GrantUnits(calls, users, queue, d, rec);
    QuietMetrics(calls, m, g, f, d, rec);
    forall i | 0 <= i < d ensures Rank(calls[i].phase) >= 3 && calls[i].grant <= rec.grant {
      assert CallAt(rows, calls, now, i);
    }
    CallOrderHand(calls, d, rec);
    QueueRemove(queue, d);
    UpdateFrame(rows, calls, d, rec, Resume(c));
    if capacity == 1 {
      assert ServedBefore(calls, None, c, d - 1);
      SerialHand(rows, calls, now, g, f, c, rec);
    }
  }

  /** Call `c` gives its unit back and nobody is waiting for it. */
  lemma FreeStep(rows: seq<Row>, capacity: nat, calls: seq<CallRecord>, now: real, pending: map<Wakeup, Key>,
                 users: set<nat>, m: Metrics, g: seq<nat>, f: seq<nat>, c: nat)
    requires Good(rows, capacity, calls, now, pending, Some(Resume(c)), users, map[], m, g, f, None)
    ensures Good(rows, capacity, calls, now, pending, Some(Resume(c)), users, map[], m, g, f, Some(c))
  {
    if capacity == 1 {
      SerialRelax(rows, calls, g, f, c);
    }
  }

  /** Call `c`, its unit given back, completes: its service time is measured and it is counted as served. */
  lemma FinishStep(rows: seq<Row>, capacity: nat, calls: seq<CallRecord>, now: real, pending: map<Wakeup, Key>,
                   users: set<nat>, queue: map<nat, Key>, m: Metrics, g: seq<nat>, f: seq<nat>,
                   c: nat, rec: CallRecord)
    requires Good(rows, capacity, calls, now, pending, Some(Resume(c)), users + {c}, queue, m, g, f, Some(c))
    requires c !in users
    requires c < |calls| && calls[c].phase == InService && now == WakeTime(rows, calls, Resume(c))
    requires rec == calls[c].(phase := Completed, finish := now)
    ensures Good(rows, capacity, calls[c := rec], now, pending, None, users, queue,
                 m.(serviceTimes := m.serviceTimes + [rows[c].serviceTime], served := m.served + 1), g, f + [c], None)
    ensures capacity == 1 ==> |f| == c
    ensures Measure(rows, calls[c := rec]) < Measure(rows, calls)
  {
    assert CallAt(rows, calls, now, c);
    CountsUpdate(calls, c, rec);
    CallsOkUpdate(rows, calls, now, c, rec);
    AdvancePending(rows, calls, pending, c, Resume(c), rec, Key(0.0, 0), pending);
    ReleaseUnits(calls, users + {c}, queue, c, rec);
    assert users + {c} - {c} == users;
    FinishMetrics(calls, m, g, f, c, rec);
    CallOrderSame(calls, c, rec);
    if capacity == 1 {
      SerialFinish(rows, calls, g, f, c, rec);
    }
  }

  /** With nothing pending, every row's call has arrived and completed, and the pool is idle. */
  lemma Drained(rows: seq<Row>, capacity: nat, calls: seq<CallRecord>, now: real, users: set<nat>, queue: map<nat, Key>,
                m: Metrics, g: seq<nat>, f: seq<nat>)
    requires Good(rows, capacity, calls, now, map[], None, users, queue, m, g, f, None)
    requires 1 <= capacity && (queue != map[] ==> |users| == capacity)
    ensures |calls| == |rows|
    ensures forall c :: 0 <= c < |calls| ==> calls[c].phase == Completed
    ensures users == {} && queue == map[]
  {
    assert PendingAt(rows, calls, map[], None, Tick);
    forall u: nat ensures u !in users {
      assert UnitAt(calls, users, queue, u);
      assert PendingAt(rows, calls, map[], None, Resume(u));
    }
    assert users == {};
    forall c | 0 <= c < |calls| ensures calls[c].phase == Completed {
      assert UnitAt(calls, users, queue, c) && CallAt(rows, calls, now, c);
      assert PendingAt(rows, calls, map[], None, Start(c)) && PendingAt(rows, calls, map[], None, Resume(c));
    }
  }

  /** The service-time column of the rows. */
  function ServiceColumn(rows: seq<Row>): (s: seq<real>)
    ensures |s| == |rows| && forall k :: 0 <= k < |rows| ==> s[k] == rows[k].serviceTime
  {
    seq(|rows|, k requires 0 <= k < |rows| => rows[k].serviceTime)
  }

  /** What the measurements say once every call has completed. */
  lemma FinalMetrics(rows: seq<Row>, calls: seq<CallRecord>, now: real, m: Metrics, g: seq<nat>, f: seq<nat>)
    requires |calls| == |rows|
    requires CallsOk(rows, calls, now) && MetricsOk(calls, m, g, f) && CallOrderOk(calls)
    requires forall c :: 0 <= c < |calls| ==> calls[c].phase == Completed
    ensures m.served == |rows| && |m.waitTimes| == |rows| && |m.serviceTimes| == |rows|
    ensures |g| == |rows| && |f| == |rows|
    ensures forall k :: 0 <= k < |g| ==> g[k] < |rows|
    ensures forall i, j :: 0 <= i < j < |g| ==> g[i] != g[j]
    ensures forall k :: 0 <= k < |f| ==> f[k] < |rows|
    ensures forall i, j :: 0 <= i < j < |f| ==> f[i] != f[j]
    ensures forall k :: 0 <= k < |g| ==>
              m.waitTimes[k] == calls[g[k]].grant - calls[g[k]].arrival && 0.0 <= m.waitTimes[k]
    ensures forall k :: 0 <= k < |f| ==> m.serviceTimes[k] == rows[f[k]].serviceTime
    ensures forall i :: 0 <= i < |calls| ==> calls[i].arrival == Elapsed(rows, i + 1) && calls[i].arrival <= calls[i].grant
    ensures forall i, j :: 0 <= i < j < |calls| ==> calls[i].grant <= calls[j].grant
  {
    forall i | 0 <= i < |calls| ensures calls[i].arrival == Elapsed(rows, i + 1) && calls[i].arrival <= calls[i].grant {
      assert CallAt(rows, calls, now, i);
    }
    CountAllCompleted(calls, 4);
    CountAllCompleted(calls, 5);
    forall k | 0 <= k < |g|
      ensures g[k] < |rows|
      ensures m.waitTimes[k] == calls[g[k]].grant - calls[g[k]].arrival && 0.0 <= m.waitTimes[k]
    {
      assert WaitLinked(calls, m, g, k);
      assert CallAt(rows, calls, now, g[k]);
    }
    forall k | 0 <= k < |f| ensures f[k] < |rows| && m.serviceTimes[k] == rows[f[k]].serviceTime {
      assert ServiceLinked(calls, m, f, k);
      assert CallAt(rows, calls, now, f[k]);
    }
  }

  /** On a single unit, the measured waits are the closed-form ones and the service times are the rows' own, in row order. */
  lemma FinalSerial(rows: seq<Row>, calls: seq<CallRecord>, now: real, m: Metrics, g: seq<nat>, f: seq<nat>)
    requires |calls| == |rows|
    requires CallsOk(rows, calls, now) && MetricsOk(calls, m, g, f) && SerialOk(rows, calls, g, f, None)
    requires forall c :: 0 <= c < |calls| ==> calls[c].phase == Completed
    ensures m.waitTimes == SerialWaits(rows) && m.serviceTimes == ServiceColumn(rows)
  {
    CountAllCompleted(calls, 4);
    CountAllCompleted(calls, 5);
    forall k | 0 <= k < |rows| ensures m.waitTimes[k] == SerialWaits(rows)[k] {
      assert OnTime(rows, calls, k) && CallAt(rows, calls, now, k);
      assert WaitLinked(calls, m, g, k);
    }
    forall k | 0 <= k < |rows| ensures m.serviceTimes[k] == rows[k].serviceTime {
      assert CallAt(rows, calls, now, k);
      assert ServiceLinked(calls, m, f, k);
    }
  }

  // ---------------------------------------------------------------------------
  // One scenario, run event by event
  // ---------------------------------------------------------------------------

  class Scenario {
    const rows: seq<Row>
    const sched: Scheduler<Wakeup>
    /** The pool of units (`simpy.Resource`): every request has the same priority, so waiting is first come, first served. */
    const units: PriorityResource
    /** One record per call spawned so far, in row order. */
    var calls: seq<CallRecord>
    /** The measurements (`metrics`), updated as the calls progress. */
    var metrics: Metrics
    /** The call behind each entry of `metrics.waitTimes`. */
    ghost var grantOrder: seq<nat>
    /** The call behind each entry of `metrics.serviceTimes`. */
    ghost var finishOrder: seq<nat>

    /** The invariant while wake-up `skip` is being handled. */
    ghost predicate Inv(skip: Option<Wakeup>)
      reads this, sched, units
    {
      && sched.Valid()
      && units.Valid()
      && Good(rows, units.capacity, calls, sched.now, sched.pending, skip, units.users, units.queue, metrics,
              grantOrder, finishOrder, None)
    }

    ghost predicate Valid()
      reads this, sched, units
    {
      Inv(None)
    }

    /** Call `c`'s service is over and its unit is back in the pool; `c` has yet to be counted as served. */
    ghost predicate Releasing(c: nat)
      reads this, sched, units
    {
      && sched.Valid()
      && units.Valid()
      && c !in units.users
      && c < |calls| && calls[c].phase == InService
      && sched.now == WakeTime(rows, calls, Resume(c))
      && Good(rows, units.capacity, calls, sched.now, sched.pending, Some(Resume(c)), units.users + {c}, units.queue,
              metrics, grantOrder, finishOrder, Some(c))
    }

    ghost function Remaining(): int
      reads this
    {
      Measure(rows, calls)
    }

    /** A fresh scenario (`run_simulation` before `env.run()`): no calls yet, the generator waits for the first gap. */
    constructor (rows: seq<Row>, capacity: nat)
      requires WellFormed(rows) && 1 <= capacity
      ensures Valid()
      ensures fresh(sched) && fresh(units)
      ensures this.rows == rows && units.capacity == capacity && calls == []
      ensures metrics == Metrics([], [], 0)
      ensures sched.now == 0.0
    {
      var s := new Scheduler<Wakeup>();
      ghost var key := Key(0.0, 0);
      if 0 < |rows| {
        s.Schedule(rows[0].interarrival, Tick);
        key := s.pending[Tick];
      }
      var u := new PriorityResource(capacity);
      InitialStep(rows, capacity, s.pending, key);
      this.rows := rows;
      sched := s;
      units := u;
      calls := [];
      metrics := Metrics([], [], 0);
      grantOrder, finishOrder := [], [];
    }

    /**
     * One iteration of `call_generator`: after its gap, call `c` (the next
     * row) is spawned at the current instant, and the generator waits for the
     * next row's gap if rows remain. The new call's start is left to the
     * caller, which runs it next.
     */
    method Spawn() returns (c: nat)
      requires Inv(Some(Tick)) && Awaits(rows, calls, Tick)
      requires sched.now == WakeTime(rows, calls, Tick)
      modifies this, sched
      ensures Inv(Some(Start(c))) && Awaits(rows, calls, Start(c)) && sched.now == WakeTime(rows, calls, Start(c))
      ensures forall i :: 0 <= i < c ==> calls[i].phase != Arrived
      ensures Remaining() < old(Remaining())
      ensures sched.now == old(sched.now)
      ensures c == |old(calls)| && calls == old(calls) + [CallRecord(Arrived, 0, old(sched.now), 0.0, 0.0, 0.0, 0.0)]
      ensures metrics == old(metrics)
    {
      var cs := calls;
      c := |cs|;
      var now := sched.now;
      var rec := CallRecord(Arrived, 0, now, 0.0, 0.0, 0.0, 0.0);
      ghost var pending := sched.pending;
      assert PendingAt(rows, cs, pending, Some(Tick), Tick);
      ghost var k2 := Key(0.0, 0);
      if c + 1 < |rows| {
        sched.Schedule(rows[c + 1].interarrival, Tick);
        k2 := sched.pending[Tick];
      }
      SpawnStep(rows, units.capacity, cs, now, pending, units.users, units.queue, metrics, grantOrder, finishOrder,
                rec, k2, sched.pending);
      calls := cs + [rec];
    }

    /**
     * The process of call `c` starts (`emergency_call` up to `yield req`), at
     * the instant it was spawned: it
     * notes its arrival and requests a unit. With a unit free the request is
     * granted at once (`granted`) and the call resumes on it at the same
     * instant; otherwise it waits behind the earlier requests.
     */
    method Arrive(c: nat) returns (granted: bool)
      requires Inv(Some(Start(c))) && Awaits(rows, calls, Start(c))
      requires sched.now == WakeTime(rows, calls, Start(c))
      requires forall i :: 0 <= i < c ==> calls[i].phase != Arrived
      modifies this, sched, units
      ensures Valid()
      ensures Remaining() < old(Remaining())
      ensures sched.now == old(sched.now)
      ensures granted <==> |old(units.users)| < units.capacity
      ensures granted ==>
                calls == old(calls)[c := old(calls)[c].(phase := Granted, queueEntry := old(sched.now), grant := old(sched.now))]
      ensures !granted ==> calls == old(calls)[c := old(calls)[c].(phase := Queued, queueEntry := old(sched.now))]
      ensures metrics == old(metrics)
    {
      var cs := calls;
      var now := sched.now;
      ghost var pending, users, queue := sched.pending, units.users, units.queue;
      assert UnitAt(cs, users, queue, c) && PendingAt(rows, cs, pending, Some(Start(c)), Resume(c));
      granted := units.Request(c, 0);
      if granted {
        var rec := cs[c].(phase := Granted, queueEntry := now, grant := now);
        sched.Schedule(0.0, Resume(c));
        AdmitStep(rows, units.capacity, cs, now, pending, users, queue, metrics, grantOrder, finishOrder,
                  c, rec, sched.pending[Resume(c)]);
        calls := cs[c := rec];
      } else {
        var rec := cs[c].(phase := Queued, queueEntry := now);
        EnqueueStep(rows, units.capacity, cs, now, pending, users, queue, metrics, grantOrder, finishOrder,
                    c, rec, units.queue[c]);
        calls := cs[c := rec];
      }
    }

    /**
     * Call `c` resumes on its granted request: its wait since arrival is
     * appended to `wait_times` and its service time starts running.
     */
    method BeginService(c: nat)
      requires Inv(Some(Resume(c)))
      requires c < |calls| && calls[c].phase == Granted
      requires sched.now == WakeTime(rows, calls, Resume(c))
      modifies this, sched
      ensures Valid()
      ensures Remaining() < old(Remaining())
      ensures sched.now == old(sched.now)
      ensures calls == old(calls)[c := old(calls)[c].(phase := InService, service := rows[c].serviceTime)]
      ensures metrics == old(metrics).(waitTimes := old(metrics.waitTimes) + [old(sched.now) - old(calls)[c].arrival])
    {
      var cs, m := calls, metrics;
      var now := sched.now;
      var rec := cs[c].(phase := InService, service := rows[c].serviceTime);
      ghost var pending := sched.pending;
      assert PendingAt(rows, cs, pending, Some(Resume(c)), Resume(c));
      sched.Schedule(rows[c].serviceTime, Resume(c));
      ServeStep(rows, units.capacity, cs, now, pending, units.users, units.queue, m, grantOrder, finishOrder,
                c, rec, sched.pending[Resume(c)]);
      calls := cs[c := rec];
      metrics := m.(waitTimes := m.waitTimes + [now - cs[c].arrival]);
      grantOrder := grantOrder + [c];
    }

    /**
     * Call `c`'s service is over and it leaves the `with` block: its unit is
     * released and passes to the earliest waiting request, if any (returned
     * as `next`), which is granted.
     */
    method ReleaseUnit(c: nat) returns (next: Option<nat>)
      requires Inv(Some(Resume(c)))
      requires c < |calls| && calls[c].phase == InService
      requires sched.now == WakeTime(rows, calls, Resume(c))
      modifies this, sched, units
      ensures Releasing(c)
      ensures Remaining() <= old(Remaining())
      ensures sched.now == old(sched.now) && metrics == old(metrics)
      ensures next.None? <==> old(units.queue) == map[]
      ensures next.None? ==> calls == old(calls)
      ensures next.Some? ==>
                && IsEarliest(old(units.queue), next.value)
                && next.value < |old(calls)| && old(calls)[next.value].phase == Queued
                && (forall i :: 0 <= i < next.value ==> Rank(old(calls)[i].phase) >= 3)
                && (units.capacity == 1 ==> next.value == c + 1)
                && calls == old(calls)[next.value := old(calls)[next.value].(phase := Granted, grant := old(sched.now))]
    {
      if units.queue == map[] {
        FreeUnit(c);
        next := None;
      } else {
        var d := HandOver(c);
        next := Some(d);
      }
    }

    /** `ReleaseUnit` with nobody waiting: the unit becomes free. */
    method FreeUnit(c: nat)
      requires Inv(Some(Resume(c)))
      requires c < |calls| && calls[c].phase == InService
      requires sched.now == WakeTime(rows, calls, Resume(c))
      requires units.queue == map[]
      modifies units
      ensures Releasing(c)
      ensures units.queue == map[]
    {
      ghost var users := units.users;
      assert UnitAt(calls, users, units.queue, c);
      FreeStep(rows, units.capacity, calls, sched.now, sched.pending, users, metrics, grantOrder, finishOrder, c);
      var next := units.Release(c);
      assert units.users + {c} == users;
    }

    /** `ReleaseUnit` with calls waiting: the unit passes to the earliest waiting request `d`. */
    method HandOver(c: nat) returns (d: nat)
      requires Inv(Some(Resume(c)))
      requires c < |calls| && calls[c].phase == InService
      requires sched.now == WakeTime(rows, calls, Resume(c))
      requires units.queue != map[]
      modifies this, sched, units
      ensures Releasing(c)
      ensures Remaining() < old(Remaining())
      ensures sched.now == old(sched.now) && metrics == old(metrics)
      ensures IsEarliest(old(units.queue), d)
      ensures d < |old(calls)| && old(calls)[d].phase == Queued
      ensures forall i :: 0 <= i < d ==> Rank(old(calls)[i].phase) >= 3
      ensures units.capacity == 1 ==> d == c + 1
      ensures calls == old(calls)[d := old(calls)[d].(phase := Granted, grant := old(sched.now))]
    {
      var cs := calls;
      var now := sched.now;
      ghost var pending, users, queue := sched.pending, units.users, units.queue;
      assert UnitAt(cs, users, queue, c);
      var next := units.Release(c);
      d := next.value;
      assert UnitAt(cs, users, queue, d) && PendingAt(rows, cs, pending, Some(Resume(c)), Resume(d));
      var rec := cs[d].(phase := Granted, grant := now);
      sched.Schedule(0.0, Resume(d));
      HandStep(rows, units.capacity, cs, now, pending, users, queue, metrics, grantOrder, finishOrder,
               c, d, rec, sched.pending[Resume(d)]);
      assert units.users + {c} == users + {d};
      calls := cs[d := rec];
    }

    /** Call `c`, its service over, is measured: its service time is appended and it is counted as served. */
    method Finish(c: nat)
      requires Releasing(c)
      modifies this
      ensures Valid()
      ensures Remaining() < old(Remaining())
      ensures calls == old(calls)[c := old(calls)[c].(phase := Completed, finish := sched.now)]
      ensures metrics == old(metrics).(serviceTimes := old(metrics.serviceTimes) + [rows[c].serviceTime],
                                       served := old(metrics.served) + 1)
    {
      var cs, m := calls, metrics;
      var now := sched.now;
      var rec := cs[c].(phase := Completed, finish := now);
      FinishStep(rows, units.capacity, cs, now, sched.pending, units.users, units.queue, m, grantOrder, finishOrder, c, rec);
      calls := cs[c := rec];
      metrics := m.(serviceTimes := m.serviceTimes + [rows[c].serviceTime], served := m.served + 1);
      finishOrder := finishOrder + [c];
    }

    /**
     * One iteration of `env.run()`: the earliest pending wake-up is taken and
     * its process runs to its next suspension. After a gap, the generator
     * spawns a call and the call's start, simpy's next event, runs right away.
     * No more calls than there are units hold one.
     */
    method Step() returns (w: Wakeup)
      requires Valid() && sched.pending != map[]
      modifies this, sched, units
      ensures Valid()
      ensures Remaining() < old(Remaining())
      ensures IsEarliest(old(sched.pending), w)
      ensures old(sched.now) <= sched.now
      ensures units.users == set c | 0 <= c < |calls| && HoldsUnit(calls[c].phase)
      ensures |units.users| <= units.capacity
    {
      ghost var pending, now := sched.pending, sched.now;
      w := sched.Pop();
      PopStep(rows, units.capacity, calls, now, pending, units.users, units.queue, metrics, grantOrder, finishOrder,
              w, sched.now);
      if w.Tick? {
        var c := Spawn();
        var _ := Arrive(c);
      } else {
        var c := w.call;
        if calls[c].phase == Granted {
          BeginService(c);
        } else {
          var _ := ReleaseUnit(c);
          Finish(c);
        }
      }
      Occupancy(calls, units.users, units.queue, units.capacity);
    }

    /** `env.run()`: events are processed until none is pending; then every call has been served and the pool is idle. */
    method Run()
      requires Valid()
      modifies this, sched, units
      ensures Valid() && sched.pending == map[]
      ensures |calls| == |rows|
      ensures forall c :: 0 <= c < |calls| ==> calls[c].phase == Completed
      ensures units.users == {} && units.queue == map[]
    {
      while sched.pending != map[]
        invariant Valid()
        decreases Remaining()
      {
        var _ := Step();
      }
      Drained(rows, units.capacity, calls, sched.now, units.users, units.queue, metrics, grantOrder, finishOrder);
    }
  }

  /** With no negative wait and every service time taken from a row, neither mean is negative. */
  lemma MeasuredSigns(rows: seq<Row>, m: Metrics, g: seq<nat>, f: seq<nat>)
    requires WellFormed(rows)
    requires |m.waitTimes| == |g| && forall k :: 0 <= k < |g| ==> 0.0 <= m.waitTimes[k]
    requires |m.serviceTimes| == |f|
    requires forall k :: 0 <= k < |f| ==> f[k] < |rows| && m.serviceTimes[k] == rows[f[k]].serviceTime
    ensures 0.0 <= Mean(m.waitTimes) && 0.0 <= Mean(m.serviceTimes)
  {
    MeanNonNegative(m.waitTimes);
    MeanNonNegative(m.serviceTimes);
  }

  /**
   * `run_simulation(num_units, df)`: a fresh scenario with `numUnits` units
   * runs every row to completion; its summary and raw measurements are
   * returned. A capacity below one is refused, as the resource constructor
   * refuses it. `calls` (arrival and grant instants), `g` and `f` (the call
   * behind each measurement) describe the run.
   */
  method RunSimulation(numUnits: int, rows: seq<Row>)
    returns (r: Result<(Summary, Metrics), SimError>, ghost calls: seq<CallRecord>, ghost g: seq<nat>, ghost f: seq<nat>)
    requires WellFormed(rows)
    ensures r.Failure? <==> numUnits < 1
    ensures r.Failure? ==> r.error == InvalidCapacity
    ensures r.Success? ==> r.value.0 == Summarize(numUnits, r.value.1)
    ensures r.Success? ==>
              && r.value.1.served == |rows| && |r.value.1.waitTimes| == |rows| && |r.value.1.serviceTimes| == |rows|
              && |calls| == |rows| && |g| == |rows| && |f| == |rows|
              && (forall k :: 0 <= k < |g| ==> g[k] < |rows|)
              && (forall i, j :: 0 <= i < j < |g| ==> g[i] != g[j])
              && (forall k :: 0 <= k < |f| ==> f[k] < |rows|)
              && (forall i, j :: 0 <= i < j < |f| ==> f[i] != f[j])
              && (forall i :: 0 <= i < |calls| ==> calls[i].arrival == Elapsed(rows, i + 1) && calls[i].arrival <= calls[i].grant)
              && (forall i, j :: 0 <= i < j < |calls| ==> calls[i].grant <= calls[j].grant)
              && (forall k :: 0 <= k < |g| ==>
                    r.value.1.waitTimes[k] == calls[g[k]].grant - calls[g[k]].arrival && 0.0 <= r.value.1.waitTimes[k])
              && (forall k :: 0 <= k < |f| ==> r.value.1.serviceTimes[k] == rows[f[k]].serviceTime)
    ensures r.Success? ==> 0.0 <= r.value.0.avgWait && 0.0 <= r.value.0.avgService
    ensures r.Success? ==> Measured(rows, numUnits, r.value.1)
    ensures r.Success? && numUnits == 1 ==>
              r.value.1.waitTimes == SerialWaits(rows) && r.value.1.serviceTimes == ServiceColumn(rows)
  {
    if numUnits < 1 {
      r, calls, g, f := Failure(InvalidCapacity), [], [], [];
    } else {
      var s := new Scenario(rows, numUnits);
      s.Run();
      FinalMetrics(rows, s.calls, s.sched.now, s.metrics, s.grantOrder, s.finishOrder);
      if numUnits == 1 {
        FinalSerial(rows, s.calls, s.sched.now, s.metrics, s.grantOrder, s.finishOrder);
      }
      MeasuredSigns(rows, s.metrics, s.grantOrder, s.finishOrder);
      r, calls, g, f := Success((Summarize(numUnits, s.metrics), s.metrics)), s.calls, s.grantOrder, s.finishOrder;
    }
  }

  /** What one run's measurements are known to be: every row served, and on one unit the closed-form waits. */
  ghost predicate Measured(rows: seq<Row>, numUnits: int, m: Metrics) {
    && m.served == |rows| && |m.waitTimes| == |rows| && |m.serviceTimes| == |rows|
    && (forall k :: 0 <= k < |m.waitTimes| ==> 0.0 <= m.waitTimes[k])
    && (numUnits == 1 ==> m.waitTimes == SerialWaits(rows) && m.serviceTimes == ServiceColumn(rows))
  }

  /** No later scenario than `j` (up to `k`) has the same number of units. */
  ghost predicate LastOf(scenarios: seq<int>, j: nat, k: nat)
    requires j < k <= |scenarios|
  {
    forall i :: j < i < k ==> scenarios[i] != scenarios[j]
  }

  /**
   * After `k` scenarios: each had at least one unit; the summaries are in
   * order; the measurements are keyed by number of units, the last scenario
   * with a number being the one kept.
   */
  ghost predicate Collected(scenarios: seq<int>, rows: seq<Row>, k: nat, results: seq<Summary>, metricas: map<int, Metrics>)
    requires k <= |scenarios|
  {
    && |results| == k
    && (forall j :: 0 <= j < k ==> 1 <= scenarios[j])
    && (forall n :: n in metricas <==> n in scenarios[..k])
    && (forall n :: n in metricas ==> Measured(rows, n, metricas[n]))
    && (forall j :: 0 <= j < k ==>
          && results[j].numUnits == scenarios[j] && results[j].served == |rows|
          && 0.0 <= results[j].avgWait && 0.0 <= results[j].avgService)
    && (forall j :: 0 <= j < k && LastOf(scenarios, j, k) ==> results[j] == Summarize(scenarios[j], metricas[scenarios[j]]))
  }

  lemma CollectMeasured(rows: seq<Row>, metricas: map<int, Metrics>, n0: int, met: Metrics, metricas': map<int, Metrics>)
    requires forall n :: n in metricas ==> Measured(rows, n, metricas[n])
    requires Measured(rows, n0, met) && metricas' == metricas[n0 := met]
    ensures forall n :: n in metricas' ==> Measured(rows, n, metricas'[n])
  {
    forall n | n in metricas' ensures Measured(rows, n, metricas'[n]) {
      if n != n0 {
        assert metricas'[n] == metricas[n];
      }
    }
  }

  /** The summary kept for a number of units is that of the last scenario with that number. */
  lemma CollectLast(scenarios: seq<int>, k: nat, results: seq<Summary>, metricas: map<int, Metrics>, res: Summary, met: Metrics)
    requires k < |scenarios| && |results| == k
    requires forall j :: 0 <= j < k ==> scenarios[j] in metricas
    requires forall j :: 0 <= j < k && LastOf(scenarios, j, k) ==> results[j] == Summarize(scenarios[j], metricas[scenarios[j]])
    requires res == Summarize(scenarios[k], met)
    ensures forall j :: 0 <= j < k + 1 && LastOf(scenarios, j, k + 1) ==>
              (results + [res])[j] == Summarize(scenarios[j], metricas[scenarios[k] := met][scenarios[j]])
  {
    var results', metricas' := results + [res], metricas[scenarios[k] := met];
    forall j | 0 <= j < k + 1 && LastOf(scenarios, j, k + 1)
      ensures results'[j] == Summarize(scenarios[j], metricas'[scenarios[j]])
    {
      if j < k {
        assert LastOf(scenarios, j, k);
        assert scenarios[k] != scenarios[j];
        assert results'[j] == results[j] && metricas'[scenarios[j]] == metricas[scenarios[j]];
      }
    }
  }

  /** One more scenario's run is collected. */
  lemma CollectStep(scenarios: seq<int>, rows: seq<Row>, k: nat, results: seq<Summary>, metricas: map<int, Metrics>,
                    res: Summary, met: Metrics)
    requires k < |scenarios| && Collected(scenarios, rows, k, results, metricas)
    requires 1 <= scenarios[k] && Measured(rows, scenarios[k], met) && res == Summarize(scenarios[k], met)
    requires 0.0 <= res.avgWait && 0.0 <= res.avgService
    ensures Collected(scenarios, rows, k + 1, results + [res], metricas[scenarios[k] := met])
  {
    var results' := results + [res];
    assert scenarios[..k + 1] == scenarios[..k] + [scenarios[k]];
    CollectMeasured(rows, metricas, scenarios[k], met, metricas[scenarios[k] := met]);
    forall j | 0 <= j < k ensures scenarios[j] in metricas {
      assert scenarios[..k][j] == scenarios[j];
    }
    CollectLast(scenarios, k, results, metricas, res, met);
    forall j | 0 <= j < k + 1
      ensures results'[j].numUnits == scenarios[j] && results'[j].served == |rows|
      ensures 0.0 <= results'[j].avgWait && 0.0 <= results'[j].avgService
    {
      if j < k {
        assert results'[j] == results[j];
      }
    }
  }

  /**
   * The loop over the scenarios: each gets a fresh run on the same rows; the
   * summaries are collected in order (`resultados`) and the measurements
   * keyed by number of units (`metricas`), a later scenario replacing an
   * earlier one with the same number. A scenario with fewer than one unit
   * stops the loop with an error.
   */
  method RunScenarios(scenarios: seq<int>, rows: seq<Row>) returns (r: Result<(seq<Summary>, map<int, Metrics>), SimError>)
    requires WellFormed(rows)
    ensures r.Failure? <==> exists k :: 0 <= k < |scenarios| && scenarios[k] < 1
    ensures r.Failure? ==> r.error == InvalidCapacity
    ensures r.Success? ==>
              && |r.value.0| == |scenarios|
              && (forall n :: n in r.value.1 <==> n in scenarios)
              && (forall n :: n in r.value.1 ==> Measured(rows, n, r.value.1[n]))
              && (forall k :: 0 <= k < |scenarios| ==>
                    && r.value.0[k].numUnits == scenarios[k]
                    && r.value.0[k].served == |rows|
                    && 0.0 <= r.value.0[k].avgWait && 0.0 <= r.value.0[k].avgService)
              && (forall k :: 0 <= k < |scenarios| && LastOf(scenarios, k, |scenarios|) ==>
                    r.value.0[k] == Summarize(scenarios[k], r.value.1[scenarios[k]]))
  {
    var results: seq<Summary> := [];
    var metricas: map<int, Metrics> := map[];
    var k := 0;
    while k < |scenarios|
      invariant k <= |scenarios| && Collected(scenarios, rows, k, results, metricas)
    {
      var run, _, _, _ := RunSimulation(scenarios[k], rows);
      if run.Failure? {
        return Failure(run.error);
      }
      var (res, met) := run.value;
      CollectStep(scenarios, rows, k, results, metricas, res, met);
      results := results + [res];
      metricas := metricas[scenarios[k] := met];
      k := k + 1;
    }
    assert scenarios[..k] == scenarios;
    r := Success((results, metricas));
  }
}
