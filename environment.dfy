/**
 * The priority-dispatch simulation: emergency calls arrive after chained
 * gaps, are triaged by an external classifier, spend a triage delay, queue for
 * a pool of fire units by urgency, hold one unit for a service time and
 * release it. Samplers and the classifier are oracles: every call comes with
 * the classifier's verdict and the raw draws of the samplers it uses.
 */
module Environment {
  import opened Wrappers
  import opened Ordering
  import opened Kernel
  import opened Resources
  import opened Lifecycle

  // ---------------------------------------------------------------------------
  // Oracles and per-call arithmetic
  // ---------------------------------------------------------------------------

  /** A sampler's draw made non-negative (`get_random_time`). */
  function RandomTime(draw: real): (t: real)
    ensures 0.0 <= t
    ensures 0.0 <= draw ==> t == draw
    ensures draw < 0.0 ==> t == 0.0
  {
    if draw < 0.0 then 0.0 else draw
  }

  /** What the classifier reports: the extracted original priority (possibly absent) and the final decision. */
  datatype Verdict = Verdict(originalPriority: Option<int>, decision: string)

  /** The decision that selects the automated ("simple") triage branch. */
  const SimpleDecision: string := "Simples"

  predicate IsSimple(v: Verdict) {
    v.decision == SimpleDecision
  }

  /**
   * Queue priority of a call, smaller meaning more urgent: the original
   * priority inverted on the 1..3 scale, a missing one counting as 2.
   */
  function QueuePriority(v: Verdict): (q: int)
    ensures v.originalPriority == None ==> q == 1
    ensures v.originalPriority.Some? ==> q + v.originalPriority.value == 3
  {
    3 - v.originalPriority.GetOr(2)
  }

  /** Everything the oracles contribute to one call. */
  datatype CallInput = CallInput(
    arrivalDraw: real,   // draw of the inter-arrival sampler ("chegadas") preceding this call
    verdict: Verdict,    // the classifier's answer for this call's text
    simpleDraw: real,    // draw of the "atendimento_simples" sampler
    humanDraw: real,     // draw of the "atendimento_humano" sampler
    serviceDraw: real    // draw of the "servico_bombeiros" sampler
  )

  /** The gap before a call arrives. */
  function Gap(input: CallInput): (g: real)
    ensures 0.0 <= g
  {
    RandomTime(input.arrivalDraw)
  }

  /** Triage delay: half an automated-handling sample on the simple branch, a full operator sample otherwise. */
  function TriageDelay(input: CallInput): (d: real)
    ensures 0.0 <= d
    ensures IsSimple(input.verdict) ==> d == RandomTime(input.simpleDraw) * 0.5
    ensures !IsSimple(input.verdict) ==> d == RandomTime(input.humanDraw)
  {
    if IsSimple(input.verdict) then RandomTime(input.simpleDraw) * 0.5 else RandomTime(input.humanDraw)
  }

  /** The on-scene service time a call holds its unit for. */
  function ServiceTime(input: CallInput): (s: real)
    ensures 0.0 <= s
  {
    RandomTime(input.serviceDraw)
  }

  /** Sum of the first `k` gaps: the arrival instant of the k-th call (1-based). */
  function Elapsed(inputs: seq<CallInput>, k: nat): (t: real)
    requires k <= |inputs|
    ensures 0.0 <= t
  {
    if k == 0 then 0.0 else Elapsed(inputs, k - 1) + Gap(inputs[k - 1])
  }

  /** Calls arrive in list order: later calls never arrive earlier. */
  lemma {:induction false} ArrivalsInOrder(inputs: seq<CallInput>, i: nat, j: nat)
    requires i <= j <= |inputs|
    ensures Elapsed(inputs, i) <= Elapsed(inputs, j)
  {
    if i < j {
      ArrivalsInOrder(inputs, i, j - 1);
    }
  }

  // ---------------------------------------------------------------------------
  // Call processes as explicit state machines
  // ---------------------------------------------------------------------------

  /** Number of the first `n` calls the classifier sends down the simple branch. */
  function SimpleCount(inputs: seq<CallInput>, n: nat): (k: nat)
    requires n <= |inputs|
    ensures k <= n
  {
    if n == 0 then 0 else SimpleCount(inputs, n - 1) + (if IsSimple(inputs[n - 1].verdict) then 1 else 0)
  }

  /** The count is exact: it is `n` exactly when all the first `n` verdicts are "Simples", and zero exactly when none is. */
  lemma {:induction false} SimpleCountExtremes(inputs: seq<CallInput>, n: nat)
    requires n <= |inputs|
    ensures SimpleCount(inputs, n) == n <==> forall i :: 0 <= i < n ==> IsSimple(inputs[i].verdict)
    ensures SimpleCount(inputs, n) == 0 <==> forall i :: 0 <= i < n ==> !IsSimple(inputs[i].verdict)
  {
    if 0 < n {
      SimpleCountExtremes(inputs, n - 1);
    }
  }

  /** Whether call `i` (record `r`) has been counted as simple. */
  function SimpleMark(inputs: seq<CallInput>, i: nat, r: CallRecord): nat
    requires i < |inputs|
  {
    if Rank(r.phase) >= 1 && IsSimple(inputs[i].verdict) then 1 else 0
  }

  /** Number of started calls counted as simple. */
  function SimpleStarted(inputs: seq<CallInput>, calls: seq<CallRecord>): (n: nat)
    requires |calls| <= |inputs|
    ensures n <= |calls|
  {
    if calls == [] then 0
    else SimpleStarted(inputs, calls[..|calls| - 1]) + SimpleMark(inputs, |calls| - 1, calls[|calls| - 1])
  }

  lemma SimpleAppend(inputs: seq<CallInput>, calls: seq<CallRecord>, x: CallRecord)
    requires |calls| < |inputs|
    ensures SimpleStarted(inputs, calls + [x]) == SimpleStarted(inputs, calls) + SimpleMark(inputs, |calls|, x)
  {
    assert (calls + [x])[..|calls|] == calls;
  }

  lemma {:induction false} SimpleUpdate(inputs: seq<CallInput>, calls: seq<CallRecord>, i: nat, x: CallRecord)
    requires |calls| <= |inputs| && i < |calls|
    ensures SimpleStarted(inputs, calls[i := x])
         == SimpleStarted(inputs, calls) - SimpleMark(inputs, i, calls[i]) + SimpleMark(inputs, i, x)
  {
    var n := |calls|;
    var s := calls[i := x];
    if i == n - 1 {
      assert s[..n - 1] == calls[..n - 1];
    } else {
      assert s[..n - 1] == calls[..n - 1][i := x];
      SimpleUpdate(inputs, calls[..n - 1], i, x);
    }
  }

  /** Once every call has started, the simple count is the number of simple verdicts. */
  lemma {:induction false} SimpleAllStarted(inputs: seq<CallInput>, calls: seq<CallRecord>)
    requires |calls| <= |inputs|
    requires forall c :: 0 <= c < |calls| ==> Rank(calls[c].phase) >= 1
    ensures SimpleStarted(inputs, calls) == SimpleCount(inputs, |calls|)
  {
    if calls != [] {
      SimpleAllStarted(inputs, calls[..|calls| - 1]);
    }
  }

  /** The per-scenario statistics (`stats_locais`). */
  datatype ScenarioResult = ScenarioResult(
    totalCalls: nat,
    simpleCalls: nat,
    complexCalls: nat,
    waits: seq<real>,     // tempos_espera_bombeiros
    totals: seq<real>,    // tempos_atendimento_total
    services: seq<real>   // tempos_servico_bombeiros
  )

  // ---------------------------------------------------------------------------
  // The scenario invariant, stated over values
  // ---------------------------------------------------------------------------

  /** Whether a state with these calls expects `w` to be pending. */
  ghost predicate Awaits(inputs: seq<CallInput>, calls: seq<CallRecord>, w: Wakeup) {
    match w
    case Tick => |calls| < |inputs|
    case Start(c) => c < |calls| && calls[c].phase == Arrived
    case Resume(c) => c < |calls| && (calls[c].phase == Triaged || HoldsUnit(calls[c].phase))
  }

  /** The instant at which `w` is due. */
  ghost function WakeTime(inputs: seq<CallInput>, calls: seq<CallRecord>, w: Wakeup): real {
    match w
    case Tick => if |calls| < |inputs| then Elapsed(inputs, |calls| + 1) else 0.0
    case Start(c) => if c < |calls| then calls[c].arrival else 0.0
    case Resume(c) =>
      if c >= |calls| then 0.0
      else if calls[c].phase == Triaged then calls[c].queueEntry
      else if calls[c].phase == Granted then calls[c].grant
      else calls[c].grant + calls[c].service
  }

  /** `w` is pending exactly when it is awaited (and is not `skip`, being handled), and then it is due at its time. */
  ghost predicate PendingAt(inputs: seq<CallInput>, calls: seq<CallRecord>, pending: map<Wakeup, Key>, skip: Option<Wakeup>,
                            w: Wakeup) {
    && (w in pending <==> Awaits(inputs, calls, w) && skip != Some(w))
    && (w in pending ==> pending[w].major == WakeTime(inputs, calls, w))
  }

  /** The pending wake-ups are exactly the awaited ones (but `skip`), each due at its time. */
  ghost predicate PendingOk(inputs: seq<CallInput>, calls: seq<CallRecord>, pending: map<Wakeup, Key>, skip: Option<Wakeup>) {
    forall w :: PendingAt(inputs, calls, pending, skip, w)
  }

  /** The life-cycle facts of call `c` (record `r`) at simulated time `now`. */
  ghost predicate CallOk(inputs: seq<CallInput>, c: nat, r: CallRecord, now: real)
    requires c < |inputs|
  {
    && r.arrival == Elapsed(inputs, c + 1)
    && (Rank(r.phase) >= 1 ==> r.priority == QueuePriority(inputs[c].verdict))
    && (Rank(r.phase) >= 1 ==> r.queueEntry == r.arrival + TriageDelay(inputs[c]))
    && (r.phase == Queued ==> r.queueEntry <= now)
    && (Rank(r.phase) >= 3 ==> r.queueEntry <= r.grant)
    && (Rank(r.phase) >= 4 ==> r.service == ServiceTime(inputs[c]))
    && (r.phase == Completed ==> r.finish == r.grant + r.service)
  }

  /** Call `c`, if spawned, satisfies its life-cycle facts. */
  ghost predicate CallAt(inputs: seq<CallInput>, calls: seq<CallRecord>, now: real, c: nat)
    requires |calls| <= |inputs|
  {
    c < |calls| ==> CallOk(inputs, c, calls[c], now)
  }

  ghost predicate CallsOk(inputs: seq<CallInput>, calls: seq<CallRecord>, now: real)
    requires |calls| <= |inputs|
  {
    forall c: nat :: CallAt(inputs, calls, now, c)
  }

  /** Entry `k` of the wait and service lists belongs to call `g[k]`, which has started its service. */
  ghost predicate GrantLinked(calls: seq<CallRecord>, st: ScenarioResult, g: seq<nat>, k: nat)
    requires k < |g| && |st.waits| == |g| && |st.services| == |g|
  {
    && g[k] < |calls|
    && Rank(calls[g[k]].phase) >= 4
    && st.waits[k] == calls[g[k]].grant - calls[g[k]].queueEntry
    && st.services[k] == calls[g[k]].service
  }

  /** Entry `k` of the total-time list belongs to call `f[k]`, which has completed. */
  ghost predicate FinishLinked(calls: seq<CallRecord>, st: ScenarioResult, f: seq<nat>, k: nat)
    requires k < |f| && |st.totals| == |f|
  {
    && f[k] < |calls|
    && calls[f[k]].phase == Completed
    && st.totals[k] == calls[f[k]].finish - calls[f[k]].arrival
  }

  /** Counters and duration lists agree with the calls' phases and records. */
  ghost predicate StatsOk(inputs: seq<CallInput>, calls: seq<CallRecord>, st: ScenarioResult, grantOrder: seq<nat>,
                          finishOrder: seq<nat>)
    requires |calls| <= |inputs|
  {
    && st.totalCalls == CountReached(calls, 1)
    && st.simpleCalls == SimpleStarted(inputs, calls)
    && st.totalCalls == st.simpleCalls + st.complexCalls
    && |st.waits| == |grantOrder| && |st.services| == |grantOrder| && |grantOrder| == CountReached(calls, 4)
    && |st.totals| == |finishOrder| && |finishOrder| == CountReached(calls, 5)
    && (forall k: nat :: k < |grantOrder| ==> GrantLinked(calls, st, grantOrder, k))
    && (forall i, j :: 0 <= i < j < |grantOrder| ==> grantOrder[i] != grantOrder[j])
    && (forall k: nat :: k < |finishOrder| ==> FinishLinked(calls, st, finishOrder, k))
    && (forall i, j :: 0 <= i < j < |finishOrder| ==> finishOrder[i] != finishOrder[j])
  }

  /** The scenario invariant over plain values; `skip` is the wake-up being handled. */
  ghost predicate Good(inputs: seq<CallInput>, calls: seq<CallRecord>, now: real, pending: map<Wakeup, Key>,
                       skip: Option<Wakeup>, users: set<nat>, queue: map<nat, Key>,
                       st: ScenarioResult, g: seq<nat>, f: seq<nat>)
  {
    && |calls| <= |inputs|
    && CallsOk(inputs, calls, now)
    && PendingOk(inputs, calls, pending, skip)
    && NoStarts(pending)
    && UnitsOk(calls, users, queue)
    && StatsOk(inputs, calls, st, g, f)
  }

  /** Events still to come: each call goes through at most six (spawn, start, triage end, grant, service start, release). */
  ghost function Measure(inputs: seq<CallInput>, calls: seq<CallRecord>): int {
    6 * |inputs| - |calls|
      - CountReached(calls, 1) - CountReached(calls, 2) - CountReached(calls, 3) - CountReached(calls, 4)
      - CountReached(calls, 5)
  }

  // ---------------------------------------------------------------------------
  // How each part of the invariant survives each kind of transition
  // ---------------------------------------------------------------------------

  /** Updating call `c`'s record leaves every wake-up that is not about `c` as it was. */
  lemma UpdateFrame(inputs: seq<CallInput>, calls: seq<CallRecord>, c: nat, rec: CallRecord, w: Wakeup)
    requires c < |calls|
    requires w.Tick? || w.call != c
    ensures Awaits(inputs, calls[c := rec], w) == Awaits(inputs, calls, w)
    ensures WakeTime(inputs, calls[c := rec], w) == WakeTime(inputs, calls, w)
  {
  }

  lemma CallsOkUpdate(inputs: seq<CallInput>, calls: seq<CallRecord>, now: real, c: nat, rec: CallRecord)
    requires |calls| <= |inputs| && c < |calls|
    requires CallsOk(inputs, calls, now) && CallOk(inputs, c, rec, now)
    ensures CallsOk(inputs, calls[c := rec], now)
  {
    var calls' := calls[c := rec];
    forall d: nat ensures CallAt(inputs, calls', now, d) {
      assert CallAt(inputs, calls, now, d);
    }
  }

  lemma CallsOkAppend(inputs: seq<CallInput>, calls: seq<CallRecord>, now: real, rec: CallRecord)
    requires |calls| < |inputs|
    requires CallsOk(inputs, calls, now) && CallOk(inputs, |calls|, rec, now)
    ensures CallsOk(inputs, calls + [rec], now)
  {
    var calls' := calls + [rec];
    forall d: nat ensures CallAt(inputs, calls', now, d) {
      assert CallAt(inputs, calls, now, d);
    }
  }

  /** The clock moving forward keeps every call's facts. */
  lemma CallsOkLater(inputs: seq<CallInput>, calls: seq<CallRecord>, now: real, later: real)
    requires |calls| <= |inputs| && now <= later
    requires CallsOk(inputs, calls, now)
    ensures CallsOk(inputs, calls, later)
  {
    forall d: nat ensures CallAt(inputs, calls, later, d) {
      assert CallAt(inputs, calls, now, d);
    }
  }

  // Pending wake-ups

  lemma InitialPending(inputs: seq<CallInput>, pending: map<Wakeup, Key>)
    requires 0 < |inputs| ==> pending.Keys == {Tick} && pending[Tick].major == Gap(inputs[0])
    requires |inputs| == 0 ==> pending == map[]
    ensures PendingOk(inputs, [], pending, None)
  {
    forall w: Wakeup ensures PendingAt(inputs, [], pending, None, w) {
      if 0 < |inputs| {
        assert w in pending <==> w in pending.Keys;
        assert Elapsed(inputs, 1) == Gap(inputs[0]);
      }
    }
  }

  /**
   * The generator spawns call `|calls|` and, if calls remain, waits for the
   * next gap; the new call's start is being handled.
   */
  lemma SpawnPending(inputs: seq<CallInput>, calls: seq<CallRecord>, pending: map<Wakeup, Key>, rec: CallRecord,
                     k2: Key, pending': map<Wakeup, Key>)
    requires |calls| < |inputs|
    requires PendingOk(inputs, calls, pending, Some(Tick))
    requires rec.phase == Arrived
    requires |calls| + 1 < |inputs| ==> k2.major == rec.arrival + Gap(inputs[|calls| + 1])
    requires rec.arrival == Elapsed(inputs, |calls| + 1)
    requires pending' == if |calls| + 1 < |inputs| then pending[Tick := k2] else pending
    ensures PendingOk(inputs, calls + [rec], pending', Some(Start(|calls|)))
  {
    var calls' := calls + [rec];
    forall w: Wakeup ensures PendingAt(inputs, calls', pending', Some(Start(|calls|)), w) {
      assert PendingAt(inputs, calls, pending, Some(Tick), w);
      match w
      case Tick =>
      case Start(d) =>
        if d < |calls| { assert calls'[d] == calls[d]; }
      case Resume(d) =>
        if d < |calls| { assert calls'[d] == calls[d]; }
    }
  }

  /**
   * Call `c`, resumed by `w0`, moves to `rec`; if it now awaits a resumption,
   * that wake-up is scheduled with `key`.
   */
  lemma AdvancePending(inputs: seq<CallInput>, calls: seq<CallRecord>, pending: map<Wakeup, Key>, c: nat, w0: Wakeup,
                       rec: CallRecord, key: Key, pending': map<Wakeup, Key>)
    requires c < |calls| && (w0 == Start(c) || w0 == Resume(c)) && Awaits(inputs, calls, w0)
    requires PendingOk(inputs, calls, pending, Some(w0))
    requires rec.phase != Arrived
    requires Awaits(inputs, calls[c := rec], Resume(c)) ==> key.major == WakeTime(inputs, calls[c := rec], Resume(c))
    requires pending' == if Awaits(inputs, calls[c := rec], Resume(c)) then pending[Resume(c) := key] else pending
    ensures PendingOk(inputs, calls[c := rec], pending', None)
  {
    var calls' := calls[c := rec];
    forall w: Wakeup ensures PendingAt(inputs, calls', pending', None, w) {
      assert PendingAt(inputs, calls, pending, Some(w0), w);
      if w.Tick? || w.call != c {
        UpdateFrame(inputs, calls, c, rec, w);
      }
    }
  }

  /** While `c`'s release is handled, waiting call `d` is granted the unit and waits for the grant to be processed. */
  lemma GrantPending(inputs: seq<CallInput>, calls: seq<CallRecord>, pending: map<Wakeup, Key>, c: nat, d: nat,
                     rec: CallRecord, key: Key)
    requires d < |calls| && c != d && calls[d].phase == Queued && rec.phase == Granted
    requires PendingOk(inputs, calls, pending, Some(Resume(c)))
    requires key.major == rec.grant
    ensures PendingOk(inputs, calls[d := rec], pending[Resume(d) := key], Some(Resume(c)))
  {
    var calls' := calls[d := rec];
    var pending' := pending[Resume(d) := key];
    forall w: Wakeup ensures PendingAt(inputs, calls', pending', Some(Resume(c)), w) {
      assert PendingAt(inputs, calls, pending, Some(Resume(c)), w);
      if w.Tick? || w.call != d {
        UpdateFrame(inputs, calls, d, rec, w);
      }
    }
  }

  // Statistics

  lemma SpawnStats(inputs: seq<CallInput>, calls: seq<CallRecord>, st: ScenarioResult, g: seq<nat>, f: seq<nat>,
                   rec: CallRecord)
    requires |calls| < |inputs| && StatsOk(inputs, calls, st, g, f) && rec.phase == Arrived
    ensures StatsOk(inputs, calls + [rec], st, g, f)
  {
    var calls' := calls + [rec];
    forall r: nat | 1 <= r ensures CountReached(calls', r) == CountReached(calls, r) {
      CountAppend(calls, rec, r);
    }
    SimpleAppend(inputs, calls, rec);
    forall k: nat | k < |g| ensures GrantLinked(calls', st, g, k) {
      assert GrantLinked(calls, st, g, k);
    }
    forall k: nat | k < |f| ensures FinishLinked(calls', st, f, k) {
      assert FinishLinked(calls, st, f, k);
    }
  }

  /** A call starts: it is counted once, and once as simple or as complex. */
  lemma TriageStats(inputs: seq<CallInput>, calls: seq<CallRecord>, st: ScenarioResult, g: seq<nat>, f: seq<nat>,
                    c: nat, rec: CallRecord, st': ScenarioResult)
    requires |calls| <= |inputs| && StatsOk(inputs, calls, st, g, f)
    requires c < |calls| && calls[c].phase == Arrived && rec.phase == Triaged
    requires st' == st.(totalCalls := st.totalCalls + 1,
                        simpleCalls := st.simpleCalls + (if IsSimple(inputs[c].verdict) then 1 else 0),
                        complexCalls := st.complexCalls + (if IsSimple(inputs[c].verdict) then 0 else 1))
    ensures StatsOk(inputs, calls[c := rec], st', g, f)
  {
    var calls' := calls[c := rec];
    CountsUpdate(calls, c, rec);
    SimpleUpdate(inputs, calls, c, rec);
    forall k: nat | k < |g| ensures GrantLinked(calls', st', g, k) {
      assert GrantLinked(calls, st, g, k);
    }
    forall k: nat | k < |f| ensures FinishLinked(calls', st', f, k) {
      assert FinishLinked(calls, st, f, k);
    }
  }

  /** A started call that has not begun its service moves to another such phase: nothing is recorded. */
  lemma QuietStats(inputs: seq<CallInput>, calls: seq<CallRecord>, st: ScenarioResult, g: seq<nat>, f: seq<nat>,
                   d: nat, rec: CallRecord)
    requires |calls| <= |inputs| && StatsOk(inputs, calls, st, g, f) && d < |calls|
    requires 1 <= Rank(calls[d].phase) < 4 && 1 <= Rank(rec.phase) < 4
    ensures StatsOk(inputs, calls[d := rec], st, g, f)
  {
    var calls' := calls[d := rec];
    CountsUpdate(calls, d, rec);
    SimpleUpdate(inputs, calls, d, rec);
    forall k: nat | k < |g| ensures GrantLinked(calls', st, g, k) {
      assert GrantLinked(calls, st, g, k);
    }
    forall k: nat | k < |f| ensures FinishLinked(calls', st, f, k) {
      assert FinishLinked(calls, st, f, k);
    }
  }

  /** Call `d` starts its service: its wait and service time are appended. */
  lemma ServeStats(inputs: seq<CallInput>, calls: seq<CallRecord>, st: ScenarioResult, g: seq<nat>, f: seq<nat>,
                   d: nat, rec: CallRecord)
    requires |calls| <= |inputs| && StatsOk(inputs, calls, st, g, f) && d < |calls|
    requires calls[d].phase == Granted && rec.phase == InService
    ensures StatsOk(inputs, calls[d := rec],
                    st.(waits := st.waits + [rec.grant - rec.queueEntry], services := st.services + [rec.service]),
                    g + [d], f)
  {
    var calls' := calls[d := rec];
    var st' := st.(waits := st.waits + [rec.grant - rec.queueEntry], services := st.services + [rec.service]);
    CountsUpdate(calls, d, rec);
    SimpleUpdate(inputs, calls, d, rec);
    forall i | 0 <= i < |g| ensures g[i] != d {
      assert GrantLinked(calls, st, g, i);
    }
    forall k: nat | k < |g| + 1 ensures GrantLinked(calls', st', g + [d], k) {
      if k < |g| {
        assert GrantLinked(calls, st, g, k);
      }
    }
    forall k: nat | k < |f| ensures FinishLinked(calls', st', f, k) {
      assert FinishLinked(calls, st, f, k);
    }
  }

  /** Call `c` completes: its total handling time is appended. */
  lemma CompleteStats(inputs: seq<CallInput>, calls: seq<CallRecord>, st: ScenarioResult, g: seq<nat>, f: seq<nat>,
                      c: nat, rec: CallRecord)
    requires |calls| <= |inputs| && StatsOk(inputs, calls, st, g, f) && c < |calls| && calls[c].phase == InService
    requires rec == calls[c].(phase := Completed, finish := rec.finish)
    ensures StatsOk(inputs, calls[c := rec], st.(totals := st.totals + [rec.finish - rec.arrival]), g, f + [c])
  {
    var calls' := calls[c := rec];
    var st' := st.(totals := st.totals + [rec.finish - rec.arrival]);
    CountsUpdate(calls, c, rec);
    SimpleUpdate(inputs, calls, c, rec);
    forall k: nat | k < |g| ensures GrantLinked(calls', st', g, k) {
      assert GrantLinked(calls, st, g, k);
    }
    forall i | 0 <= i < |f| ensures f[i] != c {
      assert FinishLinked(calls, st, f, i);
    }
    forall k: nat | k < |f| + 1 ensures FinishLinked(calls', st', f + [c], k) {
      if k < |f| {
        assert FinishLinked(calls, st, f, k);
      }
    }
  }

  // ---------------------------------------------------------------------------
  // Whole transitions: each keeps the invariant and uses up one event
  // ---------------------------------------------------------------------------

  /** The state before the first event: no calls, the generator waiting for the first gap. */
  lemma InitialStep(inputs: seq<CallInput>, pending: map<Wakeup, Key>, key: Key)
    requires 0 < |inputs| ==> pending == map[Tick := key] && key.major == Gap(inputs[0])
    requires |inputs| == 0 ==> pending == map[]
    ensures Good(inputs, [], 0.0, pending, None, {}, map[], ScenarioResult(0, 0, 0, [], [], []), [], [])
  {
    if 0 < |inputs| {
      assert pending.Keys == {Tick};
    }
    InitialPending(inputs, pending);
    EmptyUnits();
  }

  /** The earliest pending wake-up is taken out and the clock moves to its time. */
  lemma PopStep(inputs: seq<CallInput>, calls: seq<CallRecord>, now: real, pending: map<Wakeup, Key>,
                users: set<nat>, queue: map<nat, Key>, st: ScenarioResult, g: seq<nat>, f: seq<nat>,
                w: Wakeup, later: real)
    requires Good(inputs, calls, now, pending, None, users, queue, st, g, f)
    requires w in pending && later == pending[w].major && now <= later
    ensures Good(inputs, calls, later, pending - {w}, Some(w), users, queue, st, g, f)
    ensures Awaits(inputs, calls, w) && later == WakeTime(inputs, calls, w)
    ensures !w.Start?
  {
    assert PendingAt(inputs, calls, pending, None, w);
    CallsOkLater(inputs, calls, now, later);
    var pending' := pending - {w};
    forall v: Wakeup ensures PendingAt(inputs, calls, pending', Some(w), v) {
      assert PendingAt(inputs, calls, pending, None, v);
    }
  }

  /** The generator spawns call `|calls|`, whose process starts at once. */
  lemma SpawnStep(inputs: seq<CallInput>, calls: seq<CallRecord>, now: real, pending: map<Wakeup, Key>,
                  users: set<nat>, queue: map<nat, Key>, st: ScenarioResult, g: seq<nat>, f: seq<nat>,
                  rec: CallRecord, k2: Key, pending': map<Wakeup, Key>)
    requires Good(inputs, calls, now, pending, Some(Tick), users, queue, st, g, f)
    requires Awaits(inputs, calls, Tick) && now == WakeTime(inputs, calls, Tick)
    requires rec == CallRecord(Arrived, 0, now, 0.0, 0.0, 0.0, 0.0)
    requires |calls| + 1 < |inputs| ==> k2.major == now + Gap(inputs[|calls| + 1])
    requires pending' == if |calls| + 1 < |inputs| then pending[Tick := k2] else pending
    ensures Good(inputs, calls + [rec], now, pending', Some(Start(|calls|)), users, queue, st, g, f)
    ensures Measure(inputs, calls + [rec]) < Measure(inputs, calls)
  {
    var calls' := calls + [rec];
    forall r: nat | 1 <= r ensures CountReached(calls', r) == CountReached(calls, r) {
      CountAppend(calls, rec, r);
    }
    CallsOkAppend(inputs, calls, now, rec);
    SpawnStats(inputs, calls, st, g, f, rec);
    forall e: nat ensures UnitAt(calls', users, queue, e) {
      assert UnitAt(calls, users, queue, e);
    }
    SpawnPending(inputs, calls, pending, rec, k2, pending');
  }

  lemma TriageStep(inputs: seq<CallInput>, calls: seq<CallRecord>, now: real, pending: map<Wakeup, Key>,
                   users: set<nat>, queue: map<nat, Key>, st: ScenarioResult, g: seq<nat>, f: seq<nat>,
                   c: nat, rec: CallRecord, st': ScenarioResult, key: Key)
    requires Good(inputs, calls, now, pending, Some(Start(c)), users, queue, st, g, f)
    requires Awaits(inputs, calls, Start(c)) && now == WakeTime(inputs, calls, Start(c))
    requires rec == calls[c].(phase := Triaged, priority := QueuePriority(inputs[c].verdict),
                              queueEntry := now + TriageDelay(inputs[c]))
    requires st' == st.(totalCalls := st.totalCalls + 1,
                        simpleCalls := st.simpleCalls + (if IsSimple(inputs[c].verdict) then 1 else 0),
                        complexCalls := st.complexCalls + (if IsSimple(inputs[c].verdict) then 0 else 1))
    requires key.major == now + TriageDelay(inputs[c])
    ensures Good(inputs, calls[c := rec], now, pending[Resume(c) := key], None, users, queue, st', g, f)
    ensures Measure(inputs, calls[c := rec]) < Measure(inputs, calls)
  {
    assert CallAt(inputs, calls, now, c);
    CountsUpdate(calls, c, rec);
    CallsOkUpdate(inputs, calls, now, c, rec);
    TriageStats(inputs, calls, st, g, f, c, rec, st');
    var calls' := calls[c := rec];
    forall e: nat ensures UnitAt(calls', users, queue, e) {
      assert UnitAt(calls, users, queue, e);
    }
    AdvancePending(inputs, calls, pending, c, Start(c), rec, key, pending[Resume(c) := key]);
  }

  /** Triage over, call `c` finds a free unit: its request is granted and will be processed at once. */
  lemma AdmitStep(inputs: seq<CallInput>, calls: seq<CallRecord>, now: real, pending: map<Wakeup, Key>,
                  users: set<nat>, queue: map<nat, Key>, st: ScenarioResult, g: seq<nat>, f: seq<nat>,
                  c: nat, rec: CallRecord, key: Key)
    requires Good(inputs, calls, now, pending, Some(Resume(c)), users, queue, st, g, f)
    requires c < |calls| && calls[c].phase == Triaged && now == WakeTime(inputs, calls, Resume(c))
    requires rec == calls[c].(phase := Granted, grant := now)
    requires key.major == now
    ensures Good(inputs, calls[c := rec], now, pending[Resume(c) := key], None, users + {c}, queue, st, g, f)
    ensures Measure(inputs, calls[c := rec]) < Measure(inputs, calls)
  {
    assert CallAt(inputs, calls, now, c);
    CountsUpdate(calls, c, rec);
    CallsOkUpdate(inputs, calls, now, c, rec);
    QuietStats(inputs, calls, st, g, f, c, rec);
    AdmitUnits(calls, users, queue, c, rec);
    AdvancePending(inputs, calls, pending, c, Resume(c), rec, key, pending[Resume(c) := key]);
  }

  /** Triage over, call `c` finds every unit busy and waits with its priority. */
  lemma EnqueueStep(inputs: seq<CallInput>, calls: seq<CallRecord>, now: real, pending: map<Wakeup, Key>,
                    users: set<nat>, queue: map<nat, Key>, st: ScenarioResult, g: seq<nat>, f: seq<nat>,
                    c: nat, rec: CallRecord, key: Key)
    requires Good(inputs, calls, now, pending, Some(Resume(c)), users, queue, st, g, f)
    requires c < |calls| && calls[c].phase == Triaged && now == WakeTime(inputs, calls, Resume(c))
    requires rec == calls[c].(phase := Queued)
    requires key.major == rec.priority as real
    ensures Good(inputs, calls[c := rec], now, pending, None, users, queue[c := key], st, g, f)
    ensures Measure(inputs, calls[c := rec]) < Measure(inputs, calls)
  {
    assert CallAt(inputs, calls, now, c);
    CountsUpdate(calls, c, rec);
    CallsOkUpdate(inputs, calls, now, c, rec);
    QuietStats(inputs, calls, st, g, f, c, rec);
    EnqueueUnits(calls, users, queue, c, rec, key);
    AdvancePending(inputs, calls, pending, c, Resume(c), rec, key, pending);
  }

  /** Call `c` resumes on its granted request: its wait and service time are recorded and its service starts. */
  lemma ServeStep(inputs: seq<CallInput>, calls: seq<CallRecord>, now: real, pending: map<Wakeup, Key>,
                  users: set<nat>, queue: map<nat, Key>, st: ScenarioResult, g: seq<nat>, f: seq<nat>,
                  c: nat, rec: CallRecord, key: Key)
    requires Good(inputs, calls, now, pending, Some(Resume(c)), users, queue, st, g, f)
    requires c < |calls| && calls[c].phase == Granted && now == WakeTime(inputs, calls, Resume(c))
    requires rec == calls[c].(phase := InService, service := ServiceTime(inputs[c]))
    requires key.major == now + ServiceTime(inputs[c])
    ensures Good(inputs, calls[c := rec], now, pending[Resume(c) := key], None, users, queue,
                 st.(waits := st.waits + [now - calls[c].queueEntry], services := st.services + [ServiceTime(inputs[c])]),
                 g + [c], f)
    ensures Measure(inputs, calls[c := rec]) < Measure(inputs, calls)
  {
    assert CallAt(inputs, calls, now, c);
    CountsUpdate(calls, c, rec);
    CallsOkUpdate(inputs, calls, now, c, rec);
    ServeStats(inputs, calls, st, g, f, c, rec);
    SameUnits(calls, users, queue, c, rec);
    AdvancePending(inputs, calls, pending, c, Resume(c), rec, key, pending[Resume(c) := key]);
  }

  /** Call `c` gives its unit back and it passes to the waiting call `d`, whose grant will be processed at once. */
  lemma HandStep(inputs: seq<CallInput>, calls: seq<CallRecord>, now: real, pending: map<Wakeup, Key>,
                 users: set<nat>, queue: map<nat, Key>, st: ScenarioResult, g: seq<nat>, f: seq<nat>,
                 c: nat, d: nat, rec: CallRecord, key: Key)
    requires Good(inputs, calls, now, pending, Some(Resume(c)), users, queue, st, g, f)
    requires c < |calls| && calls[c].phase == InService && now == WakeTime(inputs, calls, Resume(c))
    requires d < |calls| && d in queue
    requires rec == calls[d].(phase := Granted, grant := now)
    requires key.major == now
    ensures d != c && c in users
    ensures Good(inputs, calls[d := rec], now, pending[Resume(d) := key], Some(Resume(c)), users + {d}, queue - {d}, st, g, f)
    ensures calls[d := rec][c] == calls[c] && now == WakeTime(inputs, calls[d := rec], Resume(c))
    ensures Measure(inputs, calls[d := rec]) < Measure(inputs, calls)
  {
    assert CallAt(inputs, calls, now, d) && UnitAt(calls, users, queue, d) && UnitAt(calls, users, queue, c);
    CountsUpdate(calls, d, rec);
    CallsOkUpdate(inputs, calls, now, d, rec);
    QuietStats(inputs, calls, st, g, f, d, rec);
    GrantUnits(calls, users, queue, d, rec);
    GrantPending(inputs, calls, pending, c, d, rec, key);
    UpdateFrame(inputs, calls, d, rec, Resume(c));
  }

  /** Call `c`, whose unit is already back in the pool (`users` no longer has it), completes. */
  lemma FinishStep(inputs: seq<CallInput>, calls: seq<CallRecord>, now: real, pending: map<Wakeup, Key>,
                   users: set<nat>, queue: map<nat, Key>, st: ScenarioResult, g: seq<nat>, f: seq<nat>,
                   c: nat, rec: CallRecord)
    requires Good(inputs, calls, now, pending, Some(Resume(c)), users + {c}, queue, st, g, f)
    requires c !in users
    requires c < |calls| && calls[c].phase == InService && now == WakeTime(inputs, calls, Resume(c))
    requires rec == calls[c].(phase := Completed, finish := now)
    ensures Good(inputs, calls[c := rec], now, pending, None, users, queue,
                 st.(totals := st.totals + [now - calls[c].arrival]), g, f + [c])
    ensures Measure(inputs, calls[c := rec]) < Measure(inputs, calls)
  {
    assert CallAt(inputs, calls, now, c);
    CountsUpdate(calls, c, rec);
    CallsOkUpdate(inputs, calls, now, c, rec);
    CompleteStats(inputs, calls, st, g, f, c, rec);
    ReleaseUnits(calls, users + {c}, queue, c, rec);
    assert users + {c} - {c} == users;
    AdvancePending(inputs, calls, pending, c, Resume(c), rec, Key(0.0, 0), pending);
  }

  /** With nothing pending, every call has arrived and completed, and the pool is idle. */
  lemma Drained(inputs: seq<CallInput>, calls: seq<CallRecord>, now: real, users: set<nat>, queue: map<nat, Key>,
                st: ScenarioResult, g: seq<nat>, f: seq<nat>, capacity: nat)
    requires Good(inputs, calls, now, map[], None, users, queue, st, g, f)
    requires 1 <= capacity && (queue != map[] ==> |users| == capacity)
    ensures |calls| == |inputs|
    ensures forall c :: 0 <= c < |calls| ==> calls[c].phase == Completed
    ensures users == {} && queue == map[]
  {
    assert PendingAt(inputs, calls, map[], None, Tick);
    forall u: nat ensures u !in users {
      assert UnitAt(calls, users, queue, u);
      assert PendingAt(inputs, calls, map[], None, Resume(u));
    }
    assert users == {};
    forall c | 0 <= c < |calls| ensures calls[c].phase == Completed {
      assert UnitAt(calls, users, queue, c);
      assert PendingAt(inputs, calls, map[], None, Start(c)) && PendingAt(inputs, calls, map[], None, Resume(c));
    }
  }

  /** What the statistics say once the scenario has drained. */
  lemma FinalStats(inputs: seq<CallInput>, calls: seq<CallRecord>, now: real, users: set<nat>, queue: map<nat, Key>,
                   st: ScenarioResult, g: seq<nat>, f: seq<nat>)
    requires Good(inputs, calls, now, map[], None, users, queue, st, g, f)
    requires |calls| == |inputs|
    requires forall c :: 0 <= c < |calls| ==> calls[c].phase == Completed
    ensures st.totalCalls == |inputs|
    ensures st.simpleCalls == SimpleCount(inputs, |inputs|) && st.complexCalls == |inputs| - st.simpleCalls
    ensures |st.waits| == |inputs| && |st.services| == |inputs| && |st.totals| == |inputs|
    ensures |g| == |inputs| && |f| == |inputs|
    ensures forall k :: 0 <= k < |g| ==> g[k] < |inputs|
    ensures forall i, j :: 0 <= i < j < |g| ==> g[i] != g[j]
    ensures forall k :: 0 <= k < |f| ==> f[k] < |inputs|
    ensures forall i, j :: 0 <= i < j < |f| ==> f[i] != f[j]
    ensures forall k :: 0 <= k < |g| ==>
              && st.services[k] == ServiceTime(inputs[g[k]])
              && st.waits[k] == calls[g[k]].grant - calls[g[k]].queueEntry
              && 0.0 <= st.waits[k]
    ensures forall k :: 0 <= k < |f| ==>
              st.totals[k] == TriageDelay(inputs[f[k]]) + (calls[f[k]].grant - calls[f[k]].queueEntry) + ServiceTime(inputs[f[k]])
    ensures forall i :: 0 <= i < |calls| ==>
              && calls[i].arrival == Elapsed(inputs, i + 1)
              && calls[i].queueEntry == calls[i].arrival + TriageDelay(inputs[i])
              && calls[i].queueEntry <= calls[i].grant
              && calls[i].finish == calls[i].grant + ServiceTime(inputs[i])
  {
    CountAllCompleted(calls, 1);
    CountAllCompleted(calls, 4);
    CountAllCompleted(calls, 5);
    SimpleAllStarted(inputs, calls);
    forall i | 0 <= i < |calls|
      ensures calls[i].arrival == Elapsed(inputs, i + 1) && calls[i].queueEntry == calls[i].arrival + TriageDelay(inputs[i])
      ensures calls[i].queueEntry <= calls[i].grant && calls[i].finish == calls[i].grant + ServiceTime(inputs[i])
    {
      assert CallAt(inputs, calls, now, i);
    }
    forall k | 0 <= k < |g|
      ensures g[k] < |inputs| && st.services[k] == ServiceTime(inputs[g[k]])
      ensures st.waits[k] == calls[g[k]].grant - calls[g[k]].queueEntry && 0.0 <= st.waits[k]
    {
      assert GrantLinked(calls, st, g, k);
      assert CallAt(inputs, calls, now, g[k]);
    }
    forall k | 0 <= k < |f|
      ensures f[k] < |inputs|
      ensures st.totals[k] == TriageDelay(inputs[f[k]]) + (calls[f[k]].grant - calls[f[k]].queueEntry) + ServiceTime(inputs[f[k]])
    {
      assert FinishLinked(calls, st, f, k);
      assert CallAt(inputs, calls, now, f[k]);
    }
  }

  // ---------------------------------------------------------------------------
  // One scenario, imperatively
  // ---------------------------------------------------------------------------

  /**
   * A scenario in progress (`run_simulation`): the scheduler, the fire units
   * (`CentralDeEmergencia.bombeiros`), each spawned call's record and the statistics.
   */
  class Dispatch {
    const inputs: seq<CallInput>
    const sched: Scheduler<Wakeup>
    /** The fire units (`CentralDeEmergencia.bombeiros`). */
    const units: PriorityResource
    /** One record per call spawned so far, in spawn order. */
    var calls: seq<CallRecord>
    /** The statistics (`stats_locais`), updated as the calls progress. */
    var stats: ScenarioResult
    /** The call behind each entry of `stats.waits` and `stats.services`. */
    ghost var grantOrder: seq<nat>
    /** The call behind each entry of `stats.totals`. */
    ghost var finishOrder: seq<nat>

    /** The invariant while wake-up `skip` is being handled. */
    ghost predicate Inv(skip: Option<Wakeup>)
      reads this, sched, units
    {
      && sched.Valid()
      && units.Valid()
      && Good(inputs, calls, sched.now, sched.pending, skip, units.users, units.queue, stats, grantOrder, finishOrder)
    }

    ghost predicate Valid()
      reads this, sched, units
    {
      Inv(None)
    }

    /** Call `c`'s service is over and its unit is back in the pool; `c` has yet to be recorded as complete. */
    ghost predicate Releasing(c: nat)
      reads this, sched, units
    {
      && sched.Valid()
      && units.Valid()
      && c !in units.users
      && c < |calls| && calls[c].phase == InService
      && sched.now == WakeTime(inputs, calls, Resume(c))
      && Good(inputs, calls, sched.now, sched.pending, Some(Resume(c)), units.users + {c}, units.queue,
              stats, grantOrder, finishOrder)
    }

    ghost function Remaining(): int
      reads this
    {
      Measure(inputs, calls)
    }

    /** A fresh scenario (`run_simulation` before `env.run()`): no calls yet, the generator waits for the first gap. */
    constructor (inputs: seq<CallInput>, capacity: nat)
      requires 1 <= capacity
      ensures Valid()
      ensures fresh(sched) && fresh(units)
      ensures this.inputs == inputs && units.capacity == capacity && calls == []
      ensures stats == ScenarioResult(0, 0, 0, [], [], [])
      ensures sched.now == 0.0
    {
      var s := new Scheduler<Wakeup>();
      ghost var key := Key(0.0, 0);
      if 0 < |inputs| {
        s.Schedule(Gap(inputs[0]), Tick);
        key := s.pending[Tick];
      }
      var u := new PriorityResource(capacity);
      InitialStep(inputs, s.pending, key);
      this.inputs := inputs;
      sched := s;
      units := u;
      calls := [];
      stats := ScenarioResult(0, 0, 0, [], [], []);
      grantOrder, finishOrder := [], [];
    }

    /**
     * One iteration of the call generator (`gerador_de_chamadas`): after its
     * gap, call `c` (the next in the list) is spawned at the current instant,
     * and the generator waits for the next gap if calls remain. The new call's
     * start is left to the caller, which runs it next.
     */
    method Spawn() returns (c: nat)
      requires Inv(Some(Tick)) && Awaits(inputs, calls, Tick)
      requires sched.now == WakeTime(inputs, calls, Tick)
      modifies this, sched
      ensures Inv(Some(Start(c))) && Awaits(inputs, calls, Start(c)) && sched.now == WakeTime(inputs, calls, Start(c))
      ensures Remaining() < old(Remaining())
      ensures sched.now == old(sched.now)
      ensures c == |old(calls)| && calls == old(calls) + [CallRecord(Arrived, 0, old(sched.now), 0.0, 0.0, 0.0, 0.0)]
      ensures stats == old(stats)
    {
      var cs := calls;
      c := |cs|;
      var now := sched.now;
      var rec := CallRecord(Arrived, 0, now, 0.0, 0.0, 0.0, 0.0);
      ghost var pending := sched.pending;
      assert PendingAt(inputs, cs, pending, Some(Tick), Tick);
      ghost var k2 := Key(0.0, 0);
      if c + 1 < |inputs| {
        sched.Schedule(Gap(inputs[c + 1]), Tick);
        k2 := sched.pending[Tick];
      }
      SpawnStep(inputs, cs, now, pending, units.users, units.queue, stats, grantOrder, finishOrder,
                rec, k2, sched.pending);
      calls := cs + [rec];
    }

    /**
     * A call process starts (`chamada` up to its first suspension), at the
     * instant it was spawned: it is counted, classified without any delay in
     * simulated time, counted as simple or complex, and waits out its triage
     * delay.
     */
    method BeginTriage(c: nat)
      requires Inv(Some(Start(c))) && Awaits(inputs, calls, Start(c))
      requires sched.now == WakeTime(inputs, calls, Start(c))
      modifies this, sched
      ensures Valid()
      ensures Remaining() < old(Remaining())
      ensures sched.now == old(sched.now)
      ensures calls == old(calls)[c := old(calls)[c].(phase := Triaged, priority := QueuePriority(inputs[c].verdict),
                                                      queueEntry := old(sched.now) + TriageDelay(inputs[c]))]
      ensures stats == old(stats).(totalCalls := old(stats.totalCalls) + 1,
                                   simpleCalls := old(stats.simpleCalls) + (if IsSimple(inputs[c].verdict) then 1 else 0),
                                   complexCalls := old(stats.complexCalls) + (if IsSimple(inputs[c].verdict) then 0 else 1))
    {
      var cs, st0 := calls, stats;
      var now := sched.now;
      var st := st0.(totalCalls := st0.totalCalls + 1);
      var verdict := inputs[c].verdict;
      var priority := QueuePriority(verdict);
      var delay: real;
      if IsSimple(verdict) {
        st := st.(simpleCalls := st.simpleCalls + 1);
        delay := RandomTime(inputs[c].simpleDraw) * 0.5;
      } else {
        st := st.(complexCalls := st.complexCalls + 1);
        delay := RandomTime(inputs[c].humanDraw);
      }
      var rec := cs[c].(phase := Triaged, priority := priority, queueEntry := now + delay);
      ghost var pending := sched.pending;
      assert PendingAt(inputs, cs, pending, Some(Start(c)), Resume(c));
      sched.Schedule(delay, Resume(c));
      TriageStep(inputs, cs, now, pending, units.users, units.queue, st0, grantOrder, finishOrder,
                 c, rec, st, sched.pending[Resume(c)]);
      calls := cs[c := rec];
      stats := st;
    }

    /**
     * Triage over, call `c` requests a unit with its queue priority. With a
     * unit free the request is granted at once (`granted`) and the call
     * resumes on it at the same instant; otherwise it waits in the queue.
     */
    method EnterQueue(c: nat) returns (granted: bool)
      requires Inv(Some(Resume(c)))
      requires c < |calls| && calls[c].phase == Triaged
      requires sched.now == WakeTime(inputs, calls, Resume(c))
      modifies this, sched, units
      ensures Valid()
      ensures Remaining() < old(Remaining())
      ensures sched.now == old(sched.now)
      ensures granted <==> |old(units.users)| < units.capacity
      ensures granted ==> calls == old(calls)[c := old(calls)[c].(phase := Granted, grant := old(sched.now))]
      ensures !granted ==> calls == old(calls)[c := old(calls)[c].(phase := Queued)]
      ensures stats == old(stats)
    {
      var cs := calls;
      var now := sched.now;
      ghost var pending, users, queue := sched.pending, units.users, units.queue;
      assert UnitAt(cs, users, queue, c) && PendingAt(inputs, cs, pending, Some(Resume(c)), Resume(c));
      granted := units.Request(c, cs[c].priority);
      if granted {
        var rec := cs[c].(phase := Granted, grant := now);
        sched.Schedule(0.0, Resume(c));
        AdmitStep(inputs, cs, now, pending, users, queue, stats, grantOrder, finishOrder, c, rec, sched.pending[Resume(c)]);
        calls := cs[c := rec];
      } else {
        var rec := cs[c].(phase := Queued);
        EnqueueStep(inputs, cs, now, pending, users, queue, stats, grantOrder, finishOrder, c, rec, units.queue[c]);
        calls := cs[c := rec];
      }
    }

    /**
     * Call `c` resumes on its granted request: its wait since entering the
     * queue and its service time are recorded, and it is served.
     */
    method StartService(c: nat)
      requires Inv(Some(Resume(c)))
      requires c < |calls| && calls[c].phase == Granted
      requires sched.now == WakeTime(inputs, calls, Resume(c))
      modifies this, sched
      ensures Valid()
      ensures Remaining() < old(Remaining())
      ensures sched.now == old(sched.now)
      ensures calls == old(calls)[c := old(calls)[c].(phase := InService, service := ServiceTime(inputs[c]))]
      ensures stats == old(stats).(waits := old(stats.waits) + [old(sched.now) - old(calls)[c].queueEntry],
                                   services := old(stats.services) + [ServiceTime(inputs[c])])
    {
      var cs, st := calls, stats;
      var now := sched.now;
      var service := ServiceTime(inputs[c]);
      var rec := cs[c].(phase := InService, service := service);
      ghost var pending := sched.pending;
      assert PendingAt(inputs, cs, pending, Some(Resume(c)), Resume(c));
      sched.Schedule(service, Resume(c));
      ServeStep(inputs, cs, now, pending, units.users, units.queue, st, grantOrder, finishOrder, c, rec, sched.pending[Resume(c)]);
      calls := cs[c := rec];
      stats := st.(waits := st.waits + [now - cs[c].queueEntry], services := st.services + [service]);
      grantOrder := grantOrder + [c];
    }

    /**
     * Call `c`'s service is over and it leaves the `with` block: its unit is
     * released and passes to the waiting call with the smallest (priority,
     * request number), if any (returned as `next`), whose request is granted.
     */
    method ReleaseUnit(c: nat) returns (next: Option<nat>)
      requires Inv(Some(Resume(c)))
      requires c < |calls| && calls[c].phase == InService
      requires sched.now == WakeTime(inputs, calls, Resume(c))
      modifies this, sched, units
      ensures Releasing(c)
      ensures Remaining() <= old(Remaining())
      ensures sched.now == old(sched.now) && stats == old(stats)
      ensures next.None? <==> old(units.queue) == map[]
      ensures next.None? ==> calls == old(calls)
      ensures next.Some? ==>
                && IsEarliest(old(units.queue), next.value)
                && next.value < |old(calls)| && old(calls)[next.value].phase == Queued
                && calls == old(calls)[next.value := old(calls)[next.value].(phase := Granted, grant := old(sched.now))]
    {
      if units.queue == map[] {
        FreeUnit(c);
        next := None;
      } else {
        var d := HandOver(c);
        next := Some(d);
      }
    }

    /** `ReleaseUnit` with nobody waiting: the unit becomes free. */
    method FreeUnit(c: nat)
      requires Inv(Some(Resume(c)))
      requires c < |calls| && calls[c].phase == InService
      requires sched.now == WakeTime(inputs, calls, Resume(c))
      requires units.queue == map[]
      modifies units
      ensures Releasing(c)
      ensures units.queue == map[]
    {
      ghost var users := units.users;
      assert UnitAt(calls, users, units.queue, c);
      var next := units.Release(c);
      assert units.users + {c} == users;
    }

    /** `ReleaseUnit` with calls waiting: the unit passes to the waiting call `d` with the smallest key. */
    method HandOver(c: nat) returns (d: nat)
      requires Inv(Some(Resume(c)))
      requires c < |calls| && calls[c].phase == InService
      requires sched.now == WakeTime(inputs, calls, Resume(c))
      requires units.queue != map[]
      modifies this, sched, units
      ensures Releasing(c)
      ensures Remaining() < old(Remaining())
      ensures sched.now == old(sched.now) && stats == old(stats)
      ensures IsEarliest(old(units.queue), d)
      ensures d < |old(calls)| && old(calls)[d].phase == Queued
      ensures forall v :: v in old(units.queue) ==> v < |old(calls)| && old(calls)[d].priority <= old(calls)[v].priority
      ensures calls == old(calls)[d := old(calls)[d].(phase := Granted, grant := old(sched.now))]
    {
      var cs := calls;
      var now := sched.now;
      ghost var pending, users, queue := sched.pending, units.users, units.queue;
      assert UnitAt(cs, users, queue, c);
      var next := units.Release(c);
      d := next.value;
      EarliestMostUrgent(cs, users, queue, d);
      assert UnitAt(cs, users, queue, d) && PendingAt(inputs, cs, pending, Some(Resume(c)), Resume(d));
      var rec := cs[d].(phase := Granted, grant := now);
      sched.Schedule(0.0, Resume(d));
      HandStep(inputs, cs, now, pending, users, queue, stats, grantOrder, finishOrder, c, d, rec, sched.pending[Resume(d)]);
      assert units.users + {c} == users + {d};
      calls := cs[d := rec];
    }

    /** Call `c`, its unit released, completes: its total handling time since arrival is recorded. */
    method Complete(c: nat)
      requires Releasing(c)
      modifies this
      ensures Valid()
      ensures Remaining() < old(Remaining())
      ensures calls == old(calls)[c := old(calls)[c].(phase := Completed, finish := sched.now)]
      ensures stats == old(stats).(totals := old(stats.totals) + [sched.now - old(calls)[c].arrival])
    {
      var cs, st := calls, stats;
      var now := sched.now;
      var rec := cs[c].(phase := Completed, finish := now);
      FinishStep(inputs, cs, now, sched.pending, units.users, units.queue, st, grantOrder, finishOrder, c, rec);
      calls := cs[c := rec];
      stats := st.(totals := st.totals + [now - cs[c].arrival]);
      finishOrder := finishOrder + [c];
    }

    /**
     * One iteration of `env.run()`: the earliest pending wake-up is taken and
     * its process runs to its next suspension. After a gap, the generator
     * spawns a call and the call's start, simpy's next event, runs right away.
     */
    method Step() returns (w: Wakeup)
      requires Valid() && sched.pending != map[]
      modifies this, sched, units
      ensures Valid()
      ensures Remaining() < old(Remaining())
      ensures IsEarliest(old(sched.pending), w)
      ensures old(sched.now) <= sched.now
      ensures units.users == set c | 0 <= c < |calls| && HoldsUnit(calls[c].phase)
      ensures |units.users| <= units.capacity
      ensures stats.totalCalls == stats.simpleCalls + stats.complexCalls
    {
      ghost var pending, now := sched.pending, sched.now;
      w := sched.Pop();
      PopStep(inputs, calls, now, pending, units.users, units.queue, stats, grantOrder, finishOrder, w, sched.now);
      if w.Tick? {
        var c := Spawn();
        BeginTriage(c);
      } else {
        var c := w.call;
        if calls[c].phase == Triaged {
          var _ := EnterQueue(c);
        } else if calls[c].phase == Granted {
          StartService(c);
        } else {
          var _ := ReleaseUnit(c);
          Complete(c);
        }
      }
      Occupancy(calls, units.users, units.queue, units.capacity);
    }

    /** `env.run()`: events are processed until none is pending; then every call has completed and the units are idle. */
    method Run()
      requires Valid()
      modifies this, sched, units
      ensures Valid() && sched.pending == map[]
      ensures |calls| == |inputs|
      ensures forall c :: 0 <= c < |calls| ==> calls[c].phase == Completed
      ensures units.users == {} && units.queue == map[]
    {
      while sched.pending != map[]
        invariant Valid()
        decreases Remaining()
      {
        var _ := Step();
      }
      Drained(inputs, calls, sched.now, units.users, units.queue, stats, grantOrder, finishOrder, units.capacity);
    }
  }

  /**
   * `run_simulation(num_unidades, ...)`: a fresh scenario with `numUnits` fire
   * units is run to completion and its statistics returned. A capacity below
   * one is refused, as the resource constructor refuses it.
   */
  method RunSimulation(numUnits: int, inputs: seq<CallInput>)
    returns (r: Result<ScenarioResult, SimError>, ghost calls: seq<CallRecord>, ghost g: seq<nat>, ghost f: seq<nat>)
    ensures r.Failure? <==> numUnits < 1
    ensures r.Failure? ==> r.error == InvalidCapacity
    ensures r.Success? ==>
              && r.value.totalCalls == |inputs|
              && r.value.simpleCalls == SimpleCount(inputs, |inputs|)
              && r.value.complexCalls == |inputs| - r.value.simpleCalls
              && |r.value.waits| == |inputs| && |r.value.services| == |inputs| && |r.value.totals| == |inputs|
    ensures r.Success? ==> forall k :: 0 <= k < |r.value.waits| ==> 0.0 <= r.value.waits[k]
    ensures r.Success? ==>
              && |calls| == |inputs| && |g| == |inputs| && |f| == |inputs|
              && (forall k :: 0 <= k < |g| ==> g[k] < |inputs|)
              && (forall i, j :: 0 <= i < j < |g| ==> g[i] != g[j])
              && (forall k :: 0 <= k < |f| ==> f[k] < |inputs|)
              && (forall i, j :: 0 <= i < j < |f| ==> f[i] != f[j])
              && (forall k :: 0 <= k < |g| ==>
                    && r.value.services[k] == ServiceTime(inputs[g[k]])
                    && r.value.waits[k] == calls[g[k]].grant - calls[g[k]].queueEntry)
              && (forall k :: 0 <= k < |f| ==>
                    r.value.totals[k]
                      == TriageDelay(inputs[f[k]]) + (calls[f[k]].grant - calls[f[k]].queueEntry) + ServiceTime(inputs[f[k]]))
              && (forall i :: 0 <= i < |calls| ==>
                    && calls[i].arrival == Elapsed(inputs, i + 1)
                    && calls[i].queueEntry == calls[i].arrival + TriageDelay(inputs[i])
                    && calls[i].queueEntry <= calls[i].grant
                    && calls[i].finish == calls[i].grant + ServiceTime(inputs[i]))
  {
    if numUnits < 1 {
      r, calls, g, f := Failure(InvalidCapacity), [], [], [];
    } else {
      var d := new Dispatch(inputs, numUnits);
      d.Run();
      FinalStats(inputs, d.calls, d.sched.now, d.units.users, d.units.queue, d.stats, d.grantOrder, d.finishOrder);
      r, calls, g, f := Success(d.stats), d.calls, d.grantOrder, d.finishOrder;
    }
  }
}
