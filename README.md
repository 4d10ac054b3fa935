# Fire-dispatch simulation: verified model

This project models the core of a discrete-event simulation of a fire
brigade's emergency-call centre.

Emergency calls arrive one after another, each after a gap. An external
classifier triages every call ("Simples" or not) and gives it an urgency.
After a triage delay the call queues for a limited pool of fire units,
ordered by urgency and then by order of request. It holds one unit for a
service time and then releases it. Per-scenario counters and duration lists
are updated along the way.

A second simulation is the FIFO baseline: the same queue without triage or
priorities, driven by a table of gaps and service times. A small selection
rule chooses the probability distribution that best fits a timing sample by
the Kolmogorov–Smirnov statistic.

The event machinery of `simpy` is rebuilt from scratch. It has three parts:

- a scheduler: a clock plus the pending wake-ups, ordered by (time, insertion number);
- a non-preemptive priority resource: its units, their holders, and a queue ordered by (priority, request number);
- call processes: explicit state machines.

A call goes through the phases Arrived → Triaged → Queued → Granted → InService → Completed. Granted is the instant between a
request being granted and the call resuming on it, which `simpy` also
separates.

`simpy` starts a new process with an urgent event, which runs before any
ordinary event pending at the same instant. Nothing else here is urgent, so a
call's start is always the very next event after the generator spawns it. The
models therefore run the start within the step that spawns the call, after
the generator has scheduled its next gap, and no start is ever pending
(`Lifecycle.NoStarts`, part of both invariants).

Modules, in dependency order:

- `Wrappers`: `Option`, `Result`.
- `Ordering`: lexicographic keys and the argmin search `Earliest`.
- `Kernel`: class `Scheduler`, which stands in for `simpy.Environment`.
- `Resources`: class `PriorityResource`, standing in for `simpy.PriorityResource` and, with every priority equal, for `simpy.Resource`.
- `Lifecycle`: call phases, call records and what the unit pool says about them.
- `Environment`: the priority-dispatch simulation. It comprises the oracles, the invariant, the class `Dispatch` and `RunSimulation`.
- `Baseline`: the FIFO simulation. It comprises the closed form for one unit, means, the class `Scenario`, `RunSimulation` and `RunScenarios`.
- `Fitter`: the best-fit selection loop.

Each scenario is proved against an invariant (`Good`) stated over plain
values. The invariant says three things:

- pending wake-ups are exactly those the calls await, each due at the right instant;
- unit holders and queued requests are exactly the calls in those phases;
- every measurement is linked to the call it belongs to.

One lemma per kind of transition shows that the invariant is kept and that
a measure of events still to come decreases. The class methods call those
lemmas, and `Run` ends with every call completed.

Several inputs are parameters:

- Sampler draws: each call's raw draws are given in `CallInput`. `get_random_time` clamps each draw.
- The classifier's answers: each call's `Verdict` is given in `CallInput`.
- The baseline's input table: a sequence of `Row`s.
- Fitting and testing each candidate family: a `Trial` per candidate.

## Model

| member | source | states |
|---|---|---|
| Ordering.Earliest | src/simulation/environment.py:56-57 | returns the entry whose (primary, insertion number) key precedes every other key in the map |
| Kernel.Scheduler.constructor | src/simulation/environment.py:91 | a new environment starts at time 0 with nothing pending |
| Kernel.Scheduler.Schedule | src/simulation/environment.py:39 | `timeout(delay)`: adds exactly one wake-up due at `now + delay` with a fresh insertion number; the clock does not move |
| Kernel.Scheduler.Pop | src/simulation/environment.py:94 | removes the wake-up with the earliest (time, insertion number), moves the clock to its time, never backwards |
| Resources.PriorityResource.constructor | src/simulation/environment.py:14-15 | a pool of `capacity` (at least 1) free units with nobody waiting |
| Resources.PriorityResource.Request | src/simulation/environment.py:56-57 | granted exactly when fewer than `capacity` units are busy, otherwise queued under (priority, next request number); no holder loses its unit |
| Resources.PriorityResource.Release | src/simulation/environment.py:56-64 | the unit goes back; if anyone waits, the one with the smallest (priority, request number) gets it and leaves the queue |
| Lifecycle.EarliestMostUrgent | src/simulation/environment.py:56-57 | the request granted next is a queued call with no smaller priority value than any waiting call |
| Lifecycle.Occupancy | src/simulation/environment.py:15 | the unit holders are exactly the granted and in-service calls, and there are at most `capacity` of them |
| Lifecycle.CountExtremes | src/simulation/environment.py:21 | the number of calls that reached a phase equals the number of calls exactly when all of them did, and is zero exactly when none did |
| Environment.RandomTime | src/simulation/environment.py:5-8 | `max(0, draw)`: never negative, equal to the draw when the draw is non-negative, 0 otherwise |
| Environment.QueuePriority | src/simulation/environment.py:26 | queue priority plus original priority is 3; a missing original priority gives 1 |
| Environment.TriageDelay | src/simulation/environment.py:33-48 | half the clamped "atendimento_simples" draw on the "Simples" branch, the clamped "atendimento_humano" draw on any other decision; never negative |
| Environment.ServiceTime | src/simulation/environment.py:62 | a service time drawn through `get_random_time` is never negative |
| Environment.Gap | src/simulation/environment.py:74 | an inter-arrival gap drawn through `get_random_time` is never negative |
| Environment.Elapsed | src/simulation/environment.py:73-74 | an arrival instant (the sum of the gaps before the call) is never negative |
| Environment.ArrivalsInOrder | src/simulation/environment.py:73-76 | calls are spawned in list order: a later call never arrives earlier |
| Environment.SimpleCountExtremes | src/simulation/environment.py:33-34 | the number of "Simples" verdicts among the first n calls is n exactly when all of them are "Simples", and zero exactly when none is |
| Environment.SimpleAllStarted | src/simulation/environment.py:33-34 | once every call has started, the simple counter equals the number of "Simples" verdicts |
| Environment.InitialStep | src/simulation/environment.py:91-93 | the initial state (generator waiting for the first gap) satisfies the scenario invariant |
| Environment.PopStep | src/simulation/environment.py:94 | taking the earliest wake-up keeps the invariant; that wake-up was awaited, due at the new time, and never a process start |
| Environment.SpawnStep | src/simulation/environment.py:73-76 | spawning the next call at the current instant and scheduling the next gap keeps the invariant, with the new call's start being handled, and uses up an event |
| Environment.TriageStep | src/simulation/environment.py:21-48 | counting and classifying a call and scheduling its triage delay keeps the invariant, including total = simple + complex |
| Environment.AdmitStep | src/simulation/environment.py:55-57 | an immediately granted request keeps the invariant |
| Environment.EnqueueStep | src/simulation/environment.py:55-57 | a queued request keeps the invariant |
| Environment.ServeStep | src/simulation/environment.py:57-64 | recording wait and service time at resumption and scheduling the service keeps the invariant |
| Environment.HandStep | src/simulation/environment.py:56-64 | handing a released unit to the earliest waiting request keeps the invariant |
| Environment.FinishStep | src/simulation/environment.py:66 | recording the total handling time after release keeps the invariant |
| Environment.Drained | src/simulation/environment.py:94 | with nothing pending, every call has been spawned and completed and no unit is held or awaited |
| Environment.FinalStats | src/simulation/environment.py:58-66 | after the run: `total_chamadas` = number of calls = each list's length; simple count = "Simples" verdicts; each wait = grant − queue entry ≥ 0; each service = that call's service time; each total = triage delay + wait + service time; for every call i, arrival = sum of the first i+1 gaps, queue entry = arrival + triage delay ≤ grant, and finish = grant + service time |
| Environment.Dispatch.constructor | src/simulation/environment.py:82-93 | fresh scheduler, units and zeroed statistics; the first gap is scheduled |
| Environment.Dispatch.Spawn | src/simulation/environment.py:73-76 | appends an Arrived record at the current instant, schedules the next gap if calls remain, and hands back the new call, whose start is due now; statistics unchanged |
| Environment.Dispatch.BeginTriage | src/simulation/environment.py:21-48 | increments the total once and exactly one of the simple/complex counters; the queue entry is arrival + triage delay; classification takes no simulated time |
| Environment.Dispatch.EnterQueue | src/simulation/environment.py:55-57 | requests a unit with the call's priority: granted at the current instant exactly when a unit is free, otherwise Queued |
| Environment.Dispatch.StartService | src/simulation/environment.py:57-64 | appends wait = now − queue entry and the service time, then starts the service |
| Environment.Dispatch.ReleaseUnit | src/simulation/environment.py:56-64 | after the service the unit is released; the earliest waiting request, if any, is granted at the same instant |
| Environment.Dispatch.FreeUnit | src/simulation/environment.py:56-64 | with nobody waiting, the released unit stays free |
| Environment.Dispatch.HandOver | src/simulation/environment.py:56-57 | the released unit goes to the queued call with the earliest key; no waiting call has a smaller priority value |
| Environment.Dispatch.Complete | src/simulation/environment.py:66 | appends the total handling time, now − arrival |
| Environment.Dispatch.Step | src/simulation/environment.py:94 | one event (after a gap, the spawn together with the new call's start): the invariant is kept, the clock never goes back, at most `num_unidades` calls hold a unit, total = simple + complex |
| Environment.Dispatch.Run | src/simulation/environment.py:94 | `env.run()` terminates, and then every call has completed and the units are idle |
| Environment.RunSimulation | src/simulation/environment.py:78-96 | fails with InvalidCapacity exactly when `num_unidades` < 1; otherwise returns the statistics `FinalStats` describes, together with the call records behind them: each call's arrival, queue entry, grant and finish as `FinalStats` states |
| Baseline.Elapsed | notebooks/simulacao_sem_chatbot.py:19-21 | on a well-formed table an arrival instant (the sum of the preceding `Interarrival` values) is never negative |
| Baseline.ArrivalsInOrder | notebooks/simulacao_sem_chatbot.py:19-22 | rows are processed in order: a later call never arrives earlier |
| Baseline.StartTime | notebooks/simulacao_sem_chatbot.py:8-16 | on one unit a call starts at max(its arrival, its predecessor's finish) |
| Baseline.SerialWaits | notebooks/simulacao_sem_chatbot.py:8-13 | the one-unit waits: start time − arrival, one per row |
| Baseline.ThreeCallsOneUnit | notebooks/simulacao_sem_chatbot.py:8-22 | gaps 1, 1, 1 with service 5 on one unit give waits 0, 4, 8 |
| Baseline.Mean | notebooks/simulacao_sem_chatbot.py:35-36 | 0 for an empty list, otherwise mean × length = sum |
| Baseline.SumBounds | notebooks/simulacao_sem_chatbot.py:35-36 | bounds on the elements bound the sum |
| Baseline.MeanBounds | notebooks/simulacao_sem_chatbot.py:35-36 | the mean of a non-empty list lies between any bounds of its elements |
| Baseline.MeanNonNegative | notebooks/simulacao_sem_chatbot.py:35-36 | the mean of non-negative values, or of none, is non-negative |
| Baseline.Summarize | notebooks/simulacao_sem_chatbot.py:32-37 | the result dict: `num_units`, `served`, and each average 0 on an empty list, otherwise mean × length = sum |
| Baseline.ServiceColumn | notebooks/simulacao_sem_chatbot.py:22 | the rows' `Service Time` column, in row order |
| Baseline.InitialStep | notebooks/simulacao_sem_chatbot.py:25-29 | the initial state satisfies the scenario invariant |
| Baseline.PopStep | notebooks/simulacao_sem_chatbot.py:30 | taking the earliest wake-up keeps the invariant; that wake-up was awaited, due at the new time, and never a process start |
| Baseline.SpawnStep | notebooks/simulacao_sem_chatbot.py:19-22 | spawning the next row's call and scheduling the next gap keeps the invariant, with the new call's start being handled; every earlier call has already made its request |
| Baseline.AdmitStep | notebooks/simulacao_sem_chatbot.py:9-11 | an immediate grant keeps the invariant; on one unit every earlier call has completed |
| Baseline.EnqueueStep | notebooks/simulacao_sem_chatbot.py:10-11 | a queued request joins behind every waiting one and keeps the invariant |
| Baseline.ServeStep | notebooks/simulacao_sem_chatbot.py:11-14 | appending wait = grant − arrival at resumption keeps the invariant |
| Baseline.HandStep | notebooks/simulacao_sem_chatbot.py:10-16 | the released unit passes to the earliest waiting request; every call before it has been granted; on one unit it is the next row |
| Baseline.FreeStep | notebooks/simulacao_sem_chatbot.py:10-16 | a release with nobody waiting keeps the invariant |
| Baseline.FinishStep | notebooks/simulacao_sem_chatbot.py:14-16 | appending the service time and incrementing `served` after the timeout keeps the invariant |
| Baseline.Drained | notebooks/simulacao_sem_chatbot.py:30 | with nothing pending, every row's call has completed and the pool is idle |
| Baseline.FinalMetrics | notebooks/simulacao_sem_chatbot.py:9-16 | after the run: served = length of each list = number of rows; each wait = grant − arrival ≥ 0; each service time is its row's; grants are in row order |
| Baseline.FinalSerial | notebooks/simulacao_sem_chatbot.py:8-22 | on one unit the waits are exactly the closed-form ones and the service times are the column, in row order |
| Baseline.Scenario.constructor | notebooks/simulacao_sem_chatbot.py:25-29 | fresh environment, resource and empty metrics; the first gap is scheduled |
| Baseline.Scenario.Spawn | notebooks/simulacao_sem_chatbot.py:19-22 | after each gap one call is spawned at the current instant and the next gap scheduled; hands back the new call, whose start is due now and behind every earlier call's request |
| Baseline.Scenario.Arrive | notebooks/simulacao_sem_chatbot.py:8-11 | notes the arrival and requests a unit: granted at once exactly when one is free |
| Baseline.Scenario.BeginService | notebooks/simulacao_sem_chatbot.py:11-14 | appends wait = now − arrival, then starts the service timeout |
| Baseline.Scenario.ReleaseUnit | notebooks/simulacao_sem_chatbot.py:10-16 | the unit returns; the earliest request, if any, is granted; every call before it has been granted; on one unit it is the next row |
| Baseline.Scenario.FreeUnit | notebooks/simulacao_sem_chatbot.py:10-16 | with nobody waiting, the unit stays free |
| Baseline.Scenario.HandOver | notebooks/simulacao_sem_chatbot.py:10-11 | the unit passes to the earliest waiting request, in arrival order |
| Baseline.Scenario.Finish | notebooks/simulacao_sem_chatbot.py:14-16 | appends the row's service time and increments `served` |
| Baseline.Scenario.Step | notebooks/simulacao_sem_chatbot.py:30 | one event (after a gap, the spawn together with the new call's start) keeps the invariant; at most `num_units` calls hold a unit |
| Baseline.Scenario.Run | notebooks/simulacao_sem_chatbot.py:30 | `env.run()` terminates with every call served and the pool idle |
| Baseline.RunSimulation | notebooks/simulacao_sem_chatbot.py:25-38 | fails exactly when `num_units` < 1; otherwise the summary of the metrics, everything `FinalMetrics` states, non-negative averages, and on one unit the closed form |
| Baseline.MeasuredSigns | notebooks/simulacao_sem_chatbot.py:35-36 | neither average of a run is negative |
| Baseline.CollectMeasured | notebooks/simulacao_sem_chatbot.py:69 | storing a run's metrics under its unit count keeps every stored entry a complete run |
| Baseline.CollectLast | notebooks/simulacao_sem_chatbot.py:68-69 | the summary kept for a unit count is that of the last scenario with that count |
| Baseline.CollectStep | notebooks/simulacao_sem_chatbot.py:66-69 | collecting one more scenario keeps what is known of all collected ones |
| Baseline.RunScenarios | notebooks/simulacao_sem_chatbot.py:62-69 | one fresh run per scenario: fails exactly when some count < 1; otherwise one summary per scenario in order, the metrics keyed by unit count, each a complete run |
| Fitter.Choice | src/analysis/distribution_fitter.py:23-35 | the candidate kept after the first n: none exactly when none of them produced a finite D, otherwise one whose D is ≤ every successful D and strictly below every earlier successful D |
| Fitter.ChoiceUnique | src/analysis/distribution_fitter.py:32-35 | there is only one best candidate: any candidate meeting that description is the one kept |
| Fitter.FindBestDistribution | src/analysis/distribution_fitter.py:16-41 | tries expon, lognorm, gamma, weibull_min in order and skips raised or NaN trials; returns the kept candidate's family and its own params, which is the unique best (D ≤ every successful D, ties go to the earlier candidate); fails with no family exactly when no trial succeeded |

## Left out

- Input and output are not modelled: CSV loading, timestamp parsing, plotting, tables and all `print` tracing. This covers `main.py` and lines 40–104 of the notebook.
- The classifier (LLM, ML models, cache) is a foreign call. Its answer for each call is an input `Verdict`.
  - A raising classifier aborts the run in the source; the model always has an answer.
  - The code keeps no tally of dropped calls, and neither does the model.
- Sampling (`rvs`), maximum-likelihood `fit` and `kstest` are floating-point library numerics. They are inputs: raw draws per call, and a `Trial` per candidate family.
- Durations are `real`. NaN, infinities and rounding are not modelled in the simulations. Python's `max(0, nan)` would give 0. Only the fitter models NaN and infinity, because its comparison depends on them.
- The sampler keys are modelled as `environment.py` reads them: separate "atendimento_simples" and "atendimento_humano" draws.
  - `main.py` (lines 58–62) passes "atendimento_operador" instead.
  - As written, the first triage there raises `KeyError`. That caller is not part of this model.
- Environment.Dispatch.ReleaseUnit hands the unit to the earliest waiting request within the releasing step.
  - In `simpy` the release frees the unit at once, but the waiting request is granted only when the release event is processed, later within the same simulated instant, or earlier if another request is made at that instant in between.
  - Such a request is served from the head of the sorted queue, so a more urgent newcomer takes the unit ahead of the call that was waiting; the model does not capture that.
  - In the FIFO baseline the head is always the earlier request, so only the order of same-instant events differs, not who is granted or when.
- Baseline.Scenario.ReleaseUnit runs before Baseline.Scenario.Finish. In the source, the service time is appended and `served` incremented inside the `with` block, just before the release.
  - Both happen in the same step at the same instant, and nothing observes the state between them.
- Baseline.WellFormed requires non-negative, finite gaps and service times.
  - Line 53 of the notebook recomputes the gaps with `diff()`, so the first row's gap is always NaN when the notebook runs, and line 52 recomputes the service times without the clipping of lines 47–49.
  - A negative gap or service time makes `simpy`'s `timeout` raise `ValueError`; a NaN is not modelled. The model accepts neither.
- `simpy.Resource` in the baseline is `PriorityResource` with every priority 0. That is first come, first served by request number.
- Baseline.RunScenarios takes any list of unit counts, not only `[3, 5, 8, 10]`. The pandas `DataFrame` of results is not modelled.
- Fitter.FindBestDistribution returns the family and its parameters. The KS p-value, which the source computes and discards, is not modelled.
- A call's name (`Chamada-k`) and scenario text are not modelled, beyond the verdict. Call k is index k − 1.
