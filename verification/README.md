# Verified model of the llm-max autotuner

This project models the part of llm-max that decides which runtime config a model runs with: the benchmark, the
candidate search, the choice of a winner, the rollback policy, the autopilot loop that drives them, and the stores the
loop reads and writes. `dafny verify dfyconfig.toml` checks everything.

## How it is built

- `Domain.dfy` holds the values; `Metrics.dfy`, `Search.dfy` (with the default-config tiers) and `Evaluator.dfy` (with
  the rollback policy) hold the pure code.
- `Runner.dfy` has the adapter, the benchmark loop and what a benchmark reports.
- `Autopilot.dfy` gives the meaning of a tuning pass and of the generator: `Next` is one `next()`, from a yield to the
  next yield, and `Run` is n of them. `Engine.dfy` has the engine and the generator as classes whose methods change
  their fields step by step; each method is proved to do what `Autopilot.dfy` says, so `Drain` is `Run`.
- Everything the loop does not control is an arbitrary tape in a `World`: adapter replies by call number, reachability,
  hardware scans, clock readings, which audit writes raise, and what others do to the store while the generator is
  suspended. A theorem about `Run(w, Start(w, store, history), n)` is therefore about every run. `State.measured` and
  `State.changes` only record what happened; the loop never reads them.
- `Decision.dfy` proves what one pass decides. `Moves.dfy` proves that each resumption is one of eight moves, and what
  each move does. `Turns.dfy` states one turn of the loop in full. `RateLimit.dfy`, `Sessions.dfy`, `LockSafety.dfy`,
  `Pacing.dfy`, `KnownGood.dfy`, `Audit.dfy`, `Rollbacks.dfy`, `FailingBaseline.dfy` and `Convergence.dfy` prove the properties of whole runs.
- `MemoryStorage.dfy`, `SqliteStore.dfy` and `Resilient.dfy` model the stores.

Throughput, latency, percentages and times are exact reals; Python's `round` is modelled as half-to-even.

## Where the code and its documentation differ

- The loop's docstring says the daily cap covers accepted configs and rollbacks together (`engine.py:217-222`). The code
  checks the cap only before accepting. `RateLimit.DocumentedCapExactly` gives the exact condition under which a run
  keeps the documented cap, and `RollbackCycle.DocumentedCapFails` a run that breaks it, for every cap, on a clock that
  advances by the interval the loop sleeps.
- `rollback_target` asks callers to stop autopilot when it returns None (`rollback.py:22-26`). The loop goes on to tune:
  `RollbackCycle.FailingActiveExactly`.
- A pass whose baseline fails can end RATE_LIMITED and stay on the failing config although a viable candidate was
  measured. `SessionProperties.TuningOutcomeExactly` says when, and `FailingBaseline.FailingConfigKept` gives such a run
  for every cap.
- The storage interface says a tuned config is inserted or updated (`base.py:24-26`); every store only inserts.
- `list_runs` and `list_autopilot_events` treat an empty model id and a negative limit differently in the two stores;
  `SqliteStore.ListsAgreeOnLimit` and `SqliteStore.ListsAgreeOnEmptyId` together say for every filter and limit exactly
  when they agree.

## Model

| member | source | states |
|---|---|---|
| Metrics.RoundHalfEven | core/llm_max/bench/metrics.py:36 | rounds to within one half, and a tie goes to the even neighbour |
| Metrics.IndexMonotone | core/llm_max/bench/metrics.py:36-37 | for percentages in [0, 100] the index is the rank nearest to pct / 100 * (n - 1), the even one halfway between two, and a larger percentage never picks an earlier rank |
| Metrics.IndexAtEnds | core/llm_max/bench/metrics.py:36-37 | percentages out of range are clamped to the first and the last rank |
| Metrics.PercentileRank | core/llm_max/bench/metrics.py:30-38 | a percentile is the sample at that nearest rank, as counted by how many samples are no larger and no smaller; the least sample from 0 down and the greatest from 100 up |
| Metrics.OneAtRank | core/llm_max/bench/metrics.py:30-38 | only one value has that rank, so the counts alone determine the percentile |
| Metrics.PercentilePermutes | core/llm_max/bench/metrics.py:35-38 | only the samples matter, not their order |
| Metrics.PercentileMonotone | core/llm_max/bench/metrics.py:30-38 | percentiles grow with the percentage |
| Runner.RunBenchmark | core/llm_max/bench/runner.py:24-64 | the loop reports what the first exception in its trial determines, and makes as many adapter calls as it reports attempted |
| Runner.MeasurementOutcome | core/llm_max/bench/runner.py:34-64 | each prompt is sent in turn with the given options; success exactly when no call raises; on failure completed is attempted minus one, the error and the out-of-memory flag are those of the call that raised, and no statistic is given; out-of-memory is always failure |
| Runner.LatencyPercentiles | core/llm_max/bench/runner.py:60-61 | on success p50 <= p95, and they are the measured latencies of rank 50 and 95 per cent |
| Runner.ThroughputMissing | core/llm_max/bench/runner.py:50-59 | throughput is missing exactly when no reply carried a nonzero one |
| Runner.ThroughputIsAverage | core/llm_max/bench/runner.py:50-59 | the reported throughput times the number of replies with a nonzero one is their total; it is missing exactly when there are none |
| Runner.ThroughputBounds | core/llm_max/bench/runner.py:50-59 | the mean throughput lies between any bounds on the counted samples |
| Runner.MeasurementRepeats | core/llm_max/bench/runner.py:34-64 | replies that depend only on prompt and options give the same benchmark at every call position |
| Search.CandidateValues | core/llm_max/autotune/search.py:24-30 | the tried contexts strictly increase and are exactly the baseline, its half from 512 up, and its double up to 8192 |
| Search.CandidatesExactly | core/llm_max/autotune/search.py:24-30 | the same of the configs: exactly those that set num_ctx alone to such a value, in increasing order, a missing num_ctx counting as 2048 |
| Search.CandidatesInRange | core/llm_max/autotune/search.py:24-30 | all candidates lie in [512, 8192] exactly when the baseline does; then there are three, or two at either end |
| Search.OwnCandidate | core/llm_max/autotune/search.py:24-30 | a baseline is among its own candidates exactly when num_ctx is its only key |
| ConfigBuilder.TierByAnyGpu | core/llm_max/launcher/config_builder.py:30-40 | the default tier is decided by whether some GPU has the recommended or the minimum memory free |
| Evaluator.PickBestIsFirstBest | core/llm_max/autotune/evaluator.py:28-45 | None exactly when nothing is viable; else a viable result that no other scores above, and that scores above every earlier one |
| Evaluator.PickBestByFields | core/llm_max/autotune/evaluator.py:28-45 | in measured values: the usable result with most throughput, a missing one counting as zero, then least p95, a missing one losing to any, and the first of full ties |
| Evaluator.ImprovesExactly | core/llm_max/autotune/evaluator.py:48-69 | exactly when the candidate works and the baseline fails or is beaten by the percentage, stated without division, a missing throughput counting as zero; by default from 1.05 times the baseline's throughput on |
| Evaluator.ImprovesMonotone | core/llm_max/autotune/evaluator.py:48-69 | whatever is at least as fast as an improvement is one too |
| RollbackPolicy.TargetIsNewestOther | core/llm_max/autotune/rollback.py:20-34 | the target is viable history other than the failing config, everything newer is unusable; none exactly when no entry would do |
| DecisionProperties.DecideIsExact | core/llm_max/autotune/engine.py:122-166 | a new config is accepted exactly when some alternative is viable and meaningfully better, so testing only the best loses nothing; the winner works exactly when anything measured works |
| DecisionProperties.PassIsExact | core/llm_max/autotune/engine.py:89-166 | the same for a whole pass from any config, with what was measured, under which configs, and at most four benchmarks |
| DecisionProperties.MeasureSends | core/llm_max/autotune/engine.py:93-99 | a config is sent as the options of every call, the empty one as no options, and works exactly when all calls are answered |
| DecisionProperties.PassInOrder | core/llm_max/autotune/engine.py:93-120 | a pass benchmarks its baseline and then each other candidate once, in order, back to back on the adapter's calls |
| DecisionProperties.AcceptedIsBestAndSmallest | core/llm_max/autotune/evaluator.py:36-45 | an accepted config has the most throughput and then the least p95 of all usable candidates, and of those that tie in both the smallest context |
| Engine.TuningEngine.TuneOnce | core/llm_max/autotune/engine.py:70-166 | one pass, or the error when the runtime is unreachable, with its effect on the adapter and the scans |
| Engine.TuningEngine.MeasureCandidates | core/llm_max/autotune/engine.py:101-120 | the candidate loop, reusing the baseline's result for the baseline's config |
| Engine.TuningEngine.DefaultBaselineConfig | core/llm_max/autotune/engine.py:49-54 | the default for the hardware as scanned now, without a scan when there is no model spec |
| Engine.TuningEngine.LogEvent | core/llm_max/autotune/engine.py:56-68 | a failing audit write loses its event and nothing else |
| Engine.TuningEngine.Apply | core/llm_max/autotune/engine.py:168-188 | saves the winner unlocked and logs it |
| Engine.AutopilotGenerator.constructor | core/llm_max/autotune/engine.py:190-234 | a new generator stands at the start state of its world |
| Engine.AutopilotGenerator.IsRateLimited | core/llm_max/autotune/engine.py:239-252 | the cap is reached exactly when it is set and at most the count of timestamps in the past 86400 seconds |
| Engine.AutopilotGenerator.RollBack | core/llm_max/autotune/engine.py:309-341 | save, timestamp, log and yield of a rollback |
| Engine.AutopilotGenerator.SettleSession | core/llm_max/autotune/engine.py:359-396 | the three endings of a tuning pass |
| Engine.AutopilotGenerator.Turn | core/llm_max/autotune/engine.py:254-396 | the loop body up to its yield, return or exception |
| Engine.AutopilotGenerator.Wake | core/llm_max/autotune/engine.py:343-351 | from a yield to the loop test: outside writes, iteration count, sleep |
| Engine.AutopilotGenerator.Next | core/llm_max/autotune/engine.py:254-404 | one resumption of the generator is one step of the specification |
| Engine.AutopilotGenerator.Drain | core/llm_max/autotune/engine.py:190-404 | n resumptions are the run of length n that all theorems below are about |
| AutopilotMoves.NextMoves | core/llm_max/autotune/engine.py:254-404 | every resumption is one of eight moves, with the exact condition for each: finished, locked, a rollback due, runtime lost, kept, rate limited or accepted; a pass starts right after the probe, which is taken only with a stored config and a history; at most five benchmarks |
| TurnProperties.TurnExactly | core/llm_max/autotune/engine.py:285-396 | a turn on an unlocked model in full: the probe and when it is taken, a rollback exactly when the probe fails and history knows another working config, else the one pass from the stored config or the default that starts at the next adapter call, at most four benchmarks, and the session as decided or turned into its baseline by the cap |
| RateLimit.AcceptsPerDay | core/llm_max/autotune/engine.py:236-252 | in every run and closed window of 86400 seconds, accepted configs number at most the cap |
| RateLimit.ChangesAtAccept | core/llm_max/autotune/engine.py:359-394 | at every acceptance all changes of the past 86400 seconds, rollbacks and itself included, number at most the cap |
| RateLimit.LimitedExactly | core/llm_max/autotune/engine.py:359-394 | in every run, a pass that finds an improvement is RATE_LIMITED exactly when the 86400 seconds before it hold at least the cap of changes, rollbacks included, and then it makes none; otherwise it is accepted and makes one, timed by the clock reading after the check's |
| RateLimit.AcceptsPerSpan | core/llm_max/autotune/engine.py:236-252 | a span T holds at most cap * (floor(T / 86400) + 1) acceptances |
| RateLimit.DocumentedCapExactly | core/llm_max/autotune/engine.py:217-222 | all changes keep the cap in every window of 86400 seconds exactly when each rollback happened with fewer than the cap of changes in the 86400 seconds before it |
| RollbackCycle.DocumentedCapFails | core/llm_max/autotune/engine.py:289-326 | for every cap a concrete run, on a clock that advances by the sleep interval, that exceeds it by rollbacks |
| RollbackCycle.FailingResumption | core/llm_max/autotune/engine.py:293-341 | a failing probe with a target in history: the target is saved, one rollback with its timestamp and one ROLLED_BACK session with the probe, the history and the target are added, history stays |
| RollbackCycle.FailingRunThrashes | core/llm_max/autotune/engine.py:289-351 | while the runtime keeps failing and nobody else writes, with two known-good configs and any clock and cap, n resumptions give n ROLLED_BACK sessions and n changes, all rollbacks at successive clock readings |
| RollbackCycle.FailingActiveExactly | core/llm_max/autotune/rollback.py:22-34 | a failing active config is rolled back exactly when history has another viable config; otherwise the loop goes on to tune |
| RollbackCycle.RollbacksAlternate | core/llm_max/autotune/engine.py:293-351 | over any number of consecutive undisturbed rollbacks history is unchanged and the active config follows the two-cycle |
| RollbackCycle.CycleStep | core/llm_max/autotune/rollback.py:27-34 | each target is the cycle's next config, differs from the failing one, and repeats with period two |
| SessionProperties.SessionMatchesStore | core/llm_max/autotune/engine.py:257-396 | at a yield the stored config is the winner's; only accepted and rolled-back sessions write, one unlocked row, never the config already active |
| SessionProperties.TuningOutcomeExactly | core/llm_max/autotune/engine.py:353-396 | the outcome depends exactly on whether a candidate was worth it and the cap was reached; the winner works exactly when the baseline does or, unless rate limited, some candidate does |
| FailingBaseline.FailingConfigKept | core/llm_max/autotune/engine.py:359-387 | for every cap a run that ends RATE_LIMITED on a config that fails, with no known-good one to go back to, although the pass measured one that works |
| LockSafety.LockedStopsRun | core/llm_max/autotune/engine.py:255-283 | a locked model gets one LOCKED session with an empty placeholder benchmark, no measurement and no config write, and the generator ends |
| LockSafety.LockedExactly | core/llm_max/autotune/engine.py:254-283 | whatever others do between passes, the next one yields LOCKED exactly when their calls leave the model's current row locked |
| LockSafety.LockIsHonoured | core/llm_max/autotune/engine.py:254-283 | a lock placed between passes, with any calls before it and any but a save of the same model after it, is honoured at the next pass, and the locked config stays active ever after |
| LockSafety.LockUndoneBySave | core/llm_max/autotune/engine.py:254-283 | an unlocked save of the model with no later save or lock of it undoes whatever lock came before: the next pass does not yield LOCKED |
| LockSafety.LockedOnlyLastByRun | core/llm_max/autotune/engine.py:257-283 | LOCKED occurs at most once, as the last session of an ended run |
| LockSafety.OtherModelsUntouched | core/llm_max/autotune/engine.py:310-315 | for every other model the saved configs are those outside writes alone would have left |
| Pacing.PacedByRun | core/llm_max/autotune/engine.py:343-404 | sessions, iterations and sleeps stay in step on every path, each sleep of the given interval |
| Pacing.ExactlyN | core/llm_max/autotune/engine.py:203-207 | with a limit N and a reachable runtime, N sessions and N - 1 sleeps unless a LOCKED one ends it earlier, and then the generator has ended |
| Pacing.CallsPerSession | core/llm_max/autotune/engine.py:293-357 | at most five adapter calls per prompt and session |
| KnownGood.SavesAreKnownGood | core/llm_max/autotune/engine.py:303-315 | every config saved was found viable by a measurement made before its own save, in the run or in its initial history; history holds only such results |
| KnownGood.HonestByRun | core/llm_max/autotune/engine.py:328-341 | every history entry was measured under its own config; exactly the ROLLED_BACK sessions pair a config with another's benchmark |
| KnownGood.CandidatesOnLadder | core/llm_max/autotune/search.py:24-30 | from the empty config or a power of two in [512, 8192] only such contexts are tried |
| KnownGood.RunStaysOnLadder | core/llm_max/autotune/engine.py:285-351 | started there, a run benchmarks, stores and remembers only such configs |
| AuditTrail.TrailReplays | core/llm_max/autotune/engine.py:303-394 | with working logging the run's entries replay to the stored config, each rollback names the config it left, and changes, entries, rows and timestamps agree in number |
| AuditTrail.EventsExactly | core/llm_max/autotune/engine.py:257-392 | each session leaves its one entry unless the write raises: the locked config, the rollback's two configs, the accepted config, the best candidate passed up by a rate limit, and nothing for a kept baseline |
| AuditTrail.LoggingNeverInterferes | core/llm_max/autotune/engine.py:56-68 | runs that differ only in failing audit writes are equal in everything but the log |
| Convergence.AcceptedClimbs | core/llm_max/autotune/engine.py:138-154 | on a steady runtime an accepted config is strictly above the one it replaces and no candidate is above it |
| Convergence.EveryChangeClimbs | core/llm_max/autotune/engine.py:254-404 | on a steady runtime from any stored config and no history: all changes are acceptances, each above every config before it, and no config repeats |
| Convergence.AtMostFourChanges | core/llm_max/autotune/engine.py:254-404 | from an absent or ladder config on a steady runtime, moreover at most four changes |
| Convergence.KeptForever | core/llm_max/autotune/engine.py:353-396 | one KEPT_BASELINE means KEPT_BASELINE ever after; without a cap every session but the first whose index is at least the number of changes is KEPT_BASELINE, and from a start on the ladder every one from the fifth on |
| Convergence.AcceptedIsApplied | core/llm_max/autotune/engine.py:353-396 | with no limit, cap or lock in the way the loop always moves to an acceptable config |
| Convergence.FourChangesHappen | core/llm_max/autotune/engine.py:254-404 | a steady run with four changes, so the bound is exact |
| Tables.LatestAfterInsert | core/llm_max/testing/fakes/fake_storage.py:29-36 | a save becomes its model's current row and no other model's |
| Tables.LatestAfterLock | core/llm_max/testing/fakes/fake_storage.py:34-44 | a lock marks exactly the model's current row |
| Tables.NewestFirstLists | core/llm_max/testing/fakes/fake_storage.py:51-57 | filter, reverse and slice list the newest matching rows in descending position, as many as the limit leaves, with none newer left out |
| MemoryStorage.InMemoryStorage.SaveTunedConfig | core/llm_max/testing/fakes/fake_storage.py:29-32 | appends one row with the next id |
| MemoryStorage.InMemoryStorage.GetTunedConfig | core/llm_max/testing/fakes/fake_storage.py:34-36 | a row of the model that no later row of it follows, and none exactly when the model has no row |
| MemoryStorage.InMemoryStorage.LockConfig | core/llm_max/testing/fakes/fake_storage.py:38-44 | the backward scan locks the latest matching row, or nothing |
| MemoryStorage.InMemoryStorage.ListAutopilotEvents | core/llm_max/testing/fakes/fake_storage.py:51-57 | matching rows, newest first, none left out that is newer than a listed one, as many as the limit lets through; a negative limit drops that many |
| MemoryStorage.InMemoryStorage.Serve | core/llm_max/storage/base.py:15-45 | all seven calls in one interface, with their answers |
| SqliteStore.Sqlite.LockConfig | core/llm_max/storage/sqlite_store.py:143-154 | locks the model's newest row by creation time and id, and leaves every other row alone; changes nothing when the model has no row |
| SqliteStore.Sqlite.Serve | core/llm_max/storage/sqlite_store.py:71-188 | all seven calls on tables with creation times |
| SqliteStore.OrderIsReverse | core/llm_max/storage/sqlite_store.py:101-107 | ordering by creation time and id descending reverses insertion order |
| SqliteStore.SelectExactly | core/llm_max/storage/sqlite_store.py:94-110 | on any table a list query gives the first rows, within the limit, of exactly the matching rows ordered newest first by creation time and id |
| SqliteStore.CurrentIsNewest | core/llm_max/storage/sqlite_store.py:131-141 | in any table the ordered query finds the model's row of latest creation time and then largest id, and none exactly when it has none |
| SqliteStore.UpdateLocksNewest | core/llm_max/storage/sqlite_store.py:143-154 | the UPDATE locks that newest row and changes no other |
| SqliteStore.CurrentIsLatest | core/llm_max/storage/sqlite_store.py:131-141 | the ordered query finds the reference's latest row |
| SqliteStore.LockIsLockLatest | core/llm_max/storage/sqlite_store.py:143-154 | the UPDATE marks the same single row as the reference |
| SqliteStore.SqliteRefinesMemory | core/llm_max/storage/sqlite_store.py:71-188 | over any calls at nondecreasing times the database is the in-memory store with times attached and answers alike |
| SqliteStore.ListsAgreeOnLimit | core/llm_max/storage/sqlite_store.py:94-110 | with a nonempty filter the lists agree exactly when the limit is not negative or nothing matches |
| SqliteStore.ListsAgreeOnEmptyId | core/llm_max/storage/sqlite_store.py:96-110 | with an empty filter they agree, for a nonnegative limit, exactly when the newest rows within the limit all carry the empty id, and for a negative one exactly when the table is empty |
| Resilient.FallbackStorage.Call | core/llm_max/storage/resilient.py:31-38 | the primary first, the fallback on any exception, the flag set either way |
| Resilient.RowsConserved | core/llm_max/storage/resilient.py:31-38 | rows in both stores = initial rows + saves that returned + saves the primary committed before raising |
| Resilient.CleanFailuresNeverDouble | core/llm_max/storage/resilient.py:31-38 | if failures have no effect, rows = initial rows + saves that returned |
| Resilient.StoresHoldTheirCalls | core/llm_max/storage/resilient.py:31-38 | over any calls each store is the result of exactly the calls whose work it did, in order |
| Resilient.AnsweredExactly | core/llm_max/storage/resilient.py:31-38 | after any calls the answer is the primary's when it works, else the fallback's, each on what that store holds, and an exception only when both raise |
| Resilient.FlagIsLatestAttempt | core/llm_max/storage/resilient.py:22-37 | the flag tells how the primary fared on the latest call |
| Resilient.AlwaysUpIsPrimary | core/llm_max/storage/resilient.py:31-35 | over an always-up primary the wrapper is the primary |
| Resilient.AlwaysDownIsFallback | core/llm_max/storage/resilient.py:36-38 | over an always-down primary the wrapper is the fallback |
| Resilient.LockSeenExactly | core/llm_max/storage/resilient.py:48-55 | a lock is read back exactly when it reached the store that answers, or was there already |
| Resilient.SaveSeenExactly | core/llm_max/storage/resilient.py:48-52 | a save is read back when it reached the store that answers, else that store's older row |

## Left out

- The Ollama adapter, Redis, MySQL and SQLite connections, FastAPI routes, the command line and the web UI: I/O and thin wrappers.
- GPU and CPU profiling: a hardware profile is an input, reduced to free memory per GPU.
- Compatibility tiers, catalog validation and the launcher service: short branch reads that would add only easy members.
- Reason strings, JSON and pydantic validation, the `runtime` field, and the keyword match that classifies an error as out of memory: the adapter tape says of each exception whether it reads as one.
- Config values other than integers: the modelled code only reads and writes `num_ctx`.
- IEEE rounding, infinities and not-a-number: reals are exact. The window theorems assume a clock that never runs backwards.
- Exceptions from reading or saving configs inside the loop: they end the generator, and a run then is a prefix of a modelled run, up to the calls it had made since its last session. A save that commits and then raises leaves a row with no session, which is no prefix of a modelled run and is not modelled. A failing audit write stores nothing; one that commits and then raises is not modelled.
- Outside writes in the middle of a pass: others act only while the generator is suspended, as the loop promises nothing else. Rate-limit timestamps across restarts: they are local to one call.
- Engine.AutopilotGenerator.Next: the generator's `while` loop is cut at its yields, so the loop test appears in `Next` and the repetition in `Drain`.
- Resilient.FallbackStorage.Call: the seven forwarding methods are one call with a request value, as the original dispatches by method name; both stores are in-memory ones.
- SqliteStore.Sqlite.Serve: rows are never deleted, so the autoincrement id is the row count plus one.
