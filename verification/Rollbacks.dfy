/** Consecutive rollbacks: where they lead, and that nothing limits them. */
module RollbackCycle {
  import opened Domain
  import opened Tables
  import opened StorageInterface
  import opened Runner
  import opened Search
  import ConfigBuilder
  import opened RollbackPolicy
  import opened TuningPass
  import opened DecisionProperties
  import opened Autopilot
  import opened AutopilotMoves
  import opened SessionProperties
  import opened LockSafety
  import opened RateLimit

  /** The config of the newest viable history entry. */
  function NewestGood(history: seq<Candidate>): Option<Config> {
    if history == [] then None
    else
      var entry := history[|history| - 1];
      if entry.Viable() then Some(entry.config) else NewestGood(history[..|history| - 1])
  }

  /** The rollback target when `config` is the one failing. */
  function TargetFrom(config: Config, history: seq<Candidate>): Option<Config> {
    RollbackTarget(Placeholder(config), history)
  }

  lemma {:induction false} OnlyConfigMatters(a: Candidate, b: Candidate, history: seq<Candidate>)
    requires a.config == b.config
    ensures RollbackTarget(a, history) == RollbackTarget(b, history)
  {
    if history != [] {
      OnlyConfigMatters(a, b, history[..|history| - 1]);
    }
  }

  /** Anything but the newest good config falls back to it. */
  lemma {:induction false} TargetIsNewestGood(config: Config, history: seq<Candidate>)
    requires NewestGood(history) != Some(config)
    ensures TargetFrom(config, history) == NewestGood(history)
  {
    if history != [] {
      if !history[|history| - 1].Viable() {
        TargetIsNewestGood(config, history[..|history| - 1]);
      }
    }
  }

  /** The config active after i rollbacks in a row from `start`. */
  function CycleConfig(start: Config, history: seq<Candidate>, i: nat): Option<Config> {
    var first := NewestGood(history);
    if i == 0 then Some(start)
    else if first.None? then None
    else
      var second := TargetFrom(first.value, history);
      if (Some(start) != first) == (i % 2 == 1) then first else second
  }

  /**
   * The targets are only the newest good config and the newest good one that differs from it, in strict alternation.
   */
  lemma {:induction false} CycleStep(start: Config, history: seq<Candidate>, i: nat)
    requires CycleConfig(start, history, i).Some?
    requires TargetFrom(CycleConfig(start, history, i).value, history).Some?
    ensures TargetFrom(CycleConfig(start, history, i).value, history) == CycleConfig(start, history, i + 1)
    ensures CycleConfig(start, history, i + 1) != CycleConfig(start, history, i)
    ensures 2 <= i ==> CycleConfig(start, history, i + 1) == CycleConfig(start, history, i - 1)
  {
    var config := CycleConfig(start, history, i).value;
    var j := TargetIsNewestOther(Placeholder(config), history);
    if NewestGood(history) != Some(config) {
      TargetIsNewestGood(config, history);
    } else {
      OtherThanNewest(config, history);
    }
    if NewestGood(history).Some? {
      OtherThanNewest(NewestGood(history).value, history);
    }
  }

  lemma {:induction false} OtherThanNewest(config: Config, history: seq<Candidate>)
    ensures TargetFrom(config, history) != Some(config)
  {
    var j := TargetIsNewestOther(Placeholder(config), history);
  }

  /** The n resumptions from s each yield a rollback. */
  ghost predicate RollsBackFor(w: World, s: State, n: nat) {
    forall i :: 0 <= i < n ==> RollsBack(w, Run(w, s, i))
  }

  ghost predicate RollsBack(w: World, s: State) {
    var n := Next(w, s);
    |n.sessions| == |s.sessions| + 1 && n.sessions[|s.sessions|].outcome == RolledBack
  }

  /** Nobody writes between the first of n resumptions and the last. */
  ghost predicate Undisturbed(w: World, s: State, n: nat) {
    forall k: nat :: |s.sessions| <= k < |s.sessions| + n ==> w.outside(k) == []
  }

  lemma {:induction false} RollbackEffects(w: World, s: State)
    requires RollsBack(w, s)
    ensures var active, n := Resumed(w, s).Active(w.lab.modelId), Next(w, s);
      && s.status == Running && n.status == Running && n.history == s.history && |n.sessions| == |s.sessions| + 1
      && active.Some?
      && TargetFrom(active.value, s.history).Some?
      && n.Active(w.lab.modelId) == TargetFrom(active.value, s.history)
  {
    hide Next, IsMove, Latest, Insert;
    var t, m := NextMoves(w, s);
    SessionEffects(w, s, t, m);
    ConfigEffects(w, s, t, m);
    NotLocked(w, s, t, m);
    OnlyRollbacks(w, s, t, m);
    if m.ToRollback? {
      OnlyConfigMatters(m.probe, Placeholder(m.probe.config), s.history);
      LatestAfterInsert(Resumed(w, s).store.configs, w.lab.modelId, Tuning(m.target, false), w.lab.modelId);
    }
  }

  lemma {:induction false} OnlyRollbacks(w: World, s: State, t: State, m: Move)
    requires IsMove(w, s, t, m)
    ensures m.Yields() ==> (SessionOf(w, s, m).outcome == RolledBack <==> m.ToRollback?)
    ensures m.ToRollback? ==>
              && Resumed(w, s).Active(w.lab.modelId) == Some(m.probe.config)
              && RollbackTarget(m.probe, s.history) == Some(m.target)
  {
    ResumedFrame(w, s);
    hide Next, Resume, OnlyMeasured, Latest, CapReached;
  }

  /**
   * Over n rollbacks in a row with no tuning pass and no outside write between them, history does not change and the
   * active config runs through the two-cycle.
   */
  lemma {:induction false} RollbacksAlternate(w: World, s: State, n: nat)
    requires 1 <= n && RollsBackFor(w, s, n) && Undisturbed(w, s, n)
    ensures var start := Resumed(w, s).Active(w.lab.modelId); var end := Run(w, s, n);
      && start.Some?
      && end.status == Running && end.history == s.history && |end.sessions| == |s.sessions| + n
      && end.Active(w.lab.modelId) == CycleConfig(start.value, s.history, n)
      && CycleConfig(start.value, s.history, n).Some?
  {
    hide Next, Latest, CycleConfig, TargetFrom, NewestGood;
    var before := Run(w, s, n - 1);
    assert RollsBack(w, before);
    RollbackEffects(w, before);
    if n == 1 {
      CycleStart(Resumed(w, s).Active(w.lab.modelId).value, s.history);
    } else {
      RollbacksAlternate(w, s, n - 1);
      assert w.outside(|before.sessions| - 1) == [];
      CycleStep(Resumed(w, s).Active(w.lab.modelId).value, s.history, n - 1);
    }
  }

  lemma CycleStart(start: Config, history: seq<Candidate>)
    requires TargetFrom(start, history).Some?
    ensures TargetFrom(start, history) == CycleConfig(start, history, 1)
  {
    CycleStep(start, history, 0);
  }

  /**
   * An active config that fails its probe is rolled back exactly when history offers another viable config. With no
   * such config the loop does not stop, as the rollback policy asks of its callers: it goes on to tune.
   */
  lemma {:induction false} FailingActiveExactly(w: World, s: State)
    requires s.status == Running && GoesOn(w, Resume(w, s).iteration) && s.history != []
    requires var row := Latest(Resume(w, s).store.configs, w.lab.modelId); row.Some? && !row.value.body.isLocked
    requires !Measure(w.lab, s.calls, Resumed(w, s).Active(w.lab.modelId).value).Viable()
    ensures var n := Next(w, s); var active := Resumed(w, s).Active(w.lab.modelId).value;
      && (RollsBack(w, s) <==> exists i :: 0 <= i < |s.history| && s.history[i].Viable() && s.history[i].config != active)
      && (!RollsBack(w, s) && w.reachable(s.checks) ==>
            && |n.sessions| == |s.sessions| + 1
            && n.sessions[|s.sessions|].outcome in {KeptBaseline, AcceptedNew, Outcome.RateLimited}
            && n.status == Running)
  {
    hide Measure, Latest, TuneFrom, Resume;
    ResumedFrame(w, s);
    var r := Resume(w, s);
    var active := r.Active(w.lab.modelId).value;
    var probe := Measure(w.lab, s.calls, active);
    MeasureIsSound(w.lab, s.calls, active);
    var i := TargetIsNewestOther(probe, s.history);
    hide RollbackTarget;
    if RollbackTarget(probe, s.history).None? {
      var p := AfterProbe(r, probe);
      assert Next(w, s) == TuneStep(w, p, Some(active));
      SettledOutcome(w, p, active);
    }
  }

  lemma {:induction false} SettledOutcome(w: World, p: State, active: Config)
    ensures var n := TuneStep(w, p, Some(active));
      if w.reachable(p.checks) then
        && |n.sessions| == |p.sessions| + 1 && n.status == p.status
        && n.sessions[|p.sessions|].outcome in {KeptBaseline, AcceptedNew, Outcome.RateLimited}
      else n.sessions == p.sessions
  {
    hide TuneFrom, Sound, GenerateCandidates, CountSince;
    PassIsExact(w.lab, p.calls, active);
  }

  // ----- a runtime that keeps failing

  ghost predicate NobodyElse(w: World) {
    forall k: nat :: w.outside(k) == []
  }

  /** The row the model's config is read from: this config, not locked. */
  ghost predicate Serves(store: Store, modelId: string, config: Config) {
    var row := Latest(store.configs, modelId);
    row.Some? && row.value.body == Tuning(config, false)
  }

  /** A resumption whose probe fails while history offers a target, in full. */
  lemma {:induction false} FailingResumption(w: World, s: State, config: Config, target: Config)
    requires s.status == Running && GoesOn(w, Resume(w, s).iteration)
    requires Serves(Resume(w, s).store, w.lab.modelId, config)
    requires NeedsRollback(Measure(w.lab, s.calls, config)) && TargetFrom(config, s.history) == Some(target)
    ensures var r, n := Resume(w, s), Next(w, s);
      var now, probe := w.clock(s.ticks), Measure(w.lab, s.calls, config);
      && n.status == Running && n.history == s.history && n.iteration == r.iteration
      && n.sessions
         == s.sessions + [Session(w.lab.modelId, probe, s.history, Candidate(target, probe.benchmark), RolledBack)]
      && n.calls == s.calls + probe.benchmark.samplesAttempted && n.measured == s.measured + [probe]
      && n.changes == s.changes + [Change(Reversion, now, config, target, |n.measured|)]
      && n.adjustmentTimestamps == s.adjustmentTimestamps + [now] && n.ticks == s.ticks + 1
      && Serves(n.store, w.lab.modelId, target)
  {
    hide Measure, Latest, Insert, Resume;
    ResumedFrame(w, s);
    var r, probe := Resume(w, s), Measure(w.lab, s.calls, config);
    MeasureIsSound(w.lab, s.calls, config);
    FailingTarget(probe, config, s.history);
    hide TargetFrom;
    assert Next(w, s) == RollbackStep(w, AfterProbe(r, probe), probe, target);
    LatestAfterInsert(r.store.configs, w.lab.modelId, Tuning(target, false), w.lab.modelId);
  }

  lemma FailingTarget(probe: Candidate, config: Config, history: seq<Candidate>)
    requires probe.config == config && TargetFrom(config, history).Some?
    ensures RollbackTarget(probe, history) == TargetFrom(config, history) && history != []
  {
    OnlyConfigMatters(probe, Placeholder(config), history);
  }

  /** Two viable configs that differ. */
  ghost predicate TwoGood(history: seq<Candidate>) {
    NewestGood(history).Some? && TargetFrom(NewestGood(history).value, history).Some?
  }

  lemma {:induction false} AlwaysATarget(config: Config, history: seq<Candidate>)
    requires TwoGood(history)
    ensures TargetFrom(config, history).Some?
  {
    if NewestGood(history) != Some(config) {
      TargetIsNewestGood(config, history);
    }
  }

  /** The first call of a benchmark raises: it fails after that one call. */
  lemma {:induction false} RaisingIsNotViable(lab: Lab, at: nat, config: Config)
    requires forall p :: lab.replies(at, lab.modelId, p, OptionsFor(config)).Raised?
    ensures NeedsRollback(Measure(lab, at, config)) && Measure(lab, at, config).benchmark.samplesAttempted == 1
  {
    var t := Trial(lab.replies, at, lab.modelId, lab.prompts, OptionsFor(config));
    assert t.ReplyTo(0).Raised?;
    assert t.FirstRaise(0) == 0;
  }

  /** The first n adapter calls of the run raise. */
  ghost predicate FailsFor(w: World, n: nat) {
    forall i, p, o :: w.origin.calls <= i < w.origin.calls + n ==> w.lab.replies(i, w.lab.modelId, p, o).Raised?
  }

  /** n resumptions on, all of them rollbacks, one clock reading each. */
  ghost predicate Thrashed(w: World, history: seq<Candidate>, s: State, n: nat) {
    && s.status == Running && s.history == history
    && |s.sessions| == n && s.iteration == (if n == 0 then 0 else n - 1)
    && (forall i :: 0 <= i < n ==> s.sessions[i].outcome == RolledBack)
    && s.calls == w.origin.calls + n && s.ticks == n
    && (exists config :: Serves(s.store, w.lab.modelId, config))
    && AllRollbacks(w, s.changes, n)
  }

  /** These are n rollbacks, recorded at the first n clock readings. */
  ghost predicate AllRollbacks(w: World, changes: seq<Change>, n: nat) {
    && |changes| == n
    && forall i :: 0 <= i < n ==> changes[i].kind == Reversion && changes[i].at == w.clock(i)
  }

  lemma {:induction false} ThrashOnce(w: World, history: seq<Candidate>, s: State, n: nat)
    requires Thrashed(w, history, s, n) && TwoGood(history) && FailsFor(w, n + 1) && GoesOn(w, n)
    requires n != 0 ==> w.outside(n - 1) == []
    ensures Thrashed(w, history, Next(w, s), n + 1)
  {
    hide Next, Serves, TwoGood, TargetFrom, Measure;
    var config :| Serves(s.store, w.lab.modelId, config);
    assert Resume(w, s).store == s.store && Resume(w, s).iteration == n;
    RaisingIsNotViable(w.lab, s.calls, config);
    AlwaysATarget(config, history);
    FailingResumption(w, s, config, TargetFrom(config, history).value);
  }

  /**
   * While the runtime keeps failing and nobody else writes, a run with two known-good configs rolls back at every
   * resumption, whatever the cap and the clock.
   */
  lemma {:induction false} FailingRunThrashes(w: World, store: Store, history: seq<Candidate>, n: nat)
    requires FailsFor(w, n) && TwoGood(history) && exists config :: Serves(store, w.lab.modelId, config)
    requires forall k: nat :: k + 1 < n ==> w.outside(k) == []
    requires n != 0 ==> GoesOn(w, n - 1)
    ensures Thrashed(w, history, Run(w, Start(w, store, history), n), n)
  {
    hide Next, Thrashed, TwoGood, Serves, Start;
    if n == 0 {
      NotYetThrashed(w, store, history);
    } else {
      assert FailsFor(w, n - 1);
      hide FailsFor;
      FailingRunThrashes(w, store, history, n - 1);
      ThrashOnce(w, history, Run(w, Start(w, store, history), n - 1), n - 1);
    }
  }

  lemma NotYetThrashed(w: World, store: Store, history: seq<Candidate>)
    requires exists config :: Serves(store, w.lab.modelId, config)
    ensures Thrashed(w, history, Start(w, store, history), 0)
  {
    hide Serves;
  }

  lemma {:induction false} AllWithin(changes: seq<Change>, lo: real, hi: real)
    requires forall i :: 0 <= i < |changes| ==> lo <= changes[i].at <= hi
    ensures ChangesIn(changes, lo, hi) == |changes|
  {
    if changes != [] {
      AllWithin(changes[..|changes| - 1], lo, hi);
    }
  }

  /** Each clock reading is one interval after the one before, as when nothing but the sleeps takes time. */
  ghost predicate ClockSleeps(w: World) {
    0.0 < w.intervalSeconds && forall i: nat :: w.clock(i) == i as real * w.intervalSeconds
  }

  lemma {:induction false} SleepingClock(w: World, i: nat, j: nat)
    requires ClockSleeps(w) && i <= j
    ensures 0.0 <= w.clock(i) <= w.clock(j)
  {
    var gap := (j - i) as real;
    assert 0.0 <= gap * w.intervalSeconds && 0.0 <= i as real * w.intervalSeconds;
    assert j as real * w.intervalSeconds == i as real * w.intervalSeconds + gap * w.intervalSeconds;
  }

  /** A viable result for a config. */
  function Good(config: Config): Candidate {
    Candidate(config, Benchmark(config, Some(50.0), Some(1.0), Some(1.0), false, None, 1, 1))
  }

  /** A runtime that always fails, a clock that moves by the loop's own sleeps, and `cap` changes allowed a day. */
  function FailingWorld(cap: nat, interval: real): World {
    World(Lab((i, m, p, o) => Raised("CUDA out of memory", true), "model:1b", ["hello"]), i => true,
      i => ConfigBuilder.HardwareProfile([]), i => i as real * interval, i => false, i => [], None, interval, None,
      Some(cap), Position(0, 0, 0, 0))
  }

  lemma TwoGoodConfigs(a: Config, b: Config)
    requires a != b
    ensures TwoGood([Good(a), Good(b)])
  {
    var history := [Good(a), Good(b)];
    assert history[..1] == [Good(a)];
    assert TargetFrom(b, history) == TargetFrom(b, [Good(a)]) == Some(a);
  }

  lemma EvenSteps(cap: nat, interval: real)
    requires interval == DAY_SECONDS / (cap + 1) as real
    ensures 0.0 < interval && cap as real * interval <= DAY_SECONDS
  {
    var d := (cap + 1) as real;
    assert interval * d == DAY_SECONDS;
    assert cap as real * interval == interval * d - interval;
  }

  lemma {:induction false} WithinTheDay(w: World, changes: seq<Change>, cap: nat)
    requires ClockSleeps(w) && w.intervalSeconds == DAY_SECONDS / (cap + 1) as real
    requires AllRollbacks(w, changes, cap + 1)
    ensures DayFrom(changes, 0.0) == cap + 1
  {
    EvenSteps(cap, w.intervalSeconds);
    forall i | 0 <= i < |changes| ensures 0.0 <= changes[i].at <= 0.0 + DAY_SECONDS {
      SleepingClock(w, i, cap);
    }
    AllWithin(changes, 0.0, 0.0 + DAY_SECONDS);
  }

  lemma SleepingIsMonotone(w: World)
    requires ClockSleeps(w)
    ensures MonotoneClock(w)
  {
    forall i: nat, j: nat | i <= j ensures w.clock(i) <= w.clock(j) {
      SleepingClock(w, i, j);
    }
  }

  /** For every cap, a run whose clock advances with its sleeps and that breaks the documented cap. */
  lemma {:induction false} DocumentedCapFails(cap: nat) returns (w: World, store: Store, history: seq<Candidate>)
    ensures ClockSleeps(w) && MonotoneClock(w) && w.maxAdjustmentsPerDay == Some(cap)
    ensures !CappedAsDocumented(Run(w, Start(w, store, history), cap + 1).changes, cap)
  {
    hide Run, TwoGood, DayFrom, MonotoneClock;
    var interval := DAY_SECONDS / (cap + 1) as real;
    EvenSteps(cap, interval);
    w, history := FailingWorld(cap, interval), [Good(Ctx(1024)), Good(Ctx(2048))];
    SleepingIsMonotone(w);
    CtxInjective(1024, 2048);
    TwoGoodConfigs(Ctx(1024), Ctx(2048));
    store := Store([], [Record(1, "model:1b", Tuning(Ctx(4096), false))], []);
    assert Latest(store.configs, "model:1b") == Some(store.configs[0]);
    assert Serves(store, "model:1b", Ctx(4096));
    FailingRunThrashes(w, store, history, cap + 1);
    WithinTheDay(w, Run(w, Start(w, store, history), cap + 1).changes, cap);
  }
}
