/** A run that stays on a config that fails although a working one was measured: the daily cap forbids the switch. */
module FailingBaseline {
  import opened Domain
  import opened Tables
  import opened StorageInterface
  import opened Runner
  import opened Search
  import opened ConfigBuilder
  import opened Evaluator
  import opened RollbackPolicy
  import opened TuningPass
  import opened DecisionProperties
  import opened Autopilot
  import opened AutopilotMoves
  import opened SessionProperties
  import opened KnownGood
  import opened RateLimit
  import opened RollbackCycle
  import opened Convergence

  /** A runtime on which contexts of 1024 and 2048 fail and every other works, every time. */
  function PartlyBroken(): Lab {
    var replies: Replies := (i: nat, m: string, p: string, o: Option<Config>) =>
      if o.Some? && BaselineCtx(o.value) in {1024, 2048} then Raised("CUDA out of memory", true)
      else Answer(1.0, Some(50.0));
    Lab(replies, "model:1b", ["hello"])
  }

  /** Until `cap` rollbacks have been made, someone else keeps putting the model back on the failing 1024. */
  function MeddledWorld(cap: nat, interval: real): World {
    World(PartlyBroken(), i => true, i => HardwareProfile([]), i => i as real * interval, i => false,
      k => if k + 1 < cap then [Request.SaveTunedConfig("model:1b", Tuning(Ctx(1024), false))] else [],
      None, interval, None, Some(cap), Position(0, 0, 0, 0))
  }

  function OnlyKnownGood(): seq<Candidate> {
    [Good(Ctx(2048))]
  }

  /** The config active when the generator resumes after n rollbacks. */
  function ServedAt(cap: nat, n: nat): Config {
    if n < cap then Ctx(1024) else Ctx(2048)
  }

  ghost predicate IsMeddled(w: World, cap: nat) {
    && w.lab == PartlyBroken() && w.lab.modelId == "model:1b" && ClockSleeps(w)
    && w.intervalSeconds == DAY_SECONDS / (cap + 1) as real
    && (forall i: nat :: w.reachable(i)) && w.maxIterations.None? && w.maxAdjustmentsPerDay == Some(cap)
    && forall k: nat ::
         w.outside(k) == if k + 1 < cap then [Request.SaveTunedConfig("model:1b", Tuning(Ctx(1024), false))] else []
  }

  /** n rollbacks on, at n clock readings, with nothing learnt. */
  ghost predicate Meddled(w: World, cap: nat, s: State, n: nat) {
    && s.status == Running && s.history == OnlyKnownGood()
    && |s.sessions| == n && s.iteration == (if n == 0 then 0 else n - 1) && s.ticks == n
    && |s.adjustmentTimestamps| == n && (forall i :: 0 <= i < n ==> s.adjustmentTimestamps[i] == w.clock(i))
    && Serves(Resume(w, s).store, "model:1b", ServedAt(cap, n))
  }

  lemma {:induction false} BrokenFails(at: nat, ctx: int)
    requires ctx in {1024, 2048}
    ensures NeedsRollback(Measure(PartlyBroken(), at, Ctx(ctx)))
    ensures !Measure(PartlyBroken(), at, Ctx(ctx)).Viable()
  {
    assert "num_ctx" in Ctx(ctx);
    RaisingIsNotViable(PartlyBroken(), at, Ctx(ctx));
    MeasureIsSound(PartlyBroken(), at, Ctx(ctx));
    hide Measure;
  }

  lemma {:induction false} OthersWork(at: nat)
    ensures Measure(PartlyBroken(), at, Ctx(4096)).Viable()
  {
    hide Measurement;
    assert "num_ctx" in Ctx(4096);
    OneSample(Trial(PartlyBroken().replies, at, "model:1b", ["hello"], Some(Ctx(4096))), 50.0);
  }

  lemma OneTarget(config: Config)
    ensures TargetFrom(config, OnlyKnownGood()) == if config == Ctx(2048) then None else Some(Ctx(2048))
  {
    var history := OnlyKnownGood();
    assert history[..0] == [];
    assert RollbackTarget(Placeholder(config), history[..0]) == None;
  }

  lemma SavedServes(store: Store, modelId: string, config: Config)
    ensures Serves(AfterAll(store, [Request.SaveTunedConfig(modelId, Tuning(config, false))]), modelId, config)
  {
    hide Latest;
    var save := [Request.SaveTunedConfig(modelId, Tuning(config, false))];
    assert save[..0] == [];
    LatestAfterInsert(store.configs, modelId, Tuning(config, false), modelId);
  }

  lemma {:induction false} PutBack(w: World, cap: nat, s: State)
    requires IsMeddled(w, cap) && s.sessions != [] && Serves(s.store, "model:1b", Ctx(2048))
    ensures Serves(Resume(w, s).store, "model:1b", ServedAt(cap, |s.sessions|))
  {
    hide Serves, PartlyBroken;
    if |s.sessions| < cap {
      SavedServes(s.store, "model:1b", Ctx(1024));
    }
  }

  lemma {:induction false} MeddledOnce(w: World, cap: nat, s: State, n: nat)
    requires IsMeddled(w, cap) && Meddled(w, cap, s, n) && n < cap
    ensures Meddled(w, cap, Next(w, s), n + 1)
  {
    hide Next, Serves, TargetFrom, Measure, PartlyBroken, OnlyKnownGood;
    BrokenFails(s.calls, 1024);
    OneTarget(Ctx(1024));
    CtxInjective(1024, 2048);
    FailingResumption(w, s, Ctx(1024), Ctx(2048));
    PutBack(w, cap, Next(w, s));
  }

  lemma {:induction false} MeddledByRun(w: World, cap: nat, store: Store, n: nat)
    requires IsMeddled(w, cap) && Serves(store, "model:1b", ServedAt(cap, 0)) && n <= cap
    ensures Meddled(w, cap, Run(w, Start(w, store, OnlyKnownGood()), n), n)
  {
    hide Next, IsMeddled, Serves, OnlyKnownGood;
    if n != 0 {
      MeddledByRun(w, cap, store, n - 1);
      MeddledOnce(w, cap, Run(w, Start(w, store, OnlyKnownGood()), n - 1), n - 1);
    }
  }

  lemma {:induction false} AllSince(times: seq<real>, cutoff: real)
    requires forall i :: 0 <= i < |times| ==> cutoff <= times[i]
    ensures CountSince(times, cutoff) == |times|
  {
    if times != [] {
      AllSince(times[..|times| - 1], cutoff);
    }
  }

  /** All cap rollbacks fall in the day before the next clock reading. */
  lemma {:induction false} CapIsReached(w: World, cap: nat, s: State, t: State)
    requires IsMeddled(w, cap) && Meddled(w, cap, s, cap)
    requires t.ticks == s.ticks && t.adjustmentTimestamps == s.adjustmentTimestamps
    ensures CapReached(w, t)
  {
    hide Serves, PartlyBroken, OnlyKnownGood;
    EvenSteps(cap, w.intervalSeconds);
    forall i | 0 <= i < cap ensures w.clock(cap) - DAY_SECONDS <= t.adjustmentTimestamps[i] {
      SleepingClock(w, i, cap);
    }
    AllSince(t.adjustmentTimestamps, w.clock(cap) - DAY_SECONDS);
  }

  /** A session that found a working config and still reports, and leaves active, the failing one. */
  ghost predicate StaysOnFailing(x: Session) {
    && x.outcome == Outcome.RateLimited && x.winner == x.baseline && !x.baseline.Viable()
    && exists i :: 0 <= i < |x.candidates| && x.candidates[i].Viable()
  }

  /** From the failing 2048 a pass decides for the working 4096. */
  lemma {:induction false} WouldSwitch(w: World, at: nat)
    requires w.lab == PartlyBroken()
    ensures var d := TuneFrom(w.lab, at, Ctx(2048)).session;
      && d.outcome == AcceptedNew && !d.baseline.Viable()
      && exists i :: 0 <= i < |d.candidates| && d.candidates[i].Viable()
  {
    hide TuneFrom, Measure, GenerateCandidates, PartlyBroken, Repeatable, Verdict, Pow2, IsMeaningfulImprovement;
    PartlyBrokenRepeats();
    RungValues();
    NextRungTried(11);
    SameVerdict(w, at, Ctx(2048));
    var d, configs := Verdict(w, Ctx(2048)), GenerateCandidates(Ctx(2048));
    var i :| 0 <= i < |configs| && configs[i] == Ctx(4096);
    assert d.candidates[i] == ResultOf(w, Ctx(4096));
    WorkingIsWorthIt(w);
    VerdictComplete(w, Ctx(2048), i);
  }

  lemma WorkingIsWorthIt(w: World)
    requires w.lab == PartlyBroken()
    ensures WorthIt(ResultOf(w, Ctx(4096)), ResultOf(w, Ctx(2048)))
    ensures ResultOf(w, Ctx(4096)).Viable() && !ResultOf(w, Ctx(2048)).Viable()
  {
    hide Measure, PartlyBroken;
    BrokenFails(0, 2048);
    OthersWork(0);
    CtxInjective(2048, 4096);
    MeasureIsSound(w.lab, 0, Ctx(2048));
    MeasureIsSound(w.lab, 0, Ctx(4096));
    ImprovesExactly(ResultOf(w, Ctx(4096)), ResultOf(w, Ctx(2048)), DEFAULT_MIN_IMPROVEMENT_PCT);
  }

  lemma PartlyBrokenRepeats()
    ensures Repeatable(PartlyBroken())
  {
  }

  /** The failing 2048 has nothing to roll back to, so its resumption is a tuning pass after the probe. */
  lemma {:induction false} NothingToRollBackTo(w: World, cap: nat, s: State) returns (p: State)
    requires IsMeddled(w, cap) && Meddled(w, cap, s, cap)
    ensures Next(w, s) == TuneStep(w, p, Some(Ctx(2048)))
    ensures p == Resume(w, s).(calls := p.calls, measured := p.measured)
  {
    hide Measure, Latest, TuneStep, PartlyBroken, OnlyKnownGood;
    var active := Ctx(2048);
    var probe := Measure(w.lab, s.calls, active);
    ResumedFrame(w, s);
    MeasureIsSound(w.lab, s.calls, active);
    OneTarget(active);
    OnlyConfigMatters(probe, Placeholder(active), s.history);
    hide RollbackTarget;
    p := AfterProbe(Resume(w, s), probe);
    HistoryIsNotEmpty();
  }

  lemma HistoryIsNotEmpty()
    ensures OnlyKnownGood() != []
  {
  }

  /** With the cap reached and nothing else to roll back to, the run stays where it is. */
  lemma {:induction false} CappedOnFailing(w: World, cap: nat, s: State)
    requires IsMeddled(w, cap) && Meddled(w, cap, s, cap)
    ensures var n := Next(w, s);
      && |n.sessions| == cap + 1 && StaysOnFailing(n.sessions[cap])
      && n.Active("model:1b") == Some(n.sessions[cap].winner.config)
  {
    hide Next, Latest, TuneFrom, PartlyBroken, CapReached, OnlyKnownGood, Resume, Serves;
    ResumedFrame(w, s);
    var p := NothingToRollBackTo(w, cap, s);
    var t, d := AfterTuning(w, p, Some(Ctx(2048))), PassSession(w, p, Some(Ctx(2048)));
    WouldSwitch(w, p.calls);
    CapIsReached(w, cap, s, t);
    LimitedSession(w, t, d);
    ServedIsActive(Resume(w, s).store, Ctx(2048));
    PassIsExact(w.lab, p.calls, Ctx(2048));
  }

  lemma ServedIsActive(store: Store, config: Config)
    requires Serves(store, "model:1b", config)
    ensures store.Active("model:1b") == Some(config)
  {
  }

  lemma LimitedSession(w: World, t: State, d: Session)
    requires d.outcome == AcceptedNew && CapReached(w, t)
    ensures var n := Settle(w, t, d);
      && n.sessions == t.sessions + [d.(winner := d.baseline, outcome := Outcome.RateLimited)]
      && n.store.configs == t.store.configs
  {
    hide CapReached, Insert;
  }

  /**
   * For every cap, a run that ends RATE_LIMITED on a config that fails its own measurement, with no known-good config
   * to roll back to, although the same pass measured a config that works.
   */
  lemma {:induction false} FailingConfigKept(cap: nat) returns (w: World, store: Store, history: seq<Candidate>)
    ensures w.maxAdjustmentsPerDay == Some(cap) && ClockSleeps(w)
    ensures var n := Run(w, Start(w, store, history), cap + 1);
      && |n.sessions| == cap + 1 && StaysOnFailing(n.sessions[cap])
      && n.Active(w.lab.modelId) == Some(n.sessions[cap].winner.config)
  {
    hide Next, StaysOnFailing, Meddled;
    w, history := MeddledWorld(cap, DAY_SECONDS / (cap + 1) as real), OnlyKnownGood();
    EvenSteps(cap, DAY_SECONDS / (cap + 1) as real);
    store := Store([], [Record(1, "model:1b", Tuning(ServedAt(cap, 0), false))], []);
    assert Latest(store.configs, "model:1b") == Some(store.configs[0]);
    MeddledByRun(w, cap, store, cap);
    CappedOnFailing(w, cap, Run(w, Start(w, store, history), cap));
  }
}
