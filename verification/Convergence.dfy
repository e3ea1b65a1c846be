/** Repeated passes over a runtime whose measurements do not drift: a climb that stops. */
module Convergence {
  import opened Domain
  import opened Tables
  import opened StorageInterface
  import opened Runner
  import opened Search
  import opened ConfigBuilder
  import opened Evaluator
  import opened RollbackPolicy
  import opened TuningPass
  import opened DecisionProperties
  import opened Autopilot
  import opened AutopilotMoves
  import opened SessionProperties
  import opened LockSafety
  import opened KnownGood
  import opened RollbackCycle

  /** Replies depend only on prompt and options. */
  ghost predicate Repeatable(lab: Lab) {
    forall i, j, p, o :: lab.replies(i, lab.modelId, p, o) == lab.replies(j, lab.modelId, p, o)
  }

  /** Such a runtime, the hardware reads the same at each scan, and nobody else writes. */
  ghost predicate Steady(w: World) {
    && Repeatable(w.lab)
    && (forall i: nat, j: nat :: w.hardware(i) == w.hardware(j))
    && NobodyElse(w)
  }

  /** The one result a config ever has on a steady runtime. */
  function ResultOf(w: World, config: Config): Candidate {
    Measure(w.lab, 0, config)
  }

  /** What a pass from this config always decides. */
  function Verdict(w: World, config: Config): Session {
    TuneFrom(w.lab, 0, config).session
  }

  lemma {:induction false} SameResult(w: World, at: nat, config: Config)
    requires Repeatable(w.lab)
    ensures Measure(w.lab, at, config) == ResultOf(w, config)
  {
    var options := OptionsFor(config);
    MeasurementRepeats(Trial(w.lab.replies, at, w.lab.modelId, w.lab.prompts, options),
      Trial(w.lab.replies, 0, w.lab.modelId, w.lab.prompts, options));
  }

  lemma {:induction false} SameSweep(w: World, at: nat, from: nat, baseline: Candidate, configs: seq<Config>)
    requires Repeatable(w.lab)
    ensures SweepOf(w.lab, at, baseline, configs).results == SweepOf(w.lab, from, baseline, configs).results
    ensures forall i :: 0 <= i < |configs| && baseline == ResultOf(w, baseline.config) ==>
              i < |SweepOf(w.lab, at, baseline, configs).results|
              && SweepOf(w.lab, at, baseline, configs).results[i] == ResultOf(w, configs[i])
  {
    hide Measure;
    SweepResults(w.lab, at, baseline, configs);
    if configs != [] {
      var n := |configs| - 1;
      SameSweep(w, at, from, baseline, configs[..n]);
      SweepResults(w.lab, at, baseline, configs[..n]);
      SameResult(w, SweepOf(w.lab, at, baseline, configs[..n]).calls, configs[n]);
      SameResult(w, SweepOf(w.lab, from, baseline, configs[..n]).calls, configs[n]);
    }
  }

  /** A pass from a config decides the same whenever it is made. */
  lemma {:induction false} SameVerdict(w: World, at: nat, config: Config)
    requires Repeatable(w.lab)
    ensures TuneFrom(w.lab, at, config).session == Verdict(w, config)
    ensures var d := Verdict(w, config);
      && d.baseline == ResultOf(w, config)
      && |d.candidates| == |GenerateCandidates(config)|
      && forall i :: 0 <= i < |d.candidates| ==> d.candidates[i] == ResultOf(w, GenerateCandidates(config)[i])
  {
    hide Measure, SweepOf, GenerateCandidates, Decide;
    var baseline, configs := ResultOf(w, config), GenerateCandidates(config);
    SameResult(w, at, config);
    MeasureIsSound(w.lab, 0, config);
    var cost := baseline.benchmark.samplesAttempted;
    SameSweep(w, at + cost, cost, baseline, configs);
    SameSweep(w, cost, cost, baseline, configs);
    SweepResults(w.lab, cost, baseline, configs);
    DecidedParts(w.lab.modelId, baseline, SweepOf(w.lab, cost, baseline, configs).results);
  }

  lemma DecidedParts(modelId: string, baseline: Candidate, candidates: seq<Candidate>)
    ensures var d := Decide(modelId, baseline, candidates); d.baseline == baseline && d.candidates == candidates
  {
    hide PickBest, Improves;
  }

  /** Working beats failing, and of two that work the faster is above. */
  ghost predicate Below(a: Candidate, b: Candidate) {
    b.Viable() && (a.Viable() ==> a.benchmark.Throughput() < b.benchmark.Throughput())
  }

  lemma {:induction false} VerdictBest(w: World, config: Config) returns (k: nat)
    requires Verdict(w, config).outcome == AcceptedNew
    ensures var d := Verdict(w, config);
      IsFirstBest(d.candidates, k) && d.candidates[k] == d.winner && WorthIt(d.winner, d.baseline)
  {
    hide TuneFrom, Sound, WorthIt;
    PassIsExact(w.lab, 0, config);
    var d := Verdict(w, config);
    k :| IsFirstBest(d.candidates, k) && d.candidates[k] == d.winner;
  }

  lemma {:induction false} UnbeatenIsNotBelow(candidates: seq<Candidate>, k: nat, i: nat)
    requires IsFirstBest(candidates, k) && i < |candidates|
    ensures !Below(candidates[k], candidates[i])
  {
    assert candidates[i].Viable() ==> !Better(candidates[i], candidates[k]);
  }

  lemma WorthItIsAbove(c: Candidate, baseline: Candidate)
    requires WorthIt(c, baseline)
    ensures Below(baseline, c)
  {
    if baseline.Viable() {
      ImprovementIsFaster(c, baseline);
    }
  }

  /** An accepted config is above the one it replaces, and no candidate is above it. */
  lemma {:induction false} AcceptedClimbs(w: World, config: Config)
    requires Repeatable(w.lab) && Verdict(w, config).outcome == AcceptedNew
    ensures var to := Verdict(w, config).winner.config;
      && to != config && to in GenerateCandidates(config)
      && Verdict(w, config).winner == ResultOf(w, to)
      && ResultOf(w, to).Viable()
      && Below(ResultOf(w, config), ResultOf(w, to))
      && forall c :: c in GenerateCandidates(config) ==> !Below(ResultOf(w, to), ResultOf(w, c))
  {
    hide Verdict, GenerateCandidates, Measure, IsFirstBest, Below, Improves, Repeatable;
    SameVerdict(w, 0, config);
    var d, configs := Verdict(w, config), GenerateCandidates(config);
    var k := VerdictBest(w, config);
    FirstBestIndex(d.candidates, k);
    WorthItIsAbove(d.winner, d.baseline);
    MeasureIsSound(w.lab, 0, configs[k]);
    assert d.winner == ResultOf(w, configs[k]) && d.winner.config == configs[k] && configs[k] in configs;
    forall c | c in configs ensures !Below(d.winner, ResultOf(w, c)) {
      var i :| 0 <= i < |configs| && configs[i] == c;
      UnbeatenIsNotBelow(d.candidates, k, i);
    }
  }

  lemma FirstBestIndex(candidates: seq<Candidate>, k: nat)
    requires IsFirstBest(candidates, k)
    ensures k < |candidates|
  {
  }

  // ----- the shape of the ladder

  lemma {:induction false} RungsDiffer(i: nat, j: nat)
    requires 9 <= i <= 13 && 9 <= j <= 13
    ensures Rung(i) == Rung(j) <==> i == j
    ensures Rung(i) != map[]
  {
    RungValues();
    CtxInjective(Pow2(i), Pow2(j));
    assert "num_ctx" in Rung(i);
  }

  /** From a rung the other candidates are its neighbours; from the empty config they are the three middle rungs. */
  lemma {:induction false} Neighbours(config: Config, to: Config) returns (k: nat)
    requires OnLadder(config) && to in GenerateCandidates(config) && to != config
    ensures config == map[] ==> k in {10, 11, 12} && to == Rung(k)
    ensures config != map[] ==>
              9 <= k <= 13 && config == Rung(k) && ((k < 13 && to == Rung(k + 1)) || (9 < k && to == Rung(k - 1)))
  {
    RungValues();
    var x := TriedContext(config, to);
    hide GenerateCandidates;
    if config != map[] {
      k :| 9 <= k <= 13 && config == Rung(k);
      assert x != Pow2(k);
    } else {
      k := if x == 1024 then 10 else if x == 2048 then 11 else 12;
    }
  }

  lemma TriedContext(config: Config, to: Config) returns (x: int)
    requires to in GenerateCandidates(config)
    ensures to == Ctx(x) && x in {BaselineCtx(config), Halved(BaselineCtx(config)), Doubled(BaselineCtx(config))}
  {
    hide ContextValues;
    CandidateValues(BaselineCtx(config));
    var values := ContextValues(BaselineCtx(config));
    var i :| 0 <= i < |values| && GenerateCandidates(config)[i] == to;
    x := values[i];
    assert x in values;
  }

  lemma {:induction false} MiddleRungs(k: nat)
    requires 10 <= k <= 12
    ensures Rung(k) in GenerateCandidates(map[])
  {
    RungValues();
    CandidateValues(2048);
    assert Pow2(k) in ContextValues(2048);
    var i :| 0 <= i < |ContextValues(2048)| && ContextValues(2048)[i] == Pow2(k);
    assert GenerateCandidates(map[])[i] == Rung(k);
  }

  // ----- one step of a steady run

  /** The config the next pass starts from. */
  function Current(w: World, s: State): Config {
    BaselineOf(w, s)
  }

  /** While nothing has changed, history only holds the starting config; afterwards the active config works. */
  ghost predicate Calm(w: World, s: State) {
    && (s.changes == [] ==> forall i :: 0 <= i < |s.history| ==> s.history[i].config == Current(w, s))
    && (s.changes != [] ==>
          ResultOf(w, Current(w, s)).Viable() && s.Active(w.lab.modelId) == Some(Current(w, s)))
  }

  lemma {:induction false} UndisturbedResume(w: World, s: State)
    requires NobodyElse(w)
    ensures Resumed(w, s).store == s.store
    ensures Current(w, Resumed(w, s)) == Current(w, s)
  {
    hide Latest;
  }

  /** On a steady runtime the loop never rolls back, and a pass does what its verdict says. */
  lemma {:induction false} SteadyMove(w: World, s: State, t: State, m: Move)
    requires Steady(w) && Calm(w, s) && IsMove(w, s, t, m)
    ensures !m.ToRollback?
    ensures m.Tunes() ==> m.session == Verdict(w, Current(w, s))
    ensures m.ToKept? ==> Verdict(w, Current(w, s)).outcome == KeptBaseline
    ensures m.ToLimited? || m.ToAccepted? ==> Verdict(w, Current(w, s)).outcome == AcceptedNew
  {
    hide IsMove, Calm, Current, Verdict, Steady, Repeatable;
    SteadyWorld(w);
    NeverRollsBack(w, s, t, m);
    UndisturbedResume(w, s);
    DecidedOutcome(w, s, t, m);
    if m.Tunes() {
      SameVerdict(w, PassStart(w, Resumed(w, s)), Current(w, s));
    }
  }

  lemma {:induction false} NeverRollsBack(w: World, s: State, t: State, m: Move)
    requires Steady(w) && Calm(w, s) && IsMove(w, s, t, m)
    ensures !m.ToRollback?
  {
    hide Next, Resume, Latest, Steady, Repeatable, Measure, OnlyMeasured, FitsPass;
    ResumedFrame(w, s);
    SteadyWorld(w);
    UndisturbedResume(w, s);
    if m.ToRollback? {
      SameResult(w, s.calls, m.probe.config);
      var i := TargetIsNewestOther(m.probe, s.history);
      assert false;
    }
  }

  lemma {:induction false} DecidedOutcome(w: World, s: State, t: State, m: Move)
    requires IsMove(w, s, t, m)
    ensures var r := Resumed(w, s);
      m.Tunes() ==> m.session == TuneFrom(w.lab, PassStart(w, r), Current(w, r)).session
    ensures m.ToKept? ==> m.session.outcome == KeptBaseline
    ensures m.ToLimited? || m.ToAccepted? ==> m.session.outcome == AcceptedNew
  {
    hide Next, Resume, Latest, TuneFrom, PassStart, Probed, BaselineOf, OnlyMeasured, CapReached, Land;
  }

  /** Where the next pass starts after a move: an accepted config if one was accepted, else where it started before. */
  lemma {:induction false} CurrentAfter(w: World, s: State, t: State, m: Move)
    requires Steady(w) && Calm(w, s) && IsMove(w, s, t, m)
    ensures var n := Next(w, s);
      && Current(w, n) == (if m.ToAccepted? then Verdict(w, Current(w, s)).winner.config else Current(w, s))
      && (m.ToAccepted? ==> n.Active(w.lab.modelId) == Some(Current(w, n)))
      && (!m.ToAccepted? ==> n.Active(w.lab.modelId) == s.Active(w.lab.modelId) && n.changes == s.changes)
      && (m.ToAccepted? ==>
            exists at, seen :: n.changes == s.changes + [Change(Acceptance, at, Current(w, s), Current(w, n), seen)])
  {
    hide Next, IsMove, Calm, Verdict, Steady, Latest, Insert;
    var n := Next(w, s);
    SteadyMove(w, s, t, m);
    ConfigEffects(w, s, t, m);
    ChangeEffects(w, s, t, m);
    SteadyWorld(w);
    UndisturbedResume(w, s);
    if m.ToAccepted? {
      ChangesFrom(w, s, t, m);
      LatestAfterInsert(Resumed(w, s).store.configs, w.lab.modelId, Tuning(ToOf(m), false), w.lab.modelId);
    } else {
      SameDefault(w, s, n);
    }
  }

  lemma SteadyWorld(w: World)
    requires Steady(w)
    ensures Repeatable(w.lab) && NobodyElse(w) && forall i: nat, j: nat :: w.hardware(i) == w.hardware(j)
  {
  }

  lemma SameDefault(w: World, s: State, n: State)
    requires Steady(w) && s.Active(w.lab.modelId) == n.Active(w.lab.modelId)
    ensures Current(w, s) == Current(w, n)
  {
    assert w.hardware(s.scans) == w.hardware(n.scans);
    hide DefaultBaseline, Latest;
  }

  lemma {:induction false} CalmByNext(w: World, s: State)
    requires Steady(w) && Calm(w, s)
    ensures Calm(w, Next(w, s))
  {
    hide Next, IsMove, Verdict, Measure, Steady, Repeatable, Latest, Below, Current;
    SteadyWorld(w);
    var t, m := NextMoves(w, s);
    var n := Next(w, s);
    SteadyMove(w, s, t, m);
    CurrentAfter(w, s, t, m);
    SessionEffects(w, s, t, m);
    if m.ToAccepted? {
      AcceptedClimbs(w, Current(w, s));
    } else if m.Tunes() {
      VerdictStays(w, Current(w, s));
    }
  }

  /** A pass that is not accepted remembers a result of the config it started from. */
  lemma {:induction false} VerdictStays(w: World, config: Config)
    ensures var d := Verdict(w, config);
      && d.baseline.config == config
      && (d.outcome == KeptBaseline ==> d.winner == d.baseline)
  {
    hide TuneFrom, GenerateCandidates, Sound;
    PassIsExact(w.lab, 0, config);
  }

  // ----- the whole climb

  /** Each change starts where the last one ended and goes up; the last ended where the next pass starts. */
  ghost predicate Climbing(w: World, origin: Config, s: State) {
    Chained(w, origin, s.changes, Current(w, s))
  }

  ghost predicate Chained(w: World, origin: Config, changes: seq<Change>, end: Config) {
    if changes == [] then end == origin
    else
      var last := changes[|changes| - 1];
      && last.to == end && last.kind == Acceptance
      && Below(ResultOf(w, last.from), ResultOf(w, last.to))
      && Chained(w, origin, changes[..|changes| - 1], last.from)
  }

  /** The direction of the climb bounds how far it can go: the rungs behind it are no better. */
  ghost predicate Bounded(w: World, count: nat, k: nat) {
    && 9 <= k <= 13
    && ((count + 9 <= k && (9 < k ==> !Below(ResultOf(w, Rung(k)), ResultOf(w, Rung(k - 1)))))
        || (count + k <= 13 && (k < 13 ==> !Below(ResultOf(w, Rung(k)), ResultOf(w, Rung(k + 1))))))
  }

  ghost predicate HasRoom(w: World, s: State) {
    s.changes != [] ==> exists k: nat :: Bounded(w, |s.changes|, k) && Current(w, s) == Rung(k)
  }

  lemma BelowAsymmetric(a: Candidate, b: Candidate)
    requires Below(a, b)
    ensures !Below(b, a)
  {
  }

  lemma BelowTransitive(a: Candidate, b: Candidate, c: Candidate)
    requires Below(a, b) && Below(b, c)
    ensures Below(a, c)
  {
  }

  /** One more step from rung k keeps the bound, whichever way the climb goes. */
  lemma {:induction false} StepKeepsRoom(w: World, count: nat, j: nat, from: Config, to: Config) returns (k: nat)
    requires OnLadder(from) && to in GenerateCandidates(from) && to != from
    requires Below(ResultOf(w, from), ResultOf(w, to))
    requires forall c :: c in GenerateCandidates(from) ==> !Below(ResultOf(w, to), ResultOf(w, c))
    requires count != 0 ==> Bounded(w, count, j) && from == Rung(j)
    ensures Bounded(w, count + 1, k) && to == Rung(k)
  {
    hide Below, Measure, OnLadder, GenerateCandidates;
    BelowAsymmetric(ResultOf(w, from), ResultOf(w, to));
    if count != 0 {
      RungsDiffer(j, j);
    }
    k := Neighbours(from, to);
    if from == map[] {
      MiddleRungs(if k == 10 then 11 else k - 1);
    } else {
      if count != 0 {
        RungsDiffer(k, j);
      }
      k := if k < 13 && to == Rung(k + 1) then k + 1 else k - 1;
    }
  }

  lemma {:induction false} ClimbByNext(w: World, origin: Config, s: State)
    requires Steady(w) && Calm(w, s) && Climbing(w, origin, s)
    ensures Climbing(w, origin, Next(w, s))
  {
    hide Next, IsMove, Verdict, ResultOf, Steady, Repeatable, Below, Current, Calm, GenerateCandidates;
    SteadyWorld(w);
    var t, m := NextMoves(w, s);
    var n := Next(w, s);
    SteadyMove(w, s, t, m);
    CurrentAfter(w, s, t, m);
    if m.ToAccepted? {
      AcceptedClimbs(w, Current(w, s));
      assert n.changes[..|s.changes|] == s.changes;
    }
  }

  /** On the ladder, with room left in the direction of the climb. */
  ghost predicate OnRung(w: World, s: State) {
    OnLadder(Current(w, s)) && HasRoom(w, s)
  }

  lemma {:induction false} RoomByNext(w: World, s: State)
    requires Steady(w) && Calm(w, s) && OnRung(w, s)
    ensures OnRung(w, Next(w, s))
  {
    hide Next, IsMove, OnLadder, Verdict, ResultOf, Steady, Repeatable, Below, Current, Bounded, Calm, GenerateCandidates;
    SteadyWorld(w);
    var t, m := NextMoves(w, s);
    var n := Next(w, s);
    SteadyMove(w, s, t, m);
    CurrentAfter(w, s, t, m);
    if m.ToAccepted? {
      AcceptedClimbs(w, Current(w, s));
      CandidatesOnLadder(Current(w, s), Current(w, n));
      var j: nat := 0;
      if s.changes != [] {
        j :| Bounded(w, |s.changes|, j) && Current(w, s) == Rung(j);
      }
      var k := StepKeepsRoom(w, |s.changes|, j, Current(w, s), Current(w, n));
    }
  }

  lemma {:induction false} ClimbByRun(w: World, store: Store, n: nat)
    requires Steady(w)
    ensures var s0 := Start(w, store, []); var s := Run(w, s0, n);
      Calm(w, s) && Climbing(w, Current(w, s0), s)
  {
    hide Next, Calm, Climbing, Steady, Current, Start;
    var s0 := Start(w, store, []);
    if n == 0 {
      StartsCalm(w, store);
    } else {
      ClimbByRun(w, store, n - 1);
      CalmByNext(w, Run(w, s0, n - 1));
      ClimbByNext(w, Current(w, s0), Run(w, s0, n - 1));
    }
  }

  lemma StartsCalm(w: World, store: Store)
    ensures var s0 := Start(w, store, []); Calm(w, s0) && Climbing(w, Current(w, s0), s0)
  {
    hide Current, Measure, Latest;
  }

  /** A start on the ladder: the stored config, or the default when there is none. */
  ghost predicate StartsOnLadder(w: World, store: Store) {
    StoredOnLadder(store, w.lab.modelId)
  }

  lemma StartOnRung(w: World, store: Store)
    requires StartsOnLadder(w, store)
    ensures OnRung(w, Start(w, store, []))
  {
    hide OnLadder, DefaultBaseline, Latest;
    DefaultOnLadder(w.modelSpec, w.hardware(w.origin.scans));
  }

  lemma {:induction false} RoomByRun(w: World, store: Store, n: nat)
    requires Steady(w) && StartsOnLadder(w, store)
    ensures OnRung(w, Run(w, Start(w, store, []), n))
  {
    hide Next, OnRung, Steady, StartsOnLadder, Start, Calm, Climbing;
    if n == 0 {
      StartOnRung(w, store);
    } else {
      RoomByRun(w, store, n - 1);
      ClimbByRun(w, store, n - 1);
      RoomByNext(w, Run(w, Start(w, store, []), n - 1));
    }
  }

  lemma {:induction false} ChainGoesUp(w: World, origin: Config, changes: seq<Change>, end: Config, i: nat)
    requires Chained(w, origin, changes, end) && i < |changes|
    ensures Below(ResultOf(w, changes[i].from), ResultOf(w, end))
    ensures changes[i].kind == Acceptance
    ensures i == 0 ==> changes[i].from == origin
    ensures i < |changes| - 1 ==> changes[i].to == changes[i + 1].from
    ensures changes[|changes| - 1].to == end
  {
    hide Below, ResultOf;
    var last := changes[|changes| - 1];
    if i < |changes| - 1 {
      var earlier := changes[..|changes| - 1];
      ChainGoesUp(w, origin, earlier, last.from, i);
      BelowTransitive(ResultOf(w, changes[i].from), ResultOf(w, last.from), ResultOf(w, end));
    }
  }

  lemma {:induction false} ChainPrefix(w: World, origin: Config, changes: seq<Change>, end: Config, j: nat)
    requires Chained(w, origin, changes, end) && j < |changes|
    ensures Chained(w, origin, changes[..j + 1], changes[j].to)
  {
    hide Below, ResultOf;
    if j == |changes| - 1 {
      assert changes[..j + 1] == changes;
    } else {
      ChainPrefix(w, origin, changes[..|changes| - 1], changes[|changes| - 1].from, j);
      assert changes[..|changes| - 1][..j + 1] == changes[..j + 1];
    }
  }

  /** What two changes of one climb say about each other. */
  ghost predicate Apart(w: World, earlier: Change, later: Change) {
    Below(ResultOf(w, earlier.from), ResultOf(w, later.to)) && later.to != earlier.from
  }

  lemma {:induction false} ChainApart(w: World, origin: Config, changes: seq<Change>, end: Config, i: nat, j: nat)
    requires Chained(w, origin, changes, end) && i <= j < |changes|
    ensures Apart(w, changes[i], changes[j])
    ensures i < j ==> changes[i].to != changes[j].to
    ensures changes[i].kind == Acceptance
  {
    hide Below, ResultOf;
    ChainPrefix(w, origin, changes, end, j);
    ChainGoesUp(w, origin, changes[..j + 1], changes[j].to, i);
    BelowAsymmetric(ResultOf(w, changes[i].from), ResultOf(w, changes[j].to));
    if i < j {
      ChainGoesUp(w, origin, changes[..j + 1], changes[j].to, i + 1);
      BelowAsymmetric(ResultOf(w, changes[i + 1].from), ResultOf(w, changes[j].to));
    }
  }

  /** Changes of one climb: all acceptances, each above every config before it, none back to an earlier config. */
  ghost predicate Climbs(w: World, cs: seq<Change>) {
    && (forall i, j :: 0 <= i <= j < |cs| ==> Apart(w, cs[i], cs[j]))
    && (forall i, j :: 0 <= i < j < |cs| ==> cs[i].to != cs[j].to)
    && (forall i :: 0 <= i < |cs| ==> cs[i].kind == Acceptance)
  }

  /**
   * Convergence, from any store with no prior history. Over any number of passes on a steady runtime every change is
   * an acceptance that strictly improves on the config it replaces, and no config is ever returned to.
   */
  lemma {:induction false} EveryChangeClimbs(w: World, store: Store, n: nat)
    requires Steady(w)
    ensures Climbs(w, Run(w, Start(w, store, []), n).changes)
  {
    hide Run, Current, Calm, Chained, Apart, Below;
    ClimbByRun(w, store, n);
    var s0 := Start(w, store, []);
    var s := Run(w, s0, n);
    var cs := s.changes;
    forall i, j | 0 <= i <= j < |cs|
      ensures Apart(w, cs[i], cs[j]) && (i < j ==> cs[i].to != cs[j].to) && cs[i].kind == Acceptance
    {
      ChainApart(w, Current(w, s0), cs, Current(w, s), i, j);
    }
  }

  /** When moreover the stored config is absent or on the ladder, there are at most four changes. */
  lemma {:induction false} AtMostFourChanges(w: World, store: Store, n: nat)
    requires Steady(w) && StartsOnLadder(w, store)
    ensures var cs := Run(w, Start(w, store, []), n).changes; |cs| <= 4 && Climbs(w, cs)
  {
    hide Run, Current, Climbs, Below;
    EveryChangeClimbs(w, store, n);
    RoomByRun(w, store, n);
  }

  // ----- once kept, always kept

  ghost predicate Unlocked(w: World, s: State) {
    var row := Latest(s.store.configs, w.lab.modelId);
    row.None? || !row.value.body.isLocked
  }

  ghost predicate KeptAt(s: State, i: int) {
    0 <= i < |s.sessions| && s.sessions[i].outcome == KeptBaseline
  }

  /** A kept session is final, and with no cap only as many sessions as there are changes come before the first. */
  ghost predicate SettlesDown(w: World, s: State) {
    && (s.status == Running && s.sessions != [] ==> Unlocked(w, s))
    && (s.status == Running ==> forall i :: 0 <= i < |s.sessions| ==> s.sessions[i].outcome != Locked)
    && (forall i :: 0 <= i < |s.sessions| && s.sessions[i].outcome == Locked ==> |s.sessions| == 1)
    && (forall i :: KeptAt(s, i) ==> Verdict(w, Current(w, s)).outcome == KeptBaseline)
    && (forall i, j :: KeptAt(s, i) && i <= j < |s.sessions| ==> KeptAt(s, j))
    && (w.maxAdjustmentsPerDay.None? ==>
          forall j :: |s.changes| <= j < |s.sessions| ==> KeptAt(s, j) || s.sessions[j].outcome == Locked)
  }

  lemma {:induction false} LockedOnlyFirst(w: World, s: State, t: State, m: Move)
    requires NobodyElse(w) && SettlesDown(w, s) && IsMove(w, s, t, m)
    ensures m.ToLocked? ==> s.sessions == []
    ensures m.Tunes() ==> Unlocked(w, Resumed(w, s))
    ensures m.ToLimited? ==> w.maxAdjustmentsPerDay.Some?
  {
    UndisturbedResume(w, s);
    hide Next, Resume, OnlyMeasured, TunedFrom, Verdict, Latest, CountSince;
  }

  lemma {:induction false} UnlockedAfter(w: World, s: State, t: State, m: Move)
    requires Steady(w) && IsMove(w, s, t, m) && m.Tunes() && Unlocked(w, Resumed(w, s))
    ensures Unlocked(w, Next(w, s))
  {
    hide Next, IsMove, Latest, Insert;
    ConfigEffects(w, s, t, m);
    if m.Changes() {
      LatestAfterInsert(Resumed(w, s).store.configs, w.lab.modelId, Tuning(ToOf(m), false), w.lab.modelId);
    }
  }

  lemma {:induction false} SettlesByNext(w: World, s: State)
    requires Steady(w) && Calm(w, s) && SettlesDown(w, s)
    ensures SettlesDown(w, Next(w, s))
  {
    hide Next, IsMove, Calm, Verdict, Steady, Current, Unlocked, Resumed;
    SteadyWorld(w);
    var t, m := NextMoves(w, s);
    var n := Next(w, s);
    SteadyMove(w, s, t, m);
    CurrentAfter(w, s, t, m);
    SessionEffects(w, s, t, m);
    NotLocked(w, s, t, m);
    LockedOnlyFirst(w, s, t, m);
    if m.Tunes() {
      UnlockedAfter(w, s, t, m);
    }
    if m.Yields() {
      SettlesWithSession(w, s, n, SessionOf(w, s, m), m.ToAccepted?);
    } else {
      assert forall i :: KeptAt(n, i) <==> KeptAt(s, i);
    }
  }

  /** One more session: the verdict's own unless the cap or a lock stepped in. */
  lemma {:induction false} SettlesWithSession(w: World, s: State, n: State, x: Session, accepted: bool)
    requires SettlesDown(w, s) && s.status == Running && n.sessions == s.sessions + [x]
    requires n.status == Running ==> Unlocked(w, n) && x.outcome != Locked
    requires x.outcome == Locked ==> s.sessions == []
    requires x.outcome == KeptBaseline ==> Verdict(w, Current(w, s)).outcome == KeptBaseline
    requires x.outcome !in {KeptBaseline, Locked} ==> Verdict(w, Current(w, s)).outcome == AcceptedNew
    requires x.outcome == Outcome.RateLimited ==> w.maxAdjustmentsPerDay.Some?
    requires x.outcome in {AcceptedNew, KeptBaseline, Locked, Outcome.RateLimited}
    requires accepted <==> x.outcome == AcceptedNew
    requires |n.changes| == |s.changes| + if accepted then 1 else 0
    requires !accepted ==> Current(w, n) == Current(w, s)
    ensures SettlesDown(w, n)
  {
    hide Verdict, Current, Unlocked;
    var k := |s.sessions|;
    forall i ensures KeptAt(n, i) <==> if i == k then x.outcome == KeptBaseline else KeptAt(s, i) {
    }
    assert w.maxAdjustmentsPerDay.None? && |s.changes| < k ==> KeptAt(s, k - 1);
  }

  lemma NothingKeptYet(w: World, store: Store)
    ensures SettlesDown(w, Start(w, store, []))
  {
    hide Verdict, Current, Unlocked;
  }

  lemma {:induction false} SettlesByRun(w: World, store: Store, n: nat)
    requires Steady(w)
    ensures SettlesDown(w, Run(w, Start(w, store, []), n))
  {
    hide Next, SettlesDown, Calm, Climbing, Steady, Verdict, Current, Start;
    if n == 0 {
      NothingKeptYet(w, store);
    } else {
      SettlesByRun(w, store, n - 1);
      ClimbByRun(w, store, n - 1);
      SettlesByNext(w, Run(w, Start(w, store, []), n - 1));
    }
  }

  /**
   * From any store with no prior history, one KEPT_BASELINE session means KEPT_BASELINE from then on. Without a cap,
   * after the first session every session past the number of changes is KEPT_BASELINE, so from a start on the ladder
   * every session from the fifth on is.
   */
  lemma {:induction false} KeptForever(w: World, store: Store, n: nat)
    requires Steady(w)
    ensures var s := Run(w, Start(w, store, []), n);
      && (forall i, j :: KeptAt(s, i) && i <= j < |s.sessions| ==> KeptAt(s, j))
      && (w.maxAdjustmentsPerDay.None? ==>
            forall j :: 1 <= j < |s.sessions| && |s.changes| <= j ==> KeptAt(s, j))
      && (w.maxAdjustmentsPerDay.None? && StartsOnLadder(w, store) ==>
            forall j :: 4 <= j < |s.sessions| ==> KeptAt(s, j))
  {
    hide Run, Climbs, StartsOnLadder, Verdict;
    SettlesByRun(w, store, n);
    if StartsOnLadder(w, store) {
      AtMostFourChanges(w, store, n);
    }
  }

  // ----- progress, and a climb of four

  /** Nothing but the measurements stands in the way: no limit, no cap, no lock, and a runtime that answers. */
  ghost predicate Free(w: World, s: State) {
    && w.maxIterations.None? && w.maxAdjustmentsPerDay.None?
    && (forall i: nat :: w.reachable(i))
    && s.status == Running && Unlocked(w, s)
  }

  /** With nothing in the way, the loop moves to the accepted config whenever there is one. */
  lemma {:induction false} AcceptedIsApplied(w: World, s: State)
    requires Steady(w) && Calm(w, s) && Free(w, s) && Verdict(w, Current(w, s)).outcome == AcceptedNew
    ensures var n := Next(w, s);
      && Current(w, n) == Verdict(w, Current(w, s)).winner.config
      && |n.changes| == |s.changes| + 1
      && Calm(w, n) && Free(w, n)
  {
    hide Next, IsMove, Calm, Verdict, Steady, Current, Unlocked, Resumed;
    SteadyWorld(w);
    var t, m := NextMoves(w, s);
    SteadyMove(w, s, t, m);
    CurrentAfter(w, s, t, m);
    SessionEffects(w, s, t, m);
    FreeMove(w, s, t, m);
    UnlockedAfter(w, s, t, m);
    CalmByNext(w, s);
  }

  lemma {:induction false} FreeMove(w: World, s: State, t: State, m: Move)
    requires NobodyElse(w) && Free(w, s) && IsMove(w, s, t, m)
    ensures m.Tunes() || m.ToRollback?
    ensures !m.ToLimited?
    ensures Unlocked(w, Resumed(w, s))
  {
    UndisturbedResume(w, s);
    hide Next, Resume, OnlyMeasured, TunedFrom, Latest, CountSince, Land;
  }

  /** A runtime whose throughput is the context size. */
  function BiggerIsFaster(): World {
    var replies: Replies := (i: nat, m: string, p: string, o: Option<Config>) =>
      Answer(1.0, Some(if o.None? then 1.0 else BaselineCtx(o.value) as real));
    World(Lab(replies, "model:1b", ["hello"]), i => true, i => HardwareProfile([]), i => 0.0, i => false, i => [], None,
      3600.0, None, None, Position(0, 0, 0, 0))
  }

  lemma {:induction false} OneSample(t: Trial, x: real)
    requires |t.prompts| == 1 && t.ReplyTo(0).Answer? && t.ReplyTo(0).tokensPerSec == Some(x) && x != 0.0
    ensures Measurement(t).Viable() && Measurement(t).Throughput() == x
  {
    hide Measurement, Mean;
    MeasurementOutcome(t);
    SuccessThroughput(t);
    assert t.Samples(0) == [] && t.Samples(1) == [x];
    MeanOfOne(x);
  }

  lemma MeanOfOne(x: real)
    ensures Mean([x]) == Some(x)
  {
    var one := [x];
    assert one[..|one| - 1] == [] && Sum(one[..|one| - 1]) == 0.0;
    assert Sum(one) == x && |one| as real == 1.0;
  }

  lemma {:induction false} FasterResult(k: nat)
    requires 9 <= k <= 13
    ensures var c := ResultOf(BiggerIsFaster(), Rung(k)); c.Viable() && c.benchmark.Throughput() == Pow2(k) as real
  {
    RungsDiffer(k, k);
    RungValues();
    hide Measurement, Pow2;
    OneSample(Trial(BiggerIsFaster().lab.replies, 0, "model:1b", ["hello"], Some(Rung(k))), Pow2(k) as real);
  }

  /** Below the top rung, that runtime's pass moves one rung up. */
  lemma {:induction false} FasterVerdict(k: nat)
    requires 9 <= k < 13
    ensures var d := Verdict(BiggerIsFaster(), Rung(k)); d.outcome == AcceptedNew && d.winner.config == Rung(k + 1)
  {
    hide BiggerIsFaster, Measure, Verdict, GenerateCandidates, WorthIt, OnLadder, Below, Rung, Steady;
    var w := BiggerIsFaster();
    OnLadderRung(k);
    RungsDiffer(k, k + 1);
    NextRungTried(k);
    FasterIsSteady();
    SameVerdict(w, 0, Rung(k));
    var i :| 0 <= i < |GenerateCandidates(Rung(k))| && GenerateCandidates(Rung(k))[i] == Rung(k + 1);
    FasterIsWorthIt(k);
    VerdictComplete(w, Rung(k), i);
    AcceptedClimbs(w, Rung(k));
    var j := Neighbours(Rung(k), Verdict(w, Rung(k)).winner.config);
    RungsDiffer(k, j);
    if 9 < k {
      SlowerIsNotAbove(k);
    }
  }

  lemma SlowerIsNotAbove(k: nat)
    requires 9 < k <= 13
    ensures !Below(ResultOf(BiggerIsFaster(), Rung(k)), ResultOf(BiggerIsFaster(), Rung(k - 1)))
  {
    hide BiggerIsFaster, Measure, Pow2, Rung;
    FasterResult(k);
    FasterResult(k - 1);
    DoublePow(k - 1);
  }

  lemma VerdictComplete(w: World, config: Config, i: nat)
    requires var d := Verdict(w, config); i < |d.candidates| && WorthIt(d.candidates[i], d.baseline)
    ensures Verdict(w, config).outcome == AcceptedNew
  {
    hide TuneFrom, Sound, GenerateCandidates;
    PassIsExact(w.lab, 0, config);
  }

  lemma FasterIsSteady()
    ensures Steady(BiggerIsFaster())
  {
  }

  lemma {:induction false} NextRungTried(k: nat)
    requires 9 <= k < 13
    ensures Rung(k + 1) in GenerateCandidates(Rung(k))
  {
    RungValues();
    CandidateValues(Pow2(k));
    assert Pow2(k + 1) in ContextValues(Pow2(k));
    var i :| 0 <= i < |ContextValues(Pow2(k))| && ContextValues(Pow2(k))[i] == Pow2(k + 1);
    assert GenerateCandidates(Rung(k))[i] == Rung(k + 1);
  }

  lemma {:induction false} FasterIsWorthIt(k: nat)
    requires 9 <= k < 13
    ensures WorthIt(ResultOf(BiggerIsFaster(), Rung(k + 1)), ResultOf(BiggerIsFaster(), Rung(k)))
  {
    hide Measure, BiggerIsFaster, Pow2, Rung;
    var w := BiggerIsFaster();
    RungValues();
    DoublePow(k);
    FasterResult(k);
    FasterResult(k + 1);
    RungsDiffer(k, k + 1);
    MeasureIsSound(w.lab, 0, Rung(k));
    MeasureIsSound(w.lab, 0, Rung(k + 1));
    ImprovesExactly(ResultOf(w, Rung(k + 1)), ResultOf(w, Rung(k)), DEFAULT_MIN_IMPROVEMENT_PCT);
  }

  lemma DoublePow(k: nat)
    ensures Pow2(k + 1) == 2 * Pow2(k) && 0 < Pow2(k)
  {
    if k != 0 {
      DoublePow(k - 1);
    }
  }

  lemma {:induction false} ClimbFrom512(n: nat)
    requires n <= 4
    ensures var w := BiggerIsFaster();
      var s := Run(w, Start(w, Store([], [Record(1, "model:1b", Tuning(Rung(9), false))], []), []), n);
      Calm(w, s) && Free(w, s) && Current(w, s) == Rung(9 + n) && |s.changes| == n
  {
    var w := BiggerIsFaster();
    var store := Store([], [Record(1, "model:1b", Tuning(Rung(9), false))], []);
    if n == 0 {
      OnLadderRung(9);
      assert Latest(store.configs, "model:1b") == Some(store.configs[0]);
    } else {
      ClimbFrom512(n - 1);
      FasterVerdict(8 + n);
      FasterIsSteady();
      hide Next, BiggerIsFaster, Verdict, Calm, Free, Current;
      AcceptedIsApplied(w, Run(w, Start(w, store, []), n - 1));
    }
  }

  /** Four changes do happen: the bound is exact. */
  lemma {:induction false} FourChangesHappen() returns (w: World, store: Store)
    ensures Steady(w) && StartsOnLadder(w, store)
    ensures |Run(w, Start(w, store, []), 4).changes| == 4
  {
    w, store := BiggerIsFaster(), Store([], [Record(1, "model:1b", Tuning(Rung(9), false))], []);
    FasterIsSteady();
    OnLadderRung(9);
    hide Run;
    ClimbFrom512(4);
  }
}
