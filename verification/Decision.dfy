/** What one tuning pass decides, and that testing only the best candidate loses nothing. */
module DecisionProperties {
  import opened Domain
  import opened Runner
  import opened Search
  import opened Evaluator
  import opened RollbackPolicy
  import opened TuningPass

  /**
   * What every measurement satisfies: it names its own config, and it is viable, successful and not in need of
   * rollback together.
   */
  ghost predicate Sound(c: Candidate) {
    && c.Honest()
    && (c.Viable() <==> c.benchmark.Succeeded())
    && (c.Viable() <==> !NeedsRollback(c))
  }

  lemma {:induction false} MeasureIsSound(lab: Lab, at: nat, config: Config)
    ensures var c := Measure(lab, at, config);
      Sound(c) && c.config == config && c.benchmark.samplesAttempted <= |lab.prompts|
  {
    MeasurementOutcome(Trial(lab.replies, at, lab.modelId, lab.prompts, OptionsFor(config)));
  }

  /** A config works exactly when each prompt is answered with it as options; an empty one is sent as no options. */
  lemma {:induction false} MeasureSends(lab: Lab, at: nat, config: Config)
    ensures var c := Measure(lab, at, config); var options := if |config| == 0 then None else Some(config);
      && c.config == config && c.benchmark.config == config
      && (Usable(c.benchmark) <==>
            forall i :: 0 <= i < |lab.prompts| ==>
              lab.replies(at + i, lab.modelId, lab.prompts[i], options).Answer?)
  {
    hide Measurement;
    assert |config| == 0 <==> config == map[];
    MeasurementOutcome(Trial(lab.replies, at, lab.modelId, lab.prompts, OptionsFor(config)));
  }

  /** A candidate's result: the baseline's own if the config is the same, else a sound new measurement. */
  ghost predicate ResultFor(config: Config, result: Candidate, baseline: Candidate, measured: seq<Candidate>) {
    && result.config == config
    && if config == baseline.config then result == baseline else Sound(result) && result in measured
  }

  lemma {:induction false} SweepResults(lab: Lab, at: nat, baseline: Candidate, configs: seq<Config>)
    ensures var sweep := SweepOf(lab, at, baseline, configs);
      && |sweep.results| == |configs|
      && (forall i :: 0 <= i < |configs| ==> ResultFor(configs[i], sweep.results[i], baseline, sweep.measured))
  {
    hide Measure, Sound;
    if configs != [] {
      var n := |configs| - 1;
      var before, sweep := SweepOf(lab, at, baseline, configs[..n]), SweepOf(lab, at, baseline, configs);
      SweepResults(lab, at, baseline, configs[..n]);
      MeasureIsSound(lab, before.calls, configs[n]);
      forall i | 0 <= i < n ensures ResultFor(configs[i], sweep.results[i], baseline, sweep.measured) {
        assert configs[..n][i] == configs[i];
        assert ResultFor(configs[i], before.results[i], baseline, before.measured);
      }
    }
  }

  lemma {:induction false} SweepMeasured(lab: Lab, at: nat, baseline: Candidate, configs: seq<Config>)
    ensures var sweep := SweepOf(lab, at, baseline, configs);
      && (forall i :: 0 <= i < |sweep.measured| ==>
            Sound(sweep.measured[i]) && sweep.measured[i].config in configs && sweep.measured[i] in sweep.results)
      && |sweep.measured| <= |configs|
      && (baseline.config in configs ==> |sweep.measured| < |configs|)
  {
    hide Measure, Sound;
    if configs != [] {
      var n := |configs| - 1;
      SweepMeasured(lab, at, baseline, configs[..n]);
      MeasureIsSound(lab, SweepOf(lab, at, baseline, configs[..n]).calls, configs[n]);
      assert forall c :: c in configs <==> c in configs[..n] || c == configs[n];
    }
  }

  lemma {:induction false} SweepCost(lab: Lab, at: nat, baseline: Candidate, configs: seq<Config>)
    ensures var sweep := SweepOf(lab, at, baseline, configs);
      at <= sweep.calls <= at + |sweep.measured| * |lab.prompts|
  {
    hide Measure, Sound;
    if configs != [] {
      var n := |configs| - 1;
      SweepCost(lab, at, baseline, configs[..n]);
      MeasureIsSound(lab, SweepOf(lab, at, baseline, configs[..n]).calls, configs[n]);
    }
  }

  /** What the decision needs of its inputs, as a sweep provides it. */
  ghost predicate Swept(baseline: Candidate, candidates: seq<Candidate>) {
    && Sound(baseline)
    && forall i :: 0 <= i < |candidates| ==>
         Sound(candidates[i]) && (candidates[i].config == baseline.config ==> candidates[i] == baseline)
  }

  /** An alternative worth switching to. */
  ghost predicate WorthIt(c: Candidate, baseline: Candidate) {
    c.config != baseline.config && c.Viable() && Improves(c, baseline)
  }

  /**
   * Soundness and completeness of the decision. A new config is accepted exactly when some alternative is worth it,
   * and then the accepted one is the first best of all viable candidates. The winner works exactly when anything
   * measured works.
   */
  lemma {:induction false} DecideIsExact(modelId: string, baseline: Candidate, candidates: seq<Candidate>)
    requires Swept(baseline, candidates)
    ensures var d := Decide(modelId, baseline, candidates);
      && d.modelId == modelId && d.baseline == baseline && d.candidates == candidates
      && d.outcome in {AcceptedNew, KeptBaseline}
      && (d.outcome == AcceptedNew <==> exists i :: 0 <= i < |candidates| && WorthIt(candidates[i], baseline))
      && (d.outcome == AcceptedNew ==>
            WorthIt(d.winner, baseline) && exists i: nat :: IsFirstBest(candidates, i) && candidates[i] == d.winner)
      && (d.outcome == KeptBaseline ==> d.winner == baseline)
      && (d.winner.Viable() <==> baseline.Viable() || exists i :: 0 <= i < |candidates| && candidates[i].Viable())
  {
    var k := PickBestIsFirstBest(candidates);
    hide PickBest;
    forall i | 0 <= i < |candidates| && WorthIt(candidates[i], baseline)
      ensures WorthIt(candidates[k], baseline)
    {
      BestIsWorthIt(baseline, candidates, k, i);
    }
    forall i | 0 <= i < |candidates| && candidates[i].Viable() && !baseline.Viable()
      ensures WorthIt(candidates[k], baseline)
    {
    }
  }

  /** If any alternative is worth switching to, the best candidate is. */
  lemma {:induction false} BestIsWorthIt(baseline: Candidate, candidates: seq<Candidate>, k: nat, i: nat)
    requires Swept(baseline, candidates) && IsFirstBest(candidates, k)
    requires i < |candidates| && WorthIt(candidates[i], baseline)
    ensures WorthIt(candidates[k], baseline)
  {
    assert !Better(candidates[i], candidates[k]);
    ImprovesMonotone(candidates[k], candidates[i], baseline);
    if candidates[k].config == baseline.config {
      ImprovementIsFaster(candidates[i], baseline);
    }
  }

  /** What a pass starting from `config` measures: the baseline and its candidates, at most four benchmarks. */
  ghost predicate PassMeasures(lab: Lab, at: nat, config: Config, t: Tuned) {
    && (forall i :: 0 <= i < |t.measured| ==>
          Sound(t.measured[i]) && (t.measured[i].config == config || t.measured[i].config in GenerateCandidates(config)))
    && 1 <= |t.measured| <= 4
    && (config.Keys == {"num_ctx"} ==> |t.measured| <= 3)
    && at <= t.calls <= at + |t.measured| * |lab.prompts|
  }

  /** The session is about what the pass measured. */
  ghost predicate PassReports(lab: Lab, config: Config, t: Tuned) {
    var d := t.session;
    && d.modelId == lab.modelId
    && d.baseline.config == config
    && Swept(d.baseline, d.candidates)
    && d.baseline in t.measured && d.winner in t.measured
    && |d.candidates| == |GenerateCandidates(config)|
    && (forall i :: 0 <= i < |d.candidates| ==>
          d.candidates[i].config == GenerateCandidates(config)[i]
          && (d.candidates[i] == d.baseline || d.candidates[i] in t.measured))
  }

  /** What the session decides. */
  ghost predicate PassDecides(t: Tuned) {
    var d := t.session;
    && d.outcome in {AcceptedNew, KeptBaseline}
    && (d.outcome == AcceptedNew <==> exists i :: 0 <= i < |d.candidates| && WorthIt(d.candidates[i], d.baseline))
    && (d.outcome == AcceptedNew ==>
          && WorthIt(d.winner, d.baseline)
          && exists i: nat :: IsFirstBest(d.candidates, i) && d.candidates[i] == d.winner)
    && (d.outcome == KeptBaseline ==> d.winner == d.baseline)
    && (d.winner.Viable() <==>
          d.baseline.Viable() || exists i :: 0 <= i < |d.candidates| && d.candidates[i].Viable())
  }

  lemma {:induction false} PassMeasurement(lab: Lab, at: nat, config: Config)
    ensures PassMeasures(lab, at, config, TuneFrom(lab, at, config))
  {
    hide Measure, SweepOf, Decide, GenerateCandidates, Sound;
    var baseline, configs := Measure(lab, at, config), GenerateCandidates(config);
    var start := at + baseline.benchmark.samplesAttempted;
    MeasureIsSound(lab, at, config);
    SweepMeasured(lab, start, baseline, configs);
    SweepCost(lab, start, baseline, configs);
    CandidateValues(BaselineCtx(config));
    OwnCandidate(config);
  }

  lemma {:induction false} SweepIsSwept(lab: Lab, at: nat, baseline: Candidate, configs: seq<Config>)
    requires Sound(baseline)
    ensures var sweep := SweepOf(lab, at, baseline, configs);
      && |sweep.results| == |configs| && Swept(baseline, sweep.results)
      && forall i :: 0 <= i < |configs| ==>
           sweep.results[i].config == configs[i] && (sweep.results[i] == baseline || sweep.results[i] in sweep.measured)
  {
    hide SweepOf, Sound;
    SweepResults(lab, at, baseline, configs);
    var sweep := SweepOf(lab, at, baseline, configs);
    forall i | 0 <= i < |configs| ensures ResultFor(configs[i], sweep.results[i], baseline, sweep.measured) {
    }
  }

  lemma {:induction false} PassDecision(lab: Lab, at: nat, config: Config)
    ensures PassReports(lab, config, TuneFrom(lab, at, config))
    ensures PassDecides(TuneFrom(lab, at, config))
  {
    hide Measure, SweepOf, Decide, GenerateCandidates, Sound, Swept, WorthIt, IsFirstBest;
    var baseline, configs := Measure(lab, at, config), GenerateCandidates(config);
    var start := at + baseline.benchmark.samplesAttempted;
    MeasureIsSound(lab, at, config);
    SweepIsSwept(lab, start, baseline, configs);
    var sweep := SweepOf(lab, start, baseline, configs);
    DecideIsExact(lab.modelId, baseline, sweep.results);
    assert TuneFrom(lab, at, config).measured == [baseline] + sweep.measured;
    WinnerIsMeasured(Decide(lab.modelId, baseline, sweep.results), baseline, sweep.results);
  }

  lemma WinnerIsMeasured(d: Session, baseline: Candidate, candidates: seq<Candidate>)
    requires d.outcome == KeptBaseline ==> d.winner == baseline
    requires d.outcome != KeptBaseline ==> exists i: nat :: IsFirstBest(candidates, i) && candidates[i] == d.winner
    ensures d.winner == baseline || exists i :: 0 <= i < |candidates| && candidates[i] == d.winner
  {
  }

  /** A whole pass from any config: what it measures, what its session is about, and what that decides. */
  lemma {:induction false} PassIsExact(lab: Lab, at: nat, config: Config)
    ensures var t := TuneFrom(lab, at, config);
      PassMeasures(lab, at, config, t) && PassReports(lab, config, t) && PassDecides(t)
  {
    hide TuneFrom, PassMeasures, PassReports, PassDecides;
    PassMeasurement(lab, at, config);
    PassDecision(lab, at, config);
  }

  // ----- the order of a pass

  /** The adapter calls these benchmarks made. */
  function Spent(measured: seq<Candidate>): nat {
    if measured == [] then 0
    else Spent(measured[..|measured| - 1]) + measured[|measured| - 1].benchmark.samplesAttempted
  }

  function Configs(measured: seq<Candidate>): (configs: seq<Config>)
    ensures |configs| == |measured|
    ensures forall i :: 0 <= i < |measured| ==> configs[i] == measured[i].config
  {
    seq(|measured|, i requires 0 <= i < |measured| => measured[i].config)
  }

  function Without(configs: seq<Config>, config: Config): seq<Config> {
    if configs == [] then []
    else
      var last := configs[|configs| - 1];
      Without(configs[..|configs| - 1], config) + if last == config then [] else [last]
  }

  /** These benchmarks were taken one right after the other, from call number `at` on. */
  ghost predicate BackToBack(lab: Lab, at: nat, measured: seq<Candidate>) {
    forall i :: 0 <= i < |measured| ==>
      measured[i] == Measure(lab, at + Spent(measured[..i]), measured[i].config)
  }

  lemma OneMore(measured: seq<Candidate>, c: Candidate)
    ensures Spent(measured + [c]) == Spent(measured) + c.benchmark.samplesAttempted
    ensures Configs(measured + [c]) == Configs(measured) + [c.config]
  {
    assert (measured + [c])[..|measured|] == measured;
  }

  lemma {:induction false} BackToBackAppend(lab: Lab, at: nat, measured: seq<Candidate>, c: Candidate)
    requires BackToBack(lab, at, measured) && c == Measure(lab, at + Spent(measured), c.config)
    ensures BackToBack(lab, at, measured + [c])
  {
    hide Measure, Spent;
    var more := measured + [c];
    forall i | 0 <= i < |more| ensures more[i] == Measure(lab, at + Spent(more[..i]), more[i].config) {
      assert more[..i] == if i < |measured| then measured[..i] else measured;
    }
  }

  /** A baseline and the sweep over these configs after it, in the order of their calls. */
  ghost predicate Ordered(lab: Lab, at: nat, baseline: Candidate, configs: seq<Config>, sweep: Sweep) {
    var measured := [baseline] + sweep.measured;
    && BackToBack(lab, at, measured)
    && sweep.calls == at + Spent(measured)
    && Configs(measured) == [baseline.config] + Without(configs, baseline.config)
  }

  lemma {:induction false} OrderedAtStart(lab: Lab, at: nat, baseline: Candidate, start: nat)
    requires baseline == Measure(lab, at, baseline.config) && start == at + baseline.benchmark.samplesAttempted
    ensures Ordered(lab, at, baseline, [], Sweep([], [], start))
  {
    hide Measure;
    OneMore([], baseline);
    BackToBackAppend(lab, at, [], baseline);
    assert [] + [baseline] == [baseline] == [baseline] + [];
  }

  lemma {:induction false} OrderedOneOn(lab: Lab, at: nat, baseline: Candidate, configs: seq<Config>, before: Sweep,
                                        c: Candidate, after: Sweep)
    requires configs != []
    requires var n := |configs| - 1;
      && Ordered(lab, at, baseline, configs[..n], before)
      && configs[n] != baseline.config && c.config == configs[n]
      && c == Measure(lab, before.calls, configs[n])
    requires after.measured == before.measured + [c] && after.calls == before.calls + c.benchmark.samplesAttempted
    ensures Ordered(lab, at, baseline, configs, after)
  {
    hide Measure, Spent, BackToBack;
    var measured := [baseline] + before.measured;
    OneMore(measured, c);
    BackToBackAppend(lab, at, measured, c);
    assert [baseline] + after.measured == measured + [c];
  }

  lemma {:induction false} SweepInOrder(lab: Lab, at: nat, baseline: Candidate, configs: seq<Config>)
    requires baseline == Measure(lab, at, baseline.config)
    ensures Ordered(lab, at, baseline, configs,
              SweepOf(lab, at + baseline.benchmark.samplesAttempted, baseline, configs))
  {
    hide Measure, Ordered;
    var start := at + baseline.benchmark.samplesAttempted;
    if configs == [] {
      OrderedAtStart(lab, at, baseline, start);
    } else {
      var n := |configs| - 1;
      var before := SweepOf(lab, start, baseline, configs[..n]);
      SweepInOrder(lab, at, baseline, configs[..n]);
      if configs[n] == baseline.config {
        OrderedAsBefore(lab, at, baseline, configs, before);
      } else {
        var c := Measure(lab, before.calls, configs[n]);
        MeasureIsSound(lab, before.calls, configs[n]);
        OrderedOneOn(lab, at, baseline, configs, before, c, SweepOf(lab, start, baseline, configs));
      }
    }
  }

  lemma OrderedAsBefore(lab: Lab, at: nat, baseline: Candidate, configs: seq<Config>, before: Sweep)
    requires configs != [] && configs[|configs| - 1] == baseline.config
    requires Ordered(lab, at, baseline, configs[..|configs| - 1], before)
    ensures Ordered(lab, at, baseline, configs, before.(results := before.results + [baseline]))
  {
    hide BackToBack, Spent;
    assert Without(configs, baseline.config) == Without(configs[..|configs| - 1], baseline.config);
  }

  /** A pass benchmarks its baseline, then the other candidates in order, back to back from call `at` on. */
  lemma {:induction false} PassInOrder(lab: Lab, at: nat, config: Config)
    ensures var t := TuneFrom(lab, at, config);
      && BackToBack(lab, at, t.measured) && t.calls == at + Spent(t.measured)
      && Configs(t.measured) == [config] + Without(GenerateCandidates(config), config)
  {
    hide Measure, SweepOf, Decide, GenerateCandidates;
    MeasureIsSound(lab, at, config);
    SweepInOrder(lab, at, Measure(lab, at, config), GenerateCandidates(config));
  }

  /** An accepted config is usable and unbeaten, and of the candidates that tie with it, it has the smallest context. */
  lemma {:induction false} AcceptedIsBestAndSmallest(lab: Lab, at: nat, config: Config, j: nat)
    requires TuneFrom(lab, at, config).session.outcome == AcceptedNew
    requires var cs := TuneFrom(lab, at, config).session.candidates; j < |cs| && Usable(cs[j].benchmark)
    ensures var d := TuneFrom(lab, at, config).session; var winner, c := d.winner, d.candidates[j];
      && Usable(winner.benchmark) && Unbeaten(winner.benchmark, c.benchmark)
      && "num_ctx" in winner.config && "num_ctx" in c.config
      && (Unbeaten(c.benchmark, winner.benchmark) ==> winner.config["num_ctx"] <= c.config["num_ctx"])
  {
    hide TuneFrom, Sound, Swept, WorthIt;
    PassIsExact(lab, at, config);
    var d := TuneFrom(lab, at, config).session;
    var i: nat :| IsFirstBest(d.candidates, i) && d.candidates[i] == d.winner;
    CandidateValues(BaselineCtx(config));
    BetterByFields();
    var values := ContextValues(BaselineCtx(config));
    assert d.candidates[i].config == Ctx(values[i]) && d.candidates[j].config == Ctx(values[j]);
  }
}
