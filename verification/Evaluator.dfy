/** From measured candidates to a decision. */
module Evaluator {
  import opened Domain

  const DEFAULT_MIN_IMPROVEMENT_PCT := 5.0

  function ViableOnes(results: seq<Candidate>): seq<Candidate> {
    if results == [] then []
    else
      var last := results[|results| - 1];
      ViableOnes(results[..|results| - 1]) + if last.Viable() then [last] else []
  }

  /** A strictly higher score: more throughput, then a lower 95th percentile, a missing one counting as infinite. */
  predicate Better(a: Candidate, b: Candidate) {
    || b.benchmark.Throughput() < a.benchmark.Throughput()
    || (a.benchmark.Throughput() == b.benchmark.Throughput() && Quicker(a.benchmark.p95LatencyS, b.benchmark.p95LatencyS))
  }

  predicate Quicker(a: Option<real>, b: Option<real>) {
    a.Some? && (b.None? || a.value < b.value)
  }

  /** The first candidate with the highest score. */
  function FirstMax(viable: seq<Candidate>): (best: Candidate)
    requires viable != []
  {
    var last := viable[|viable| - 1];
    if |viable| == 1 then last
    else
      var best := FirstMax(viable[..|viable| - 1]);
      if Better(last, best) then last else best
  }

  function PickBest(results: seq<Candidate>): Option<Candidate> {
    var viable := ViableOnes(results);
    if viable == [] then None else Some(FirstMax(viable))
  }

  predicate IsMeaningfulImprovement(candidate: Candidate, baseline: Candidate, minImprovementPct: real) {
    if !candidate.benchmark.Succeeded() || candidate.benchmark.oomOccurred then false
    else if !baseline.benchmark.Succeeded() then true
    else
      var base, cand := baseline.benchmark.Throughput(), candidate.benchmark.Throughput();
      if base <= 0.0 then 0.0 < cand
      else minImprovementPct <= (cand - base) / base * 100.0
  }

  /** Clears the default five per cent bar. */
  predicate Improves(candidate: Candidate, baseline: Candidate) {
    IsMeaningfulImprovement(candidate, baseline, DEFAULT_MIN_IMPROVEMENT_PCT)
  }

  /** `best` is at position i: viable, unbeaten, and ahead of every viable result before it. */
  ghost predicate IsFirstBest(results: seq<Candidate>, i: nat) {
    && i < |results|
    && results[i].Viable()
    && (forall j :: 0 <= j < |results| && results[j].Viable() ==> !Better(results[j], results[i]))
    && (forall j :: 0 <= j < i && results[j].Viable() ==> Better(results[i], results[j]))
  }

  lemma PickBestAppend(results: seq<Candidate>, r: Candidate)
    ensures PickBest(results + [r])
         == if !r.Viable() then PickBest(results)
            else match PickBest(results)
                 case None => Some(r)
                 case Some(best) => if Better(r, best) then Some(r) else Some(best)
  {
    hide Better;
    assert (results + [r])[..|results|] == results;
    var viable := ViableOnes(results);
    assert (viable + [r])[..|viable|] == viable && viable + [] == viable;
  }

  /**
   * None exactly when nothing is viable; otherwise the viable result with the highest throughput, then the lowest
   * p95, and of full ties the earliest in the list.
   */
  lemma {:induction false} PickBestIsFirstBest(results: seq<Candidate>) returns (i: nat)
    ensures PickBest(results).None? <==> forall j :: 0 <= j < |results| ==> !results[j].Viable()
    ensures PickBest(results).Some? ==> IsFirstBest(results, i) && PickBest(results).value == results[i]
  {
    i := 0;
    if results != [] {
      var n := |results| - 1;
      var last := results[n];
      assert results == results[..n] + [last];
      i := PickBestIsFirstBest(results[..n]);
      PickBestAppend(results[..n], last);
      if last.Viable() && (PickBest(results[..n]).None? || Better(last, PickBest(results[..n]).value)) {
        i := n;
      }
    }
  }

  /** It answered every call and never ran out of memory. */
  ghost predicate Usable(b: Benchmark) {
    b.error == None && b.samplesCompleted == b.samplesAttempted && b.oomOccurred == false
  }

  /** At least as fast, a missing throughput counting as zero; and where just as fast, with no higher a p95 than any. */
  ghost predicate Unbeaten(a: Benchmark, b: Benchmark) {
    var x := if a.tokensPerSec == None then 0.0 else a.tokensPerSec.value;
    var y := if b.tokensPerSec == None then 0.0 else b.tokensPerSec.value;
    && x >= y
    && (x == y && b.p95LatencyS.Some? ==> a.p95LatencyS.Some? && a.p95LatencyS.value <= b.p95LatencyS.value)
  }

  /**
   * The choice in terms of what was measured: None exactly when nothing is usable; otherwise a usable result that none
   * beats, by throughput and then by p95, and the first of these.
   */
  lemma {:induction false} PickBestByFields(results: seq<Candidate>) returns (i: nat)
    ensures PickBest(results).None? <==> forall j :: 0 <= j < |results| ==> !Usable(results[j].benchmark)
    ensures PickBest(results).Some? ==>
              && i < |results| && PickBest(results).value == results[i] && Usable(results[i].benchmark)
              && (forall j :: 0 <= j < |results| && Usable(results[j].benchmark) ==>
                    Unbeaten(results[i].benchmark, results[j].benchmark))
              && (forall j :: 0 <= j < i && Usable(results[j].benchmark) ==>
                    !Unbeaten(results[j].benchmark, results[i].benchmark))
  {
    hide PickBest;
    i := PickBestIsFirstBest(results);
    assert forall j :: 0 <= j < |results| ==> (Usable(results[j].benchmark) <==> results[j].Viable());
    BetterByFields();
  }

  lemma BetterByFields()
    ensures forall a: Candidate, b: Candidate :: Better(a, b) <==> !Unbeaten(b.benchmark, a.benchmark)
  {
  }

  /** The percentage test without the division. */
  lemma {:induction false} ImprovementRatio(cand: real, base: real, pct: real)
    requires 0.0 < base
    ensures pct <= (cand - base) / base * 100.0 <==> (100.0 + pct) * base <= 100.0 * cand
  {
    var q := (cand - base) / base;
    var bar := pct / 100.0;
    assert q * base == cand - base && bar * 100.0 == pct;
    if bar <= q {
      assert 0.0 <= (q - bar) * base;
    } else {
      assert (bar - q) * base > 0.0;
    }
    assert (q - bar) * base * 100.0 == 100.0 * cand - (100.0 + pct) * base;
  }

  /**
   * A switch is meaningful when the candidate works and the baseline fails, or when it gains the percentage on it: from
   * 1.05 times the baseline's throughput on by default. A missing throughput counts as zero.
   */
  lemma {:induction false} ImprovesExactly(candidate: Candidate, baseline: Candidate, pct: real)
    ensures var base := if baseline.benchmark.tokensPerSec == None then 0.0 else baseline.benchmark.tokensPerSec.value;
      var cand := if candidate.benchmark.tokensPerSec == None then 0.0 else candidate.benchmark.tokensPerSec.value;
      var fails := baseline.benchmark.error.Some?
                   || baseline.benchmark.samplesCompleted != baseline.benchmark.samplesAttempted;
      && (IsMeaningfulImprovement(candidate, baseline, pct) <==>
            && Usable(candidate.benchmark)
            && (fails || if 0.0 < base then (100.0 + pct) * base <= 100.0 * cand else 0.0 < cand))
      && (Improves(candidate, baseline) <==>
            && Usable(candidate.benchmark)
            && (fails || if 0.0 < base then 1.05 * base <= cand else 0.0 < cand))
  {
    if 0.0 < baseline.benchmark.Throughput() {
      ImprovementRatio(candidate.benchmark.Throughput(), baseline.benchmark.Throughput(), pct);
      ImprovementRatio(candidate.benchmark.Throughput(), baseline.benchmark.Throughput(), 5.0);
    }
  }

  /** Against one baseline, a viable result with at least as much throughput improves whenever the other does. */
  lemma {:induction false} ImprovesMonotone(better: Candidate, worse: Candidate, baseline: Candidate)
    requires better.Viable() && Improves(worse, baseline)
    requires worse.benchmark.Throughput() <= better.benchmark.Throughput()
    ensures Improves(better, baseline)
  {
    var base := baseline.benchmark.Throughput();
    if baseline.benchmark.Succeeded() && 0.0 < base {
      ImprovementRatio(worse.benchmark.Throughput(), base, DEFAULT_MIN_IMPROVEMENT_PCT);
      ImprovementRatio(better.benchmark.Throughput(), base, DEFAULT_MIN_IMPROVEMENT_PCT);
    }
  }

  /** An improvement over a baseline that works is strictly faster than it. */
  lemma {:induction false} ImprovementIsFaster(candidate: Candidate, baseline: Candidate)
    requires Improves(candidate, baseline) && baseline.benchmark.Succeeded()
    ensures baseline.benchmark.Throughput() < candidate.benchmark.Throughput()
  {
    var base := baseline.benchmark.Throughput();
    if 0.0 < base {
      ImprovementRatio(candidate.benchmark.Throughput(), base, DEFAULT_MIN_IMPROVEMENT_PCT);
    }
  }
}

/** Reverting an active config that is failing now. */
module RollbackPolicy {
  import opened Domain

  predicate NeedsRollback(active: Candidate)
    ensures NeedsRollback(active) <==> !active.Viable()
  {
    active.benchmark.oomOccurred || !active.benchmark.Succeeded()
  }

  /** The config of the newest viable entry whose config is not the current one. */
  function RollbackTarget(current: Candidate, history: seq<Candidate>): Option<Config> {
    if history == [] then None
    else
      var entry := history[|history| - 1];
      if entry.config == current.config then RollbackTarget(current, history[..|history| - 1])
      else if entry.benchmark.Succeeded() && !entry.benchmark.oomOccurred then Some(entry.config)
      else RollbackTarget(current, history[..|history| - 1])
  }

  /**
   * A target is viable history other than the failing config, and everything newer is unusable: failing itself or
   * that same config. There is no target exactly when no entry would do.
   */
  lemma {:induction false} TargetIsNewestOther(current: Candidate, history: seq<Candidate>) returns (i: nat)
    ensures RollbackTarget(current, history).None? <==>
            forall j :: 0 <= j < |history| && history[j].Viable() ==> history[j].config == current.config
    ensures RollbackTarget(current, history).Some? ==>
            && i < |history|
            && history[i].Viable()
            && RollbackTarget(current, history) == Some(history[i].config)
            && history[i].config != current.config
            && (forall j :: i < j < |history| ==> !history[j].Viable() || history[j].config == current.config)
  {
    i := 0;
    if history != [] {
      var n := |history| - 1;
      if history[n].config == current.config || !history[n].Viable() {
        i := TargetIsNewestOther(current, history[..n]);
        assert forall j :: 0 <= j < n ==> history[..n][j] == history[j];
      } else {
        i := n;
      }
    }
  }
}
