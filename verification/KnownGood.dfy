/** Where the configs a run saves come from. */
module KnownGood {
  import opened Domain
  import opened Tables
  import opened StorageInterface
  import opened Search
  import opened ConfigBuilder
  import opened RollbackPolicy
  import opened TuningPass
  import opened DecisionProperties
  import opened Autopilot
  import opened AutopilotMoves
  import opened SessionProperties
  import opened Pacing

  /** Some result in the pool found this config viable. */
  ghost predicate ViableIn(config: Config, pool: seq<Candidate>) {
    exists i :: 0 <= i < |pool| && pool[i].config == config && pool[i].Viable()
  }

  /** A change's config was found viable in the history given or by a measurement made before the change was saved. */
  ghost predicate Backed(initial: seq<Candidate>, measured: seq<Candidate>, c: Change) {
    c.seen <= |measured| && ViableIn(c.to, initial + measured[..c.seen])
  }

  /** Every history entry is one of the results seen so far, and every change was backed when it was saved. */
  ghost predicate Remembered(initial: seq<Candidate>, s: State) {
    && (forall c :: c in s.history ==> c in initial + s.measured)
    && (forall i :: 0 <= i < |s.changes| ==> Backed(initial, s.measured, s.changes[i]))
  }

  /** What a move adds to history, and the config it saves, is backed by a result seen before the save. */
  lemma {:induction false} MoveIsBacked(w: World, s: State, t: State, m: Move)
    requires IsMove(w, s, t, m)
    ensures m.Tunes() ==> m.session.winner in t.measured && m.session.baseline in t.measured
    ensures m.Tunes() ==> m.session.winner.Honest() && m.session.baseline.Honest()
    ensures m.ToAccepted? ==> m.session.winner.Viable()
    ensures m.ToRollback? ==> m.probe.Honest() && m.probe.config != m.target && ViableIn(m.target, s.history)
  {
    ResumedFrame(w, s);
    hide Next, Resume, OnlyMeasured, CapReached, Latest;
    if m.ToRollback? {
      var i := TargetIsNewestOther(m.probe, s.history);
      assert s.history[i].config == m.target && s.history[i].Viable();
    }
  }

  lemma ViableInMore(config: Config, pool: seq<Candidate>, more: seq<Candidate>)
    requires ViableIn(config, pool) && forall c :: c in pool ==> c in more
    ensures ViableIn(config, more)
  {
    var i :| 0 <= i < |pool| && pool[i].config == config && pool[i].Viable();
    assert pool[i] in more;
    var j :| 0 <= j < |more| && more[j] == pool[i];
  }

  lemma {:induction false} RememberedByNext(w: World, initial: seq<Candidate>, s: State)
    requires Remembered(initial, s)
    ensures Remembered(initial, Next(w, s))
  {
    hide Next, IsMove, ViableIn;
    var t, m := NextMoves(w, s);
    var n := Next(w, s);
    assert n.measured[..|n.measured|] == n.measured;
    SessionEffects(w, s, t, m);
    ChangeEffects(w, s, t, m);
    MeasureEffects(w, s, t, m);
    MoveIsBacked(w, s, t, m);
    forall c | c in initial + s.measured ensures c in initial + n.measured {
    }
    forall i | 0 <= i < |n.changes| ensures Backed(initial, n.measured, n.changes[i]) {
      if i < |s.changes| {
        assert Backed(initial, s.measured, s.changes[i]);
        assert n.measured[..s.changes[i].seen] == s.measured[..s.changes[i].seen];
      } else if m.ToRollback? {
        ViableInMore(m.target, s.history, initial + n.measured);
      } else {
        AcceptedViableIn(m.session.winner, initial + n.measured);
      }
    }
  }

  lemma AcceptedViableIn(c: Candidate, pool: seq<Candidate>)
    requires c in pool && c.Viable()
    ensures ViableIn(c.config, pool)
  {
    var i :| 0 <= i < |pool| && pool[i] == c;
  }

  /** Every config a run saves was found viable before, in the same run or in the history it was given. */
  lemma {:induction false} SavesAreKnownGood(w: World, store: Store, initial: seq<Candidate>, n: nat)
    ensures Remembered(initial, Run(w, Start(w, store, initial), n))
  {
    if n != 0 {
      SavesAreKnownGood(w, store, initial, n - 1);
      RememberedByNext(w, initial, Run(w, Start(w, store, initial), n - 1));
    }
  }

  /**
   * Every history entry was measured under its own config; of the sessions, exactly the rollbacks pair a config with
   * another's benchmark.
   */
  ghost predicate HonestRecord(s: State) {
    && (forall i :: 0 <= i < |s.history| ==> s.history[i].Honest())
    && (forall i :: 0 <= i < |s.sessions| ==>
          (s.sessions[i].winner.Honest() <==> s.sessions[i].outcome != RolledBack))
  }

  lemma {:induction false} HonestSession(w: World, s: State, t: State, m: Move)
    requires IsMove(w, s, t, m) && m.Yields()
    ensures SessionOf(w, s, m).winner.Honest() <==> SessionOf(w, s, m).outcome != RolledBack
  {
    MoveIsBacked(w, s, t, m);
    hide Next, Resume, OnlyMeasured, CapReached, Latest, ViableIn;
  }

  lemma {:induction false} HonestByNext(w: World, s: State)
    requires HonestRecord(s)
    ensures HonestRecord(Next(w, s))
  {
    hide Next, IsMove, ViableIn, SessionOf;
    var t, m := NextMoves(w, s);
    SessionEffects(w, s, t, m);
    MoveIsBacked(w, s, t, m);
    if m.Yields() {
      HonestSession(w, s, t, m);
    }
  }

  lemma {:induction false} HonestByRun(w: World, store: Store, initial: seq<Candidate>, n: nat)
    requires forall i :: 0 <= i < |initial| ==> initial[i].Honest()
    ensures HonestRecord(Run(w, Start(w, store, initial), n))
  {
    if n != 0 {
      HonestByRun(w, store, initial, n - 1);
      HonestByNext(w, Run(w, Start(w, store, initial), n - 1));
    }
  }

  // ----- the configs a run can reach

  /** The empty config, or a power-of-two context from 512 to 8192. */
  predicate OnLadder(config: Config) {
    config == map[] || exists k :: 9 <= k <= 13 && config == Rung(k)
  }

  function Pow2(k: nat): nat {
    if k == 0 then 1 else 2 * Pow2(k - 1)
  }

  function Rung(k: nat): Config {
    Ctx(Pow2(k))
  }

  lemma RungValues()
    ensures Pow2(9) == 512 && Pow2(10) == 1024 && Pow2(11) == 2048 && Pow2(12) == 4096 && Pow2(13) == 8192
  {
    assert Pow2(3) == 8 && Pow2(6) == 64;
  }

  lemma OnLadderRung(k: nat)
    requires 9 <= k <= 13
    ensures OnLadder(Rung(k))
  {
  }

  lemma {:induction false} DefaultOnLadder(spec: Option<ModelSpec>, hw: HardwareProfile)
    ensures OnLadder(DefaultBaseline(spec, hw))
  {
    RungValues();
    OnLadderRung(10);
    OnLadderRung(11);
    OnLadderRung(12);
  }

  /** From a config on the ladder, only configs on the ladder are tried; the empty one counts as 2048. */
  lemma {:induction false} CandidatesOnLadder(baseline: Config, c: Config)
    requires OnLadder(baseline) && c in GenerateCandidates(baseline)
    ensures OnLadder(c)
  {
    RungValues();
    CandidateValues(BaselineCtx(baseline));
    var i :| 0 <= i < |GenerateCandidates(baseline)| && GenerateCandidates(baseline)[i] == c;
    var x := ContextValues(BaselineCtx(baseline))[i];
    assert x in ContextValues(BaselineCtx(baseline));
    assert x in {512, 1024, 2048, 4096, 8192};
    var k := if x == 512 then 9 else if x == 1024 then 10 else if x == 2048 then 11 else if x == 4096 then 12 else 13;
    OnLadderRung(k);
  }

  ghost predicate StoredOnLadder(store: Store, modelId: string) {
    var row := Latest(store.configs, modelId);
    row.Some? ==> OnLadder(row.value.body.config)
  }

  ghost predicate AllOnLadder(pool: seq<Candidate>) {
    forall i :: 0 <= i < |pool| ==> OnLadder(pool[i].config)
  }

  /** Outside writes for this model stay on the ladder too. */
  ghost predicate OutsideOnLadder(w: World) {
    forall k: nat, i :: 0 <= i < |w.outside(k)| ==> RequestOnLadder(w.outside(k)[i], w.lab.modelId)
  }

  ghost predicate RequestOnLadder(request: Request, modelId: string) {
    request.SaveTunedConfig? && request.modelId == modelId ==> OnLadder(request.tuning.config)
  }

  lemma {:induction false} OutsideKeepsLadder(store: Store, requests: seq<Request>, modelId: string)
    requires StoredOnLadder(store, modelId)
    requires forall i :: 0 <= i < |requests| ==> RequestOnLadder(requests[i], modelId)
    ensures StoredOnLadder(AfterAll(store, requests), modelId)
  {
    hide OnLadder, Latest, Insert, LockLatest;
    if requests != [] {
      var n := |requests| - 1;
      var before := AfterAll(store, requests[..n]);
      OutsideKeepsLadder(store, requests[..n], modelId);
      match requests[n]
      case SaveTunedConfig(m, tuning) => LatestAfterInsert(before.configs, m, tuning, modelId);
      case LockConfig(m) => LatestAfterLock(before.configs, m, modelId);
      case _ =>
    }
  }

  ghost predicate Closed(w: World, s: State) {
    && StoredOnLadder(s.store, w.lab.modelId)
    && AllOnLadder(s.history)
    && AllOnLadder(s.measured)
    && forall i :: 0 <= i < |s.changes| ==> OnLadder(s.changes[i].from) && OnLadder(s.changes[i].to)
  }

  lemma {:induction false} BaselineOnLadder(w: World, s: State)
    requires Closed(w, s) && OutsideOnLadder(w)
    ensures StoredOnLadder(Resumed(w, s).store, w.lab.modelId)
    ensures OnLadder(BaselineOf(w, Resumed(w, s)))
  {
    hide OnLadder, Latest;
    var r := Resumed(w, s);
    DefaultOnLadder(w.modelSpec, w.hardware(r.scans));
    if s.status == Running && s.sessions != [] {
      OutsideKeepsLadder(s.store, w.outside(|s.sessions| - 1), w.lab.modelId);
    }
  }

  lemma {:induction false} MeasuredOnLadder(w: World, s: State, t: State, m: Move)
    requires IsMove(w, s, t, m) && Closed(w, s) && OnLadder(BaselineOf(w, Resumed(w, s)))
    ensures AllOnLadder(t.measured)
  {
    ResumedFrame(w, s);
    hide Next, Resume, Taken, OnLadder, Sound, Latest, GenerateCandidates, BaselineOf;
    var b := BaselineOf(w, Resumed(w, s));
    forall i | |s.measured| <= i < |t.measured| ensures OnLadder(t.measured[i].config) {
      assert FitsPass(t.measured[i], b);
      if t.measured[i].config != b {
        CandidatesOnLadder(b, t.measured[i].config);
      }
    }
  }

  lemma {:induction false} ClosedByNext(w: World, s: State)
    requires Closed(w, s) && OutsideOnLadder(w)
    ensures Closed(w, Next(w, s))
  {
    hide Next, IsMove, OnLadder, Resumed, Latest, Insert, ViableIn;
    var t, m := NextMoves(w, s);
    var r, n := Resumed(w, s), Next(w, s);
    BaselineOnLadder(w, s);
    MeasuredOnLadder(w, s, t, m);
    SessionEffects(w, s, t, m);
    ChangeEffects(w, s, t, m);
    MeasureEffects(w, s, t, m);
    MoveIsBacked(w, s, t, m);
    ConfigEffects(w, s, t, m);
    if m.Changes() {
      LatestAfterInsert(r.store.configs, w.lab.modelId, Tuning(ToOf(m), false), w.lab.modelId);
      ChangeOnLadder(w, s, t, m);
    }
  }

  lemma {:induction false} ChangeOnLadder(w: World, s: State, t: State, m: Move)
    requires IsMove(w, s, t, m) && m.Changes() && Closed(w, s) && AllOnLadder(t.measured)
    requires OnLadder(BaselineOf(w, Resumed(w, s)))
    ensures OnLadder(FromOf(m)) && OnLadder(ToOf(m))
  {
    MoveIsBacked(w, s, t, m);
    ChangesFrom(w, s, t, m);
    hide IsMove, OnLadder, BaselineOf;
    if m.ToRollback? {
      var i :| 0 <= i < |s.history| && s.history[i].config == m.target && s.history[i].Viable();
    } else {
      var i :| 0 <= i < |t.measured| && t.measured[i] == m.session.winner;
    }
  }

  lemma {:induction false} ChangesFrom(w: World, s: State, t: State, m: Move)
    requires IsMove(w, s, t, m) && m.Changes()
    ensures FromOf(m) == BaselineOf(w, Resumed(w, s))
  {
    ResumedFrame(w, s);
    hide Next, Resume, OnlyMeasured, CapReached, Latest;
  }

  /** Starting on the ladder, every config a run benchmarks, stores, or keeps in history is on it. */
  lemma {:induction false} RunStaysOnLadder(w: World, store: Store, initial: seq<Candidate>, n: nat)
    requires StoredOnLadder(store, w.lab.modelId) && AllOnLadder(initial) && OutsideOnLadder(w)
    ensures Closed(w, Run(w, Start(w, store, initial), n))
  {
    if n != 0 {
      RunStaysOnLadder(w, store, initial, n - 1);
      ClosedByNext(w, Run(w, Start(w, store, initial), n - 1));
    }
  }
}
