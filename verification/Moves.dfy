/**
 * Every resumption of the generator is one of eight moves from a state that differs from the resumed one only in what
 * was measured.
 */
module AutopilotMoves {
  import opened Domain
  import opened Tables
  import opened StorageInterface
  import opened Runner
  import opened Search
  import opened RollbackPolicy
  import opened TuningPass
  import opened DecisionProperties
  import opened Autopilot

  datatype Move =
    | Stay
    | Finish
    | Fail
    | ToLocked(config: Config)
    | ToRollback(probe: Candidate, target: Config)
    | ToKept(session: Session)
    | ToLimited(session: Session)
    | ToAccepted(session: Session)
  {
    predicate Tunes() {
      ToKept? || ToLimited? || ToAccepted?
    }

    /** A session is yielded. */
    predicate Yields() {
      Tunes() || ToRollback? || ToLocked?
    }

    /** The active config is changed. */
    predicate Changes() {
      ToRollback? || ToAccepted?
    }
  }

  /** The state a move leads to from `t`. */
  function Land(w: World, t: State, m: Move): State {
    match m
    case Stay => t
    case Finish => t.(status := Returned)
    case Fail => t.(status := RuntimeUnavailable)
    case ToLocked(config) => LockedStep(w, t, config)
    case ToRollback(probe, target) => RollbackStep(w, t, probe, target)
    case ToKept(session) => KeepStep(t, session)
    case ToLimited(session) => LimitStep(w, AfterRateCheck(w, t), session)
    case ToAccepted(session) => AcceptStep(w, AfterRateCheck(w, t), session)
  }

  /** The config a pass from the resumed state `r` starts from. */
  function BaselineOf(w: World, r: State): Config {
    PassBaseline(w, r, r.Active(w.lab.modelId))
  }

  /** A sound measurement of the pass's baseline config or of one of the candidates generated from it. */
  ghost predicate FitsPass(c: Candidate, baseline: Config) {
    Sound(c) && (c.config == baseline || c.config in GenerateCandidates(baseline))
  }

  /**
   * `t` has only measured since `r`: positions on the measurement tapes and the measurement record may have advanced.
   */
  ghost predicate OnlyMeasured(w: World, r: State, t: State) {
    && t == r.(calls := t.calls, checks := t.checks, scans := t.scans, measured := t.measured)
    && r.measured <= t.measured
    && (forall i :: |r.measured| <= i < |t.measured| ==> FitsPass(t.measured[i], BaselineOf(w, r)))
    && |t.measured| <= |r.measured| + 5
    && r.calls <= t.calls <= r.calls + (|t.measured| - |r.measured|) * |w.lab.prompts|
  }

  /** The probe a turn on an unlocked model starts with: of the stored config, when there is any history. */
  function Probed(w: World, r: State): seq<Candidate> {
    var stored := r.Active(w.lab.modelId);
    if stored.Some? && r.history != [] then [Measure(w.lab, r.calls, stored.value)] else []
  }

  /** The adapter call a pass from the resumed state `r` starts at. */
  function PassStart(w: World, r: State): nat {
    r.calls + Spent(Probed(w, r))
  }

  function PassFrom(w: World, r: State): Tuned {
    TuneFrom(w.lab, PassStart(w, r), BaselineOf(w, r))
  }

  /** `t` is `r` after the probe, if any, and that one pass. */
  ghost predicate OnePass(w: World, r: State, t: State, session: Session) {
    && session == PassFrom(w, r).session
    && t.measured == r.measured + Probed(w, r) + PassFrom(w, r).measured
    && t.calls == PassFrom(w, r).calls
    && w.reachable(r.checks) && t.checks == r.checks + 1
    && t.scans == r.scans + if r.Active(w.lab.modelId).None? && w.modelSpec.Some? then 1 else 0
  }

  /** `t` is `r` after the probe, if any, and finding the runtime unreachable. */
  ghost predicate NoPass(w: World, r: State, t: State) {
    && t.measured == r.measured + Probed(w, r)
    && t.calls == PassStart(w, r)
    && !w.reachable(r.checks) && t.checks == r.checks + 1
    && t.scans == r.scans
  }

  /** What holds when a tuning session settles. */
  ghost predicate TunedFrom(w: World, r: State, t: State, session: Session) {
    && |r.measured| <= |t.measured|
    && session.modelId == w.lab.modelId
    && session.baseline.config == BaselineOf(w, r)
    && OnePass(w, r, t, session)
    && session.baseline in t.measured[|r.measured|..]
    && session.winner in t.measured[|r.measured|..]
    && Sound(session.baseline)
    && Sound(session.winner)
    && (session.outcome == AcceptedNew <==>
          exists i :: 0 <= i < |session.candidates| && WorthIt(session.candidates[i], session.baseline))
    && (session.outcome == AcceptedNew ==> WorthIt(session.winner, session.baseline))
    && (session.outcome != AcceptedNew ==> session.outcome == KeptBaseline && session.winner == session.baseline)
    && (session.winner.Viable() <==>
          session.baseline.Viable()
          || exists i :: 0 <= i < |session.candidates| && session.candidates[i].Viable())
  }

  /** When each move is taken, judged on the resumed state `r` and the state `t` after measuring. */
  ghost predicate Taken(w: World, s: State, r: State, t: State, m: Move) {
    var row := Latest(r.store.configs, w.lab.modelId);
    var stored := r.Active(w.lab.modelId);
    match m
    case Stay => s.status != Running && t == s
    case Finish => s.status == Running && !GoesOn(w, r.iteration) && t == r
    case Fail => Tuning(w, s, r) && NoPass(w, r, t)
    case ToLocked(config) =>
      s.status == Running && GoesOn(w, r.iteration) && t == r
      && row.Some? && row.value.body.isLocked && stored == Some(config)
    case ToRollback(probe, target) =>
      s.status == Running && GoesOn(w, r.iteration)
      && row.Some? && !row.value.body.isLocked && stored == Some(probe.config)
      && probe == Measure(w.lab, r.calls, probe.config)
      && Sound(probe) && !probe.Viable()
      && t == r.(calls := r.calls + probe.benchmark.samplesAttempted, measured := r.measured + [probe])
      && RollbackTarget(probe, r.history) == Some(target)
    case ToKept(session) =>
      Tuning(w, s, r) && TunedFrom(w, r, t, session) && Settles(w, t, m)
    case ToLimited(session) =>
      Tuning(w, s, r) && TunedFrom(w, r, t, session) && Settles(w, t, m)
    case ToAccepted(session) =>
      Tuning(w, s, r) && TunedFrom(w, r, t, session) && Settles(w, t, m)
  }

  /** A tuning pass is due: the loop goes on, the stored config, if any, is not locked, and no rollback is due. */
  ghost predicate Tuning(w: World, s: State, r: State) {
    var row := Latest(r.store.configs, w.lab.modelId);
    && s.status == Running && GoesOn(w, r.iteration)
    && (row.None? || !row.value.body.isLocked)
    && !RollbackDue(w, r)
  }

  /** The active config fails its probe and history offers another viable one. */
  ghost predicate RollbackDue(w: World, r: State) {
    var stored := r.Active(w.lab.modelId);
    stored.Some? && r.history != []
    && (var probe := Measure(w.lab, r.calls, stored.value);
        NeedsRollback(probe) && RollbackTarget(probe, r.history).Some?)
  }

  /** Which of the three endings of a tuning pass applies. */
  ghost predicate Settles(w: World, t: State, m: Move) {
    match m
    case ToKept(session) => session.outcome == KeptBaseline
    case ToLimited(session) => session.outcome == AcceptedNew && CapReached(w, t)
    case ToAccepted(session) => session.outcome == AcceptedNew && !CapReached(w, t)
    case _ => true
  }

  ghost predicate IsMove(w: World, s: State, t: State, m: Move) {
    var r := if s.status == Running then Resume(w, s) else s;
    && Next(w, s) == Land(w, t, m)
    && OnlyMeasured(w, r, t)
    && Taken(w, s, r, t, m)
  }

  lemma {:induction false} SettleMoves(w: World, t: State, session: Session) returns (m: Move)
    requires session.outcome in {AcceptedNew, KeptBaseline}
    ensures Settle(w, t, session) == Land(w, t, m)
    ensures m.Tunes() && m.session == session && Settles(w, t, m)
  {
    m := if session.outcome == KeptBaseline then ToKept(session)
         else if CapReached(w, t) then ToLimited(session)
         else ToAccepted(session);
  }

  /** A tuning attempt after at most one probe. */
  lemma {:induction false} TuneMoves(w: World, r: State, p: State, stored: Option<Config>) returns (t: State, m: Move)
    requires OnlyMeasured(w, r, p) && p.measured == r.measured + Probed(w, r) && p.calls == PassStart(w, r)
    requires p.scans == r.scans && p.checks == r.checks
    requires stored == r.Active(w.lab.modelId)
    ensures TuneStep(w, p, stored) == Land(w, t, m)
    ensures OnlyMeasured(w, r, t)
    ensures m.Fail? || m.Tunes()
    ensures m.Fail? ==> NoPass(w, r, t)
    ensures m.Tunes() ==> TunedFrom(w, r, t, m.session) && Settles(w, t, m)
  {
    hide TuneFrom, Settle, Land, BaselineOf, FitsPass, TunedFrom, CapReached, Probed, PassStart;
    OneProbe(w, r);
    if w.reachable(p.checks) {
      assert PassBaseline(w, p, stored) == BaselineOf(w, r) by { SameBaseline(w, r, p); }
      var tuned := PassFrom(w, r);
      t := AfterTuning(w, p, stored);
      MeasuredFits(w, r, p.calls, tuned);
      MeasuredGrows(w, r, p, tuned, t);
      SessionTuned(w, r, t, tuned);
      m := SettleMoves(w, t, tuned.session);
    } else {
      t, m := p.(checks := p.checks + 1), Fail;
      LandFail(w, t);
    }
  }

  lemma OneProbe(w: World, r: State)
    ensures |Probed(w, r)| <= 1
  {
  }

  lemma LandFail(w: World, t: State)
    ensures Land(w, t, Fail) == t.(status := RuntimeUnavailable)
  {
  }

  lemma SameBaseline(w: World, r: State, p: State)
    requires p.scans == r.scans
    ensures PassBaseline(w, p, r.Active(w.lab.modelId)) == BaselineOf(w, r)
  {
    hide DefaultBaseline, Latest;
  }

  lemma {:induction false} MeasuredFits(w: World, r: State, at: nat, tuned: Tuned)
    requires tuned == TuneFrom(w.lab, at, BaselineOf(w, r))
    ensures 1 <= |tuned.measured| <= 4
    ensures forall i :: 0 <= i < |tuned.measured| ==> FitsPass(tuned.measured[i], BaselineOf(w, r))
    ensures at <= tuned.calls <= at + |tuned.measured| * |w.lab.prompts|
  {
    hide TuneFrom, BaselineOf, GenerateCandidates, Sound;
    PassMeasurement(w.lab, at, BaselineOf(w, r));
  }

  lemma {:induction false} SessionTuned(w: World, r: State, t: State, tuned: Tuned)
    requires tuned == PassFrom(w, r) && OnePass(w, r, t, tuned.session)
    requires forall c :: c in tuned.measured ==> c in t.measured[|r.measured|..]
    requires forall i :: 0 <= i < |tuned.measured| ==> FitsPass(tuned.measured[i], BaselineOf(w, r))
    ensures TunedFrom(w, r, t, tuned.session)
    ensures tuned.session.outcome in {AcceptedNew, KeptBaseline}
  {
    hide TuneFrom, BaselineOf, GenerateCandidates, Sound, WorthIt, Swept, PassStart, OnePass;
    PassDecision(w.lab, PassStart(w, r), BaselineOf(w, r));
  }

  lemma {:induction false} MeasuredGrows(w: World, r: State, p: State, tuned: Tuned, t: State)
    requires OnlyMeasured(w, r, p) && |p.measured| <= |r.measured| + 1
    requires t == p.(checks := t.checks, scans := t.scans, calls := tuned.calls, measured := p.measured + tuned.measured)
    requires 1 <= |tuned.measured| <= 4
    requires forall i :: 0 <= i < |tuned.measured| ==> FitsPass(tuned.measured[i], BaselineOf(w, r))
    requires p.calls <= tuned.calls <= p.calls + |tuned.measured| * |w.lab.prompts|
    ensures OnlyMeasured(w, r, t)
    ensures forall c :: c in tuned.measured ==> c in t.measured[|r.measured|..]
  {
    hide FitsPass, BaselineOf;
    var n := |w.lab.prompts|;
    assert (|t.measured| - |r.measured|) * n == (|p.measured| - |r.measured|) * n + |tuned.measured| * n;
    forall c | c in tuned.measured ensures c in t.measured[|r.measured|..] {
      var i :| 0 <= i < |tuned.measured| && tuned.measured[i] == c;
      assert t.measured[|r.measured|..][|p.measured| - |r.measured| + i] == c;
    }
  }

  /** Every resumption is a move. */
  lemma {:induction false} NextMoves(w: World, s: State) returns (t: State, m: Move)
    ensures IsMove(w, s, t, m)
  {
    hide TuneStep, Measure, Resume, RollbackStep, LockedStep, Sound, GenerateCandidates,
         RollbackTarget, TunedFrom, CapReached, Latest, Probed, PassStart;
    if s.status != Running {
      return s, Stay;
    }
    var r := Resume(w, s);
    if !GoesOn(w, r.iteration) {
      return r, Finish;
    }
    var row := Latest(r.store.configs, w.lab.modelId);
    if row.Some? && row.value.body.isLocked {
      return r, ToLocked(row.value.body.config);
    }
    if row.None? || r.history == [] {
      Unprobed(w, r);
      t, m := TuneMoves(w, r, r, r.Active(w.lab.modelId));
      return;
    }
    var probe := Measure(w.lab, r.calls, row.value.body.config);
    MeasureIsSound(w.lab, r.calls, row.value.body.config);
    var p := AfterProbe(r, probe);
    assert OnlyMeasured(w, r, p);
    ProbedOnce(w, r, row.value.body.config);
    var target := RollbackTarget(probe, r.history);
    if NeedsRollback(probe) && target.Some? {
      assert !probe.Viable();
      return p, ToRollback(probe, target.value);
    }
    t, m := TuneMoves(w, r, p, r.Active(w.lab.modelId));
  }

  lemma Unprobed(w: World, r: State)
    requires r.Active(w.lab.modelId).None? || r.history == []
    ensures Probed(w, r) == [] && PassStart(w, r) == r.calls && r.measured == r.measured + Probed(w, r)
  {
  }

  lemma ProbedOnce(w: World, r: State, config: Config)
    requires r.Active(w.lab.modelId) == Some(config) && r.history != []
    ensures var probe := Measure(w.lab, r.calls, config);
      Probed(w, r) == [probe] && PassStart(w, r) == r.calls + probe.benchmark.samplesAttempted
  {
    hide Measure;
    var probe := Measure(w.lab, r.calls, config);
    OneMore([], probe);
    assert [] + [probe] == [probe];
  }

  function Resumed(w: World, s: State): State {
    if s.status == Running then Resume(w, s) else s
  }

  /** Coming back from a yield touches the store, the iteration count and the sleeps, nothing else. */
  lemma {:induction false} ResumedFrame(w: World, s: State)
    ensures var r := Resumed(w, s);
      r == s.(store := r.store, iteration := r.iteration, sleeps := r.sleeps)
  {
  }

  /** The clock position at which a move records its change. */
  function ChangeTick(w: World, t: State, m: Move): nat {
    if m.ToAccepted? then AfterRateCheck(w, t).ticks else t.ticks
  }

  function KindOf(m: Move): ChangeKind {
    if m.ToAccepted? then Acceptance else Reversion
  }

  function FromOf(m: Move): Config
    requires m.Changes()
  {
    match m case ToAccepted(session) => session.baseline.config case ToRollback(probe, _) => probe.config
  }

  function ToOf(m: Move): Config
    requires m.Changes()
  {
    match m case ToAccepted(session) => session.winner.config case ToRollback(_, target) => target
  }

  /** The bookkeeping of changes: one record and one timestamp per change of the active config, otherwise none. */
  lemma {:induction false} ChangeEffects(w: World, s: State, t: State, m: Move)
    requires IsMove(w, s, t, m)
    ensures var n := Next(w, s);
      && t.ticks == s.ticks && t.adjustmentTimestamps == s.adjustmentTimestamps && t.changes == s.changes
      && s.ticks <= ChangeTick(w, t, m) <= n.ticks
      && (if m.Changes() then
            && n.changes == s.changes + [Change(KindOf(m), w.clock(ChangeTick(w, t, m)), FromOf(m), ToOf(m), |n.measured|)]
            && n.adjustmentTimestamps == s.adjustmentTimestamps + [w.clock(ChangeTick(w, t, m))]
            && n.ticks == ChangeTick(w, t, m) + 1
          else n.changes == s.changes && n.adjustmentTimestamps == s.adjustmentTimestamps)
  {
    ResumedFrame(w, s);
    hide Next, Resume, Taken;
  }

  /** A config is only accepted below the cap. */
  lemma {:induction false} AcceptedBelowCap(w: World, s: State, t: State, m: Move)
    requires IsMove(w, s, t, m) && m.ToAccepted?
    ensures !CapReached(w, t)
  {
    hide Next, Resume, OnlyMeasured, TunedFrom, CapReached;
  }

  predicate Logs(m: Move) {
    m.ToLocked? || m.ToRollback? || m.ToLimited? || m.ToAccepted?
  }

  function EntryOf(m: Move): Details
    requires Logs(m)
  {
    match m
    case ToLocked(config) => Details.Lock(config)
    case ToRollback(probe, target) => Details.Rollback(probe.config, target)
    case ToLimited(session) => Details.RateLimit(session.winner.config)
    case ToAccepted(session) => Details.Adjust(session.winner.config)
  }

  /** The audit trail: at most one entry per move, lost when its write raises. */
  lemma {:induction false} EventEffects(w: World, s: State, t: State, m: Move)
    requires IsMove(w, s, t, m)
    ensures var r, n := Resumed(w, s), Next(w, s);
      && n.audits == s.audits + (if Logs(m) then 1 else 0)
      && n.store.events == (if Logs(m) && !w.auditRaises(s.audits)
                            then Insert(r.store.events, w.lab.modelId, EntryOf(m))
                            else r.store.events)
  {
    ResumedFrame(w, s);
    hide Next, Resume, Taken, Insert, FitsPass;
  }
}
