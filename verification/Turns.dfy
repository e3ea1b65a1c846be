/** One turn of the loop on a model that is not locked, in terms of the tapes it reads and the session it yields. */
module TurnProperties {
  import opened Domain
  import opened Tables
  import opened ConfigBuilder
  import opened Evaluator
  import opened RollbackPolicy
  import opened TuningPass
  import opened DecisionProperties
  import opened Autopilot
  import opened AutopilotMoves
  import opened SessionProperties

  /** The loop goes on and finds the model without a config, or with one that is not locked. */
  ghost predicate TakesTurn(w: World, s: State) {
    var row := Latest(Resume(w, s).store.configs, w.lab.modelId);
    s.status == Running && GoesOn(w, Resume(w, s).iteration) && (row.None? || !row.value.body.isLocked)
  }

  /** The probe of the stored config, taken only when there is a history to fall back on. */
  function ProbeAt(w: World, s: State, stored: Option<Config>): seq<Candidate> {
    if stored.None? || |s.history| == 0 then [] else [Measure(w.lab, s.calls, stored.value)]
  }

  /** What a pass starts from: the stored config, else the empty one without a spec, else the tier for the hardware. */
  function FirstConfig(w: World, s: State, stored: Option<Config>): Config {
    if stored.Some? then stored.value
    else if w.modelSpec.None? then map[]
    else BuildRunConfig(w.modelSpec.value, w.hardware(s.scans))
  }

  /** The probe fails and history knows another config that works. */
  ghost predicate MustRollBack(s: State, probe: seq<Candidate>) {
    && probe != [] && !Usable(probe[0].benchmark)
    && exists i :: 0 <= i < |s.history| && Usable(s.history[i].benchmark) && s.history[i].config != probe[0].config
  }

  /** The session of a pass as it is yielded: as decided, unless the cap turns an acceptance into its baseline. */
  function Yielded(decided: Session, capped: bool): Session {
    if decided.outcome == AcceptedNew && capped
    then Session(decided.modelId, decided.baseline, decided.candidates, decided.baseline, Outcome.RateLimited)
    else decided
  }

  /** The turn from `s` to `n` is the probe, if any, and a rollback. */
  ghost predicate RolledBackTurn(w: World, s: State, n: State, probe: seq<Candidate>) {
    && n.calls == s.calls + Spent(probe) && n.measured == s.measured + probe
    && n.checks == s.checks && n.scans == s.scans
    && n.status == Running && |n.sessions| == |s.sessions| + 1
    && n.sessions[|s.sessions|].outcome == RolledBack
  }

  /** The turn is the probe, if any, and an attempt on a runtime that is not reachable. */
  ghost predicate FailedTurn(w: World, s: State, n: State, probe: seq<Candidate>) {
    && n.calls == s.calls + Spent(probe) && n.measured == s.measured + probe
    && n.checks == s.checks + 1 && n.scans == s.scans
    && n.status == RuntimeUnavailable && n.sessions == s.sessions
  }

  /** The turn is the probe, if any, and this tuning pass right after it. */
  ghost predicate TunedTurn(w: World, s: State, n: State, probe: seq<Candidate>, stored: Option<Config>, pass: Tuned) {
    && n.calls == pass.calls && n.measured == s.measured + probe + pass.measured
    && 1 <= |pass.measured| <= 4
    && n.checks == s.checks + 1
    && n.scans == s.scans + (if stored.None? && w.modelSpec.Some? then 1 else 0)
    && n.status == Running
    && n.sessions == s.sessions + [Yielded(pass.session, CapReached(w, s))]
    && n.history == s.history + [Yielded(pass.session, CapReached(w, s)).winner]
  }

  lemma SameTurn(w: World, s: State)
    requires s.status == Running
    ensures var r := Resumed(w, s); var stored := r.Active(w.lab.modelId);
      && r == Resume(w, s) && r.history == s.history && r.calls == s.calls && r.checks == s.checks
      && r.scans == s.scans && r.measured == s.measured
      && Probed(w, r) == ProbeAt(w, s, stored)
      && PassStart(w, r) == s.calls + Spent(ProbeAt(w, s, stored))
      && BaselineOf(w, r) == FirstConfig(w, s, stored)
  {
    ResumedFrame(w, s);
    hide Resume, Measure, Spent, BuildRunConfig, Latest;
  }

  /** No move but the pass itself reads the measurement tapes. */
  lemma {:induction false} TapeEffects(w: World, s: State, t: State, m: Move)
    requires IsMove(w, s, t, m)
    ensures var n := Next(w, s);
      n.checks == t.checks && n.scans == t.scans && n.calls == t.calls && n.measured == t.measured
  {
    hide Next, Resume, Taken, OnlyMeasured, CapReached;
  }

  lemma UsableIsViable()
    ensures forall c: Candidate :: Usable(c.benchmark) <==> c.Viable()
  {
  }

  /** A rollback is due exactly when the probe fails and history knows another config that works. */
  lemma {:induction false} DueExactly(w: World, s: State)
    requires s.status == Running
    ensures var r := Resumed(w, s);
      RollbackDue(w, r) <==> MustRollBack(s, ProbeAt(w, s, r.Active(w.lab.modelId)))
  {
    hide Resume, Measure, Latest, Usable;
    UsableIsViable();
    SameTurn(w, s);
    var stored := Resumed(w, s).Active(w.lab.modelId);
    if stored.Some? {
      MeasureIsSound(w.lab, s.calls, stored.value);
      var i := TargetIsNewestOther(Measure(w.lab, s.calls, stored.value), s.history);
    }
  }

  lemma {:induction false} RollbackTurn(w: World, s: State, t: State, m: Move)
    requires IsMove(w, s, t, m) && m.ToRollback?
    ensures s.status == Running && RollbackDue(w, Resumed(w, s))
    ensures RolledBackTurn(w, s, Next(w, s), ProbeAt(w, s, Resumed(w, s).Active(w.lab.modelId)))
  {
    SessionEffects(w, s, t, m);
    TapeEffects(w, s, t, m);
    OnlyRollback(w, s, t, m);
    SameTurn(w, s);
  }

  lemma {:induction false} OnlyRollback(w: World, s: State, t: State, m: Move)
    requires IsMove(w, s, t, m) && m.ToRollback?
    ensures var r := Resumed(w, s);
      && s.status == Running && RollbackDue(w, r)
      && t.checks == r.checks && t.scans == r.scans
      && t.measured == r.measured + Probed(w, r) && t.calls == PassStart(w, r)
  {
    hide Next, Resume, Measure, Latest, RollbackTarget;
    RollbackNeedsHistory(m.probe, Resumed(w, s).history);
    ProbedOnce(w, Resumed(w, s), m.probe.config);
  }

  lemma RollbackNeedsHistory(probe: Candidate, history: seq<Candidate>)
    ensures RollbackTarget(probe, history).Some? ==> history != []
  {
  }

  /**
   * A turn in full. The stored config is probed only when there is history, and rolled back exactly when the probe
   * fails and history knows another config that works. Otherwise the adapter is asked for once, and the session is what
   * one pass decides that starts with the very next adapter call, from the stored config or the default.
   */
  lemma {:induction false} TurnExactly(w: World, s: State)
    requires TakesTurn(w, s)
    ensures var n, stored := Next(w, s), Resume(w, s).Active(w.lab.modelId);
      var probe := ProbeAt(w, s, stored);
      if MustRollBack(s, probe) then RolledBackTurn(w, s, n, probe)
      else if !w.reachable(s.checks) then FailedTurn(w, s, n, probe)
      else TunedTurn(w, s, n, probe, stored, TuneFrom(w.lab, s.calls + Spent(probe), FirstConfig(w, s, stored)))
  {
    hide Next, IsMove, Resume, Resumed, TakesTurn, TuneFrom, RolledBackTurn, FailedTurn, TunedTurn, MustRollBack,
         RollbackDue, ProbeAt, FirstConfig, Latest, Spent;
    assert s.status == Running by { OnlyRunning(w, s); }
    var t, m := NextMoves(w, s);
    SameTurn(w, s);
    DueExactly(w, s);
    TurnMoves(w, s, t, m);
    if m.ToRollback? {
      RollbackTurn(w, s, t, m);
    } else if m.Fail? {
      FailTurn(w, s, t, m);
    } else {
      TuneTurn(w, s, t, m);
    }
  }

  lemma OnlyRunning(w: World, s: State)
    requires TakesTurn(w, s)
    ensures s.status == Running
  {
  }

  lemma {:induction false} TurnMoves(w: World, s: State, t: State, m: Move)
    requires IsMove(w, s, t, m) && TakesTurn(w, s)
    ensures m.ToRollback? || m.Fail? || m.Tunes()
  {
    hide Next, Resume, OnlyMeasured, TunedFrom, CapReached, Land, RollbackDue, NoPass;
  }

  lemma {:induction false} FailTurn(w: World, s: State, t: State, m: Move)
    requires IsMove(w, s, t, m) && m.Fail? && s.status == Running
    ensures !RollbackDue(w, Resumed(w, s)) && !w.reachable(s.checks)
    ensures FailedTurn(w, s, Next(w, s), ProbeAt(w, s, Resumed(w, s).Active(w.lab.modelId)))
  {
    hide Next, IsMove, Resume, Latest, Probed, PassStart, ProbeAt, Spent, RollbackDue, Resumed, BaselineOf, FirstConfig;
    SessionEffects(w, s, t, m);
    TapeEffects(w, s, t, m);
    SameTurn(w, s);
    NoPassOfMove(w, s, t, m);
  }

  lemma {:induction false} NoPassOfMove(w: World, s: State, t: State, m: Move)
    requires IsMove(w, s, t, m) && m.Fail?
    ensures !RollbackDue(w, Resumed(w, s)) && NoPass(w, Resumed(w, s), t)
  {
    hide Next, Resume, OnlyMeasured, Land, RollbackDue, Latest, NoPass;
  }

  lemma {:induction false} TuneTurn(w: World, s: State, t: State, m: Move)
    requires IsMove(w, s, t, m) && m.Tunes() && s.status == Running
    ensures !RollbackDue(w, Resumed(w, s)) && w.reachable(s.checks)
    ensures var stored := Resumed(w, s).Active(w.lab.modelId);
      var probe := ProbeAt(w, s, stored);
      TunedTurn(w, s, Next(w, s), probe, stored,
        TuneFrom(w.lab, s.calls + Spent(probe), FirstConfig(w, s, stored)))
  {
    hide Next, IsMove, Resume, Land, RollbackDue, Latest, Probed, PassStart, ProbeAt, Spent, FirstConfig, BaselineOf,
         TuneFrom, CapReached, Yielded, SessionOf;
    SessionEffects(w, s, t, m);
    TapeEffects(w, s, t, m);
    SameTurn(w, s);
    PassMeasurement(w.lab, PassStart(w, Resumed(w, s)), BaselineOf(w, Resumed(w, s)));
    ChangeEffects(w, s, t, m);
    SameCap(w, s, t);
    PassOfMove(w, s, t, m);
  }

  lemma {:induction false} PassOfMove(w: World, s: State, t: State, m: Move)
    requires IsMove(w, s, t, m) && m.Tunes()
    ensures !RollbackDue(w, Resumed(w, s)) && OnePass(w, Resumed(w, s), t, m.session)
    ensures SessionOf(w, s, m) == Yielded(m.session, CapReached(w, t))
    ensures SessionOf(w, s, m).winner == match m case ToLimited(x) => x.baseline case _ => m.session.winner
  {
    hide Next, Resume, OnlyMeasured, Land, RollbackDue, OnePass, CapReached, BaselineOf;
  }
}
