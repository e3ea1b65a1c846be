/** What a yielded session says about the store, and when each outcome is reported. */
module SessionProperties {
  import opened Domain
  import opened Tables
  import opened StorageInterface
  import opened RollbackPolicy
  import opened TuningPass
  import opened DecisionProperties
  import opened Autopilot
  import opened AutopilotMoves

  /** The store of configs after a change: one fresh unlocked row. */
  function WithSaved(w: World, configs: seq<TunedConfig>, config: Config): seq<TunedConfig> {
    Insert(configs, w.lab.modelId, Tuning(config, false))
  }

  /** The store after each move: the resumed one, except that a change of config adds its one row. */
  lemma {:induction false} ConfigEffects(w: World, s: State, t: State, m: Move)
    requires IsMove(w, s, t, m)
    ensures var r, n := Resumed(w, s), Next(w, s);
      && t.store == r.store
      && n.store.runs == r.store.runs
      && n.store.configs == if m.Changes() then WithSaved(w, r.store.configs, ToOf(m)) else r.store.configs
  {
    hide Next, Resume, Taken, Insert, FitsPass, BaselineOf;
  }

  /** The session each move yields. */
  function SessionOf(w: World, s: State, m: Move): Session
    requires m.Yields()
  {
    match m
    case ToLocked(config) => Session(w.lab.modelId, Placeholder(config), [], Placeholder(config), Locked)
    case ToRollback(probe, target) =>
      Session(w.lab.modelId, probe, s.history, Candidate(target, probe.benchmark), RolledBack)
    case ToKept(session) => session
    case ToLimited(session) => session.(winner := session.baseline, outcome := Outcome.RateLimited)
    case ToAccepted(session) => session
  }

  /** Sessions and history after each move. */
  lemma {:induction false} SessionEffects(w: World, s: State, t: State, m: Move)
    requires IsMove(w, s, t, m)
    ensures var n := Next(w, s);
      && n.sessions == (if m.Yields() then s.sessions + [SessionOf(w, s, m)] else s.sessions)
      && n.history == (match m
                       case ToKept(session) => s.history + [session.winner]
                       case ToLimited(session) => s.history + [session.baseline]
                       case ToAccepted(session) => s.history + [session.winner]
                       case _ => s.history)
      && (s.status == Running ==>
            n.status == (match m
                         case Finish => Returned
                         case Fail => RuntimeUnavailable
                         case ToLocked(_) => Returned
                         case _ => Running))
      && (s.status != Running ==> n == s)
  {
    ResumedFrame(w, s);
    hide Next, Resume, TunedFrom, CapReached, FitsPass, BaselineOf, Latest, RollbackTarget;
  }

  ghost predicate SomethingWorthIt(x: Session) {
    exists i :: 0 <= i < |x.candidates| && WorthIt(x.candidates[i], x.baseline)
  }

  /**
   * At a yield with a stored config, that config is the session's winner. Only an accepted config or a rollback
   * writes a config, exactly one unlocked row, and never the config that was already active.
   */
  lemma {:induction false} SessionMatchesStore(w: World, s: State)
    ensures var r, n := Resumed(w, s), Next(w, s);
      |s.sessions| < |n.sessions| ==>
      var x := n.sessions[|n.sessions| - 1];
      && n.sessions == s.sessions + [x]
      && (n.Active(w.lab.modelId).Some? ==> n.Active(w.lab.modelId) == Some(x.winner.config))
      && (x.outcome in {KeptBaseline, Outcome.RateLimited, Locked} ==> n.store.configs == r.store.configs)
      && (x.outcome in {AcceptedNew, RolledBack} ==>
            && n.store.configs == WithSaved(w, r.store.configs, x.winner.config)
            && r.Active(w.lab.modelId) != Some(x.winner.config))
  {
    hide Next, Resume, IsMove, Latest, Insert;
    var t, m := NextMoves(w, s);
    SessionEffects(w, s, t, m);
    ConfigEffects(w, s, t, m);
    if m.Yields() {
      ChosenConfig(w, s, t, m);
    }
    if m.Changes() {
      LatestAfterInsert(Resumed(w, s).store.configs, w.lab.modelId, Tuning(ToOf(m), false), w.lab.modelId);
    }
  }

  /** How the winner of each move relates to the config that was active when the generator resumed. */
  lemma {:induction false} ChosenConfig(w: World, s: State, t: State, m: Move)
    requires IsMove(w, s, t, m) && m.Yields()
    ensures var active := Resumed(w, s).Active(w.lab.modelId); var x := SessionOf(w, s, m);
      && (m.Changes() ==> active != Some(ToOf(m)) && x.winner.config == ToOf(m) && x.outcome in {AcceptedNew, RolledBack})
      && (m.Changes() && active.Some? ==> active == Some(FromOf(m)))
      && (!m.Changes() && active.Some? ==> active == Some(x.winner.config))
      && (!m.Changes() ==> x.outcome in {KeptBaseline, Outcome.RateLimited, Locked})
  {
    ResumedFrame(w, s);
    hide Next, Resume, OnlyMeasured, Latest, CapReached;
    if m.ToRollback? {
      var i := TargetIsNewestOther(m.probe, Resumed(w, s).history);
    }
  }

  /**
   * When a tuning pass yields: the outcome depends only on whether some candidate was worth it and whether the cap was
   * reached, and a rate-limited pass, even one whose baseline fails, stays on its baseline.
   */
  lemma {:induction false} TuningOutcomeExactly(w: World, s: State)
    ensures var n := Next(w, s);
      |s.sessions| < |n.sessions| && n.sessions[|n.sessions| - 1].outcome !in {Locked, RolledBack} ==>
      var x := n.sessions[|n.sessions| - 1];
      && (x.outcome == AcceptedNew <==> SomethingWorthIt(x) && !CapReached(w, s))
      && (x.outcome == Outcome.RateLimited <==> SomethingWorthIt(x) && CapReached(w, s))
      && (x.outcome == KeptBaseline <==> !SomethingWorthIt(x))
      && (x.winner.Viable() <==>
            if x.outcome == Outcome.RateLimited then x.baseline.Viable()
            else x.baseline.Viable() || exists i :: 0 <= i < |x.candidates| && x.candidates[i].Viable())
  {
    hide Next, Resume, CapReached, Latest, Land;
    var t, m := NextMoves(w, s);
    SessionEffects(w, s, t, m);
    ResumedFrame(w, s);
    SameCap(w, s, t);
  }

  lemma SameCap(w: World, s: State, t: State)
    requires t.ticks == s.ticks && t.adjustmentTimestamps == s.adjustmentTimestamps
    ensures CapReached(w, t) <==> CapReached(w, s)
  {
  }
}
