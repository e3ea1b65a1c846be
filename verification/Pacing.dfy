/** How many sessions, sleeps and adapter calls a run has, and that it ends. */
module Pacing {
  import opened Domain
  import opened Tables
  import opened StorageInterface
  import opened TuningPass
  import opened Autopilot
  import opened AutopilotMoves
  import opened SessionProperties
  import opened LockSafety

  function Minus1(n: nat): nat {
    if n == 0 then 0 else n - 1
  }

  ghost predicate EndsLocked(s: State) {
    s.sessions != [] && s.sessions[|s.sessions| - 1].outcome == Locked
  }

  /** Sessions, sleeps and iterations in step with each other, by the way the generator stands. */
  ghost predicate Paced(w: World, s: State) {
    && (forall i :: 0 <= i < |s.sleeps| ==> s.sleeps[i] == w.intervalSeconds)
    && (w.maxIterations.Some? && s.sessions != [] ==> |s.sessions| <= w.maxIterations.value)
    && match s.status
       case Running => s.iteration == Minus1(|s.sessions|) && |s.sleeps| == Minus1(|s.sessions|) && !EndsLocked(s)
       case RuntimeUnavailable => |s.sleeps| == |s.sessions| && !EndsLocked(s)
       case Returned =>
         && |s.sleeps| == Minus1(|s.sessions|)
         && (EndsLocked(s)
             || (w.maxIterations.Some? && |s.sessions| == if w.maxIterations.value < 0 then 0 else w.maxIterations.value))
  }

  lemma {:induction false} PacedByNext(w: World, s: State)
    requires Paced(w, s)
    ensures Paced(w, Next(w, s))
  {
    hide Next, IsMove;
    var t, m := NextMoves(w, s);
    SessionEffects(w, s, t, m);
    IterationEffects(w, s, t, m);
    SleepEffects(w, s);
    NotLocked(w, s, t, m);
    GoingOn(w, s, t, m);
  }

  lemma SleepEffects(w: World, s: State)
    ensures var r := Resumed(w, s);
      r.sleeps == if s.status == Running && s.sessions != [] && GoesOn(w, s.iteration + 1)
                  then s.sleeps + [w.intervalSeconds] else s.sleeps
  {
  }

  /** Only a generator with iterations left moves on; one that finishes has none. */
  lemma {:induction false} GoingOn(w: World, s: State, t: State, m: Move)
    requires IsMove(w, s, t, m)
    ensures m.Yields() || m.Fail? ==> GoesOn(w, Resumed(w, s).iteration)
    ensures m.Finish? ==> !GoesOn(w, Resumed(w, s).iteration)
  {
    hide Next, Resume, OnlyMeasured, TunedFrom, CapReached;
  }

  /**
   * At every yield the loop has slept once less than it has yielded; an ended one keeps that unless the runtime was
   * lost.
   */
  lemma {:induction false} PacedByRun(w: World, store: Store, history: seq<Candidate>, n: nat)
    ensures Paced(w, Run(w, Start(w, store, history), n))
  {
    if n != 0 {
      PacedByRun(w, store, history, n - 1);
      PacedByNext(w, Run(w, Start(w, store, history), n - 1));
    }
  }

  ghost predicate AlwaysReachable(w: World) {
    forall i: nat :: w.reachable(i)
  }

  /** While the runtime stays reachable, each next() yields one session until the iterations or a lock end the run. */
  ghost predicate OneEach(w: World, s: State, n: nat) {
    match s.status
    case Running => |s.sessions| == n
    case RuntimeUnavailable => false
    case Returned => |s.sessions| <= n
  }

  lemma {:induction false} OneEachByRun(w: World, store: Store, history: seq<Candidate>, n: nat)
    requires AlwaysReachable(w)
    ensures OneEach(w, Run(w, Start(w, store, history), n), n)
  {
    hide Next, IsMove;
    if n != 0 {
      OneEachByRun(w, store, history, n - 1);
      var s := Run(w, Start(w, store, history), n - 1);
      var t, m := NextMoves(w, s);
      SessionEffects(w, s, t, m);
      NeverFails(w, s, t, m);
    }
  }

  lemma {:induction false} NeverFails(w: World, s: State, t: State, m: Move)
    requires AlwaysReachable(w) && IsMove(w, s, t, m)
    ensures !m.Fail? && (s.status == Running ==> !m.Stay?)
  {
    hide Next, Resume, OnlyMeasured, TunedFrom, CapReached, Land;
  }

  function Limit(w: World): nat
    requires w.maxIterations.Some?
  {
    if w.maxIterations.value < 0 then 0 else w.maxIterations.value
  }

  /**
   * With a limit of N and a reachable runtime: N sessions, or fewer with a LOCKED one last; one more next() and it
   * has ended.
   */
  lemma {:induction false} ExactlyN(w: World, store: Store, history: seq<Candidate>, n: nat)
    requires AlwaysReachable(w) && w.maxIterations.Some?
    ensures var s := Run(w, Start(w, store, history), n);
      && (EndsLocked(s) || |s.sessions| == if Limit(w) < n then Limit(w) else n)
      && (Limit(w) < n ==> s.status == Returned)
      && |s.sleeps| == Minus1(|s.sessions|)
  {
    OneEachByRun(w, store, history, n);
    PacedByRun(w, store, history, n);
    hide Run;
  }

  /** Work per session: at most five benchmarks, each of at most one call per prompt. */
  ghost predicate Bounded(w: World, s: State) {
    && |s.measured| <= 5 * (|s.sessions| + if s.status == RuntimeUnavailable then 1 else 0)
    && s.calls <= w.origin.calls + |s.measured| * |w.lab.prompts|
  }

  lemma {:induction false} BoundedByNext(w: World, s: State)
    requires Bounded(w, s)
    ensures Bounded(w, Next(w, s))
  {
    hide Next, IsMove;
    var t, m := NextMoves(w, s);
    SessionEffects(w, s, t, m);
    MeasureEffects(w, s, t, m);
    NotLocked(w, s, t, m);
    var k := |Next(w, s).measured| - |s.measured|;
    assert |Next(w, s).measured| * |w.lab.prompts| == |s.measured| * |w.lab.prompts| + k * |w.lab.prompts|;
  }

  /** What a move adds to the measurements: fits of this pass, at most five, none for a move that does not go on. */
  lemma {:induction false} MeasureEffects(w: World, s: State, t: State, m: Move)
    requires IsMove(w, s, t, m)
    ensures var n := Next(w, s);
      && n.measured == t.measured && n.calls == t.calls
      && s.measured <= n.measured
      && |n.measured| <= |s.measured| + 5
      && s.calls <= n.calls <= s.calls + (|n.measured| - |s.measured|) * |w.lab.prompts|
      && (m.Stay? || m.Finish? ==> n.measured == s.measured && n.calls == s.calls)
  {
    ResumedFrame(w, s);
    hide Next, Resume, TunedFrom, CapReached, FitsPass, Latest;
  }

  lemma {:induction false} BoundedByRun(w: World, store: Store, history: seq<Candidate>, n: nat)
    ensures Bounded(w, Run(w, Start(w, store, history), n))
  {
    hide Next;
    if n != 0 {
      BoundedByRun(w, store, history, n - 1);
      BoundedByNext(w, Run(w, Start(w, store, history), n - 1));
    }
  }

  /** At most five benchmarks per session asked for: 5 * |prompts| adapter calls each. */
  lemma {:induction false} CallsPerSession(w: World, store: Store, history: seq<Candidate>, n: nat)
    ensures var s := Run(w, Start(w, store, history), n);
      s.status != RuntimeUnavailable ==> s.calls - w.origin.calls <= |s.sessions| * (5 * |w.lab.prompts|)
  {
    BoundedByRun(w, store, history, n);
    var s := Run(w, Start(w, store, history), n);
    hide Run;
    if s.status != RuntimeUnavailable {
      var k := 5 * |s.sessions| - |s.measured|;
      assert 5 * |s.sessions| * |w.lab.prompts| == |s.measured| * |w.lab.prompts| + k * |w.lab.prompts|;
    }
  }
}
