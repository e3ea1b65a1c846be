/** Locks between passes, and models the run is not about. */
module LockSafety {
  import opened Domain
  import opened Tables
  import opened StorageInterface
  import opened TuningPass
  import opened Autopilot
  import opened AutopilotMoves
  import opened SessionProperties

  /** The generator finds its model locked: one LOCKED session, no measurement, no write to the configs, and it ends. */
  lemma {:induction false} LockedStopsRun(w: World, s: State)
    requires s.status == Running && GoesOn(w, Resume(w, s).iteration)
    requires var row := Latest(Resume(w, s).store.configs, w.lab.modelId); row.Some? && row.value.body.isLocked
    ensures var r, n := Resume(w, s), Next(w, s);
      var config := r.Active(w.lab.modelId).value;
      var unmeasured := Candidate(config, Benchmark(config, None, None, None, false, None, 0, 0));
      && n.sessions == s.sessions + [Session(w.lab.modelId, unmeasured, [], unmeasured, Locked)]
      && n.calls == s.calls && n.checks == s.checks && n.measured == s.measured
      && n.store.configs == r.store.configs
      && n.status == Returned
  {
    hide Next, TunedFrom, Resume, Latest, Land;
    var t, m := NextMoves(w, s);
    SessionEffects(w, s, t, m);
    ConfigEffects(w, s, t, m);
    ResumedFrame(w, s);
    LockedFrame(w, s, t, m);
  }

  lemma {:induction false} LockedFrame(w: World, s: State, t: State, m: Move)
    requires IsMove(w, s, t, m) && m.ToLocked?
    ensures var n := Next(w, s); n.calls == s.calls && n.checks == s.checks && n.measured == s.measured
  {
    ResumedFrame(w, s);
    hide Next, Resume, Latest;
  }

  /** An ended generator never does anything again. */
  lemma {:induction false} EndedStays(w: World, s: State, n: nat)
    requires s.status != Running
    ensures Run(w, s, n) == s
  {
    if n != 0 {
      EndedStays(w, s, n - 1);
    }
  }

  lemma {:induction false} AfterAllSplit(store: Store, first: seq<Request>, second: seq<Request>)
    ensures AfterAll(store, first + second) == AfterAll(AfterAll(store, first), second)
  {
    hide After;
    if second == [] {
      assert first + second == first;
    } else {
      var n := |second| - 1;
      AfterAllSplit(store, first, second[..n]);
      assert (first + second)[..|first| + n] == first + second[..n] && (first + second)[|first| + n] == second[n];
    }
  }

  /** Whether the model's current row is locked; None when it has no row. */
  function LockOf(store: Store, modelId: string): Option<bool> {
    match Latest(store.configs, modelId) case None => None case Some(row) => Some(row.body.isLocked)
  }

  /**
   * What requests make of a model's lock: its own saves decide it afresh, a lock closes it if there is a row, nothing
   * else counts.
   */
  function LockedAfter(was: Option<bool>, requests: seq<Request>, modelId: string): Option<bool> {
    if requests == [] then was
    else
      var before := LockedAfter(was, requests[..|requests| - 1], modelId);
      match requests[|requests| - 1]
      case SaveTunedConfig(m, tuning) => if m == modelId then Some(tuning.isLocked) else before
      case LockConfig(m) => if m == modelId && before.Some? then Some(true) else before
      case _ => before
  }

  lemma {:induction false} LockFollowsRequests(store: Store, requests: seq<Request>, modelId: string)
    ensures LockOf(AfterAll(store, requests), modelId) == LockedAfter(LockOf(store, modelId), requests, modelId)
  {
    hide Latest, Insert, LockLatest;
    if requests != [] {
      var n := |requests| - 1;
      var before := AfterAll(store, requests[..n]);
      LockFollowsRequests(store, requests[..n], modelId);
      match requests[n]
      case SaveTunedConfig(m, tuning) => LatestAfterInsert(before.configs, m, tuning, modelId);
      case LockConfig(m) => LatestAfterLock(before.configs, m, modelId);
      case _ =>
    }
  }

  /** The resumption from s yields LOCKED. */
  ghost predicate StopsLocked(w: World, s: State) {
    var n := Next(w, s);
    |n.sessions| == |s.sessions| + 1 && n.sessions[|s.sessions|].outcome == Locked
  }

  /**
   * Whatever others do while the generator is suspended, the next resumption yields LOCKED exactly when their requests
   * leave the model's current row locked.
   */
  lemma {:induction false} LockedExactly(w: World, s: State)
    requires s.status == Running && s.sessions != [] && GoesOn(w, s.iteration + 1)
    ensures StopsLocked(w, s)
            <==> LockedAfter(LockOf(s.store, w.lab.modelId), w.outside(|s.sessions| - 1), w.lab.modelId) == Some(true)
  {
    hide Next, IsMove, Latest, SessionOf;
    LockFollowsRequests(s.store, w.outside(|s.sessions| - 1), w.lab.modelId);
    var t, m := NextMoves(w, s);
    SessionEffects(w, s, t, m);
    NotLocked(w, s, t, m);
    if m.ToLocked? {
      LockedMove(w, s, t, m);
    }
    if LockOf(Resume(w, s).store, w.lab.modelId) == Some(true) {
      LockedStopsRun(w, s);
      LockedOutcome(w, s, Resume(w, s).Active(w.lab.modelId).value);
    }
  }

  lemma LockedOutcome(w: World, s: State, config: Config)
    ensures SessionOf(w, s, ToLocked(config)).outcome == Locked
  {
  }

  lemma {:induction false} LockedMove(w: World, s: State, t: State, m: Move)
    requires IsMove(w, s, t, m) && m.ToLocked?
    ensures LockOf(Resumed(w, s).store, w.lab.modelId) == Some(true)
  {
    hide Next, Resume, OnlyMeasured, Latest;
  }

  /** No save of this model among them. */
  ghost predicate NoSaveOf(requests: seq<Request>, modelId: string) {
    forall i :: 0 <= i < |requests| && requests[i].SaveTunedConfig? ==> requests[i].modelId != modelId
  }

  /** Once locked, a model's row stays as it is until the model is saved again. */
  lemma {:induction false} LockLasts(store: Store, requests: seq<Request>, modelId: string, config: Config)
    requires NoSaveOf(requests, modelId)
    requires var row := Latest(store.configs, modelId); row.Some? && row.value.body == Tuning(config, true)
    ensures var row := Latest(AfterAll(store, requests).configs, modelId);
      row.Some? && row.value.body == Tuning(config, true)
  {
    hide Latest, Insert, LockLatest;
    if requests != [] {
      var n := |requests| - 1;
      var before := AfterAll(store, requests[..n]);
      LockLasts(store, requests[..n], modelId, config);
      match requests[n]
      case SaveTunedConfig(m, tuning) => LatestAfterInsert(before.configs, m, tuning, modelId);
      case LockConfig(m) => LatestAfterLock(before.configs, m, modelId);
      case _ =>
    }
  }

  /**
   * A lock placed while the generator is suspended, with anything before it and anything after it but a save of the
   * same model, is honoured at the next resumption: no adapter call, and the locked config stays active from then on.
   */
  lemma {:induction false} LockIsHonoured(w: World, s: State, before: seq<Request>, after: seq<Request>, later: nat)
    requires s.status == Running && s.sessions != [] && GoesOn(w, s.iteration + 1)
    requires w.outside(|s.sessions| - 1) == before + [Request.LockConfig(w.lab.modelId)] + after
    requires Latest(AfterAll(s.store, before).configs, w.lab.modelId).Some? && NoSaveOf(after, w.lab.modelId)
    ensures var locked := Latest(AfterAll(s.store, before).configs, w.lab.modelId).value.body.config;
      var n := Run(w, Next(w, s), later);
      && n.sessions == s.sessions + [SessionOf(w, s, ToLocked(locked))]
      && n.calls == s.calls
      && n.Active(w.lab.modelId) == Some(locked)
      && n.status == Returned
  {
    hide Next, Latest, LockLatest;
    var modelId, lock := w.lab.modelId, [Request.LockConfig(w.lab.modelId)];
    var configs := AfterAll(s.store, before).configs;
    var locked := Latest(configs, modelId).value.body.config;
    AfterAllSplit(s.store, before, lock);
    AfterAllSplit(s.store, before + lock, after);
    assert lock[..0] == [];
    assert AfterAll(s.store, before + lock).configs == LockLatest(configs, modelId);
    LatestAfterLock(configs, modelId, modelId);
    LockLasts(AfterAll(s.store, before + lock), after, modelId, locked);
    LockedStopsRun(w, s);
    EndedStays(w, Next(w, s), later);
  }

  /** Neither a save nor a lock of this model among them. */
  ghost predicate LeavesAlone(requests: seq<Request>, modelId: string) {
    && NoSaveOf(requests, modelId)
    && forall i :: 0 <= i < |requests| && requests[i].LockConfig? ==> requests[i].modelId != modelId
  }

  lemma {:induction false} LockedAfterSplit(was: Option<bool>, first: seq<Request>, second: seq<Request>, modelId: string)
    requires LeavesAlone(second, modelId)
    ensures LockedAfter(was, first + second, modelId) == LockedAfter(was, first, modelId)
  {
    if second == [] {
      assert first + second == first;
    } else {
      var n := |second| - 1;
      LockedAfterSplit(was, first, second[..n], modelId);
      assert (first + second)[..|first| + n] == first + second[..n];
    }
  }

  /** What undoes a lock is a later unlocked save of the model: the next resumption then does not yield LOCKED. */
  lemma {:induction false} LockUndoneBySave(w: World, s: State, before: seq<Request>, config: Config, after: seq<Request>)
    requires s.status == Running && s.sessions != [] && GoesOn(w, s.iteration + 1)
    requires w.outside(|s.sessions| - 1)
          == before + [Request.SaveTunedConfig(w.lab.modelId, Tuning(config, false))] + after
    requires LeavesAlone(after, w.lab.modelId)
    ensures !StopsLocked(w, s)
  {
    hide StopsLocked;
    var save := [Request.SaveTunedConfig(w.lab.modelId, Tuning(config, false))];
    LockedExactly(w, s);
    LockedAfterSplit(LockOf(s.store, w.lab.modelId), before + save, after, w.lab.modelId);
    assert (before + save)[..|before|] == before;
  }

  /** LOCKED appears only as the last session of a generator that has ended. */
  ghost predicate LockedOnlyLast(s: State) {
    && (forall i :: 0 <= i < |s.sessions| - 1 ==> s.sessions[i].outcome != Locked)
    && (s.status == Running && s.sessions != [] ==> s.sessions[|s.sessions| - 1].outcome != Locked)
  }

  lemma {:induction false} LockedOnlyLastByRun(w: World, store: Store, history: seq<Candidate>, n: nat)
    ensures LockedOnlyLast(Run(w, Start(w, store, history), n))
  {
    hide Next, IsMove;
    if n != 0 {
      LockedOnlyLastByRun(w, store, history, n - 1);
      var s := Run(w, Start(w, store, history), n - 1);
      var t, m := NextMoves(w, s);
      SessionEffects(w, s, t, m);
      NotLocked(w, s, t, m);
    }
  }

  lemma {:induction false} NotLocked(w: World, s: State, t: State, m: Move)
    requires IsMove(w, s, t, m)
    ensures m.Yields() ==> (SessionOf(w, s, m).outcome == Locked <==> m.ToLocked?)
    ensures m.Yields() ==> s.status == Running
    ensures m.Stay? <==> s.status != Running
  {
    hide Next, Resume, OnlyMeasured, Latest, CapReached;
  }

  // ----- other models

  /** A model's configs in the order they were saved, without row ids. */
  function Bodies(rows: seq<TunedConfig>): seq<Tuning> {
    if rows == [] then [] else Bodies(rows[..|rows| - 1]) + [rows[|rows| - 1].body]
  }

  function Saved(configs: seq<TunedConfig>, modelId: string): seq<Tuning> {
    Bodies(ForModel(configs, modelId))
  }

  function LockLast(bodies: seq<Tuning>): seq<Tuning> {
    if bodies == [] then [] else bodies[|bodies| - 1 := bodies[|bodies| - 1].(isLocked := true)]
  }

  lemma SavedAppend(rows: seq<TunedConfig>, r: TunedConfig, other: string)
    ensures Saved(rows + [r], other) == Saved(rows, other) + if other == r.modelId then [r.body] else []
  {
    ForModelAppend(rows, r, other);
    var matches := ForModel(rows, other);
    assert (matches + [r])[..|matches|] == matches && matches + [] == matches;
    assert Bodies(matches) + [] == Bodies(matches);
  }

  lemma SavedAfterInsert(configs: seq<TunedConfig>, modelId: string, body: Tuning, other: string)
    ensures Saved(Insert(configs, modelId, body), other)
         == Saved(configs, other) + if other == modelId then [body] else []
  {
    SavedAppend(configs, Record(|configs| + 1, modelId, body), other);
  }

  lemma NothingSaved(other: string)
    ensures Saved([], other) == []
  {
  }

  lemma {:induction false} SavedAfterLock(configs: seq<TunedConfig>, modelId: string, other: string)
    ensures Saved(LockLatest(configs, modelId), other)
         == if other == modelId then LockLast(Saved(configs, other)) else Saved(configs, other)
  {
    hide Saved;
    if configs == [] {
      NothingSaved(other);
    } else {
      var n := |configs| - 1;
      var earlier, last := configs[..n], configs[n];
      assert configs == earlier + [last];
      SavedAppend(earlier, last, other);
      if last.modelId == modelId {
        var locked := last.(body := last.body.(isLocked := true));
        assert LockLatest(configs, modelId) == earlier + [locked];
        SavedAppend(earlier, locked, other);
      } else {
        assert LockLatest(configs, modelId) == LockLatest(earlier, modelId) + [last];
        SavedAppend(LockLatest(earlier, modelId), last, other);
        SavedAfterLock(earlier, modelId, other);
      }
    }
  }

  lemma {:induction false} SavedAfterSame(a: Store, b: Store, request: Request, other: string)
    requires Saved(a.configs, other) == Saved(b.configs, other)
    ensures Saved(After(a, request).configs, other) == Saved(After(b, request).configs, other)
  {
    hide Saved;
    match request
    case SaveTunedConfig(m, tuning) =>
      SavedAfterInsert(a.configs, m, tuning, other);
      SavedAfterInsert(b.configs, m, tuning, other);
    case LockConfig(m) =>
      SavedAfterLock(a.configs, m, other);
      SavedAfterLock(b.configs, m, other);
    case _ =>
  }

  lemma {:induction false} SavedAfterSameAll(a: Store, b: Store, requests: seq<Request>, other: string)
    requires Saved(a.configs, other) == Saved(b.configs, other)
    ensures Saved(AfterAll(a, requests).configs, other) == Saved(AfterAll(b, requests).configs, other)
  {
    hide Saved;
    if requests != [] {
      var n := |requests| - 1;
      SavedAfterSameAll(a, b, requests[..n], other);
      SavedAfterSame(AfterAll(a, requests[..n]), AfterAll(b, requests[..n]), requests[n], other);
    }
  }

  /** The store had the generator never run: only the first k batches of outside requests. */
  function WithoutAutopilot(w: World, store: Store, k: nat): Store {
    if k == 0 then store else AfterAll(WithoutAutopilot(w, store, k - 1), w.outside(k - 1))
  }

  ghost predicate Batches(w: World, store: Store, s: State, other: string) {
    && (s.status == Running ==> s.iteration == if s.sessions == [] then 0 else |s.sessions| - 1)
    && Saved(s.store.configs, other) == Saved(WithoutAutopilot(w, store, s.iteration).configs, other)
  }

  /** The engine is invisible to every other model: its saved configs are what outside writes alone would have left. */
  lemma {:induction false} OtherModelsUntouched(w: World, store: Store, history: seq<Candidate>, n: nat, other: string)
    requires other != w.lab.modelId
    ensures Batches(w, store, Run(w, Start(w, store, history), n), other)
  {
    hide Next, Saved;
    if n != 0 {
      OtherModelsUntouched(w, store, history, n - 1, other);
      UntouchedByNext(w, store, Run(w, Start(w, store, history), n - 1), other);
    }
  }

  lemma {:induction false} UntouchedByNext(w: World, store: Store, s: State, other: string)
    requires other != w.lab.modelId && Batches(w, store, s, other)
    ensures Batches(w, store, Next(w, s), other)
  {
    hide Next, IsMove, Saved, Insert;
    var t, m := NextMoves(w, s);
    var r := Resumed(w, s);
    ConfigEffects(w, s, t, m);
    SessionEffects(w, s, t, m);
    IterationEffects(w, s, t, m);
    NotLocked(w, s, t, m);
    if s.status == Running && s.sessions != [] {
      SavedAfterSameAll(s.store, WithoutAutopilot(w, store, s.iteration), w.outside(|s.sessions| - 1), other);
    }
    if m.Changes() {
      SavedAfterInsert(r.store.configs, w.lab.modelId, Tuning(ToOf(m), false), other);
    }
  }

  lemma {:induction false} IterationEffects(w: World, s: State, t: State, m: Move)
    requires IsMove(w, s, t, m)
    ensures var r, n := Resumed(w, s), Next(w, s);
      n.iteration == r.iteration && n.sleeps == r.sleeps
      && r.iteration == s.iteration + if s.status == Running && s.sessions != [] then 1 else 0
  {
    hide Next, Taken, FitsPass;
  }
}
