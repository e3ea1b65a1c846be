/** The audit trail: complete enough to replay, and never able to influence the run. */
module AuditTrail {
  import opened Domain
  import opened Tables
  import opened StorageInterface
  import opened Evaluator
  import opened TuningPass
  import opened DecisionProperties
  import opened Autopilot
  import opened AutopilotMoves
  import opened SessionProperties
  import opened LockSafety

  /** The active config as a reader of the trail reconstructs it. */
  function Replay(trail: seq<AutopilotEvent>, modelId: string, start: Option<Config>): Option<Config> {
    if trail == [] then start
    else
      var before, last := Replay(trail[..|trail| - 1], modelId, start), trail[|trail| - 1];
      if last.modelId != modelId then before
      else match last.body
        case Adjust(config) => Some(config)
        case Rollback(_, to) => Some(to)
        case _ => before
  }

  /** Every rollback entry names the config that was active just before it, and every lock entry the one active then. */
  ghost predicate Faithful(trail: seq<AutopilotEvent>, modelId: string, start: Option<Config>) {
    trail == []
    || (var earlier, last := trail[..|trail| - 1], trail[|trail| - 1];
        && Faithful(earlier, modelId, start)
        && (last.modelId == modelId ==>
              match last.body
              case Rollback(from, _) => Replay(earlier, modelId, start) == Some(from)
              case Lock(config) => Replay(earlier, modelId, start) == Some(config)
              case _ => true))
  }

  function ChangeEntries(trail: seq<AutopilotEvent>, modelId: string): nat {
    if trail == [] then 0
    else
      var last := trail[|trail| - 1];
      ChangeEntries(trail[..|trail| - 1], modelId)
      + if last.modelId == modelId && (last.body.Adjust? || last.body.Rollback?) then 1 else 0
  }

  /** The trail since `base` replays to what `now` has active, and counts its `changes`, as do the saved rows. */
  ghost predicate InStep(base: Store, now: Store, modelId: string, changes: nat) {
    && base.events <= now.events
    && (var trail := now.events[|base.events|..];
        && Replay(trail, modelId, base.Active(modelId)) == now.Active(modelId)
        && Faithful(trail, modelId, base.Active(modelId))
        && ChangeEntries(trail, modelId) == changes)
    && |ForModel(now.configs, modelId)| == |ForModel(base.configs, modelId)| + changes
  }

  /** Writes neither configs nor events of this model; it may lock it. */
  ghost predicate Quiet(request: Request, modelId: string) {
    && (request.SaveTunedConfig? ==> request.modelId != modelId)
    && (request.SaveAutopilotEvent? ==> request.modelId != modelId)
  }

  ghost predicate OutsideQuiet(w: World) {
    forall k: nat, i :: 0 <= i < |w.outside(k)| ==> Quiet(w.outside(k)[i], w.lab.modelId)
  }

  ghost predicate LoggingWorks(w: World) {
    forall i: nat :: !w.auditRaises(i)
  }

  /** What one more entry does to a trail. */
  lemma TrailAppend(base: Store, events: seq<AutopilotEvent>, e: AutopilotEvent)
    requires base.events <= events
    ensures base.events <= events + [e]
    ensures (events + [e])[|base.events|..] == events[|base.events|..] + [e]
    ensures (events[|base.events|..] + [e])[..|events| - |base.events|] == events[|base.events|..]
  {
  }

  lemma {:induction false} CountAfterLock(rows: seq<TunedConfig>, modelId: string, other: string)
    ensures |ForModel(LockLatest(rows, modelId), other)| == |ForModel(rows, other)|
  {
    SavedAfterLock(rows, modelId, other);
    SavedLength(LockLatest(rows, modelId), other);
    SavedLength(rows, other);
  }

  lemma SavedLength(rows: seq<TunedConfig>, modelId: string)
    ensures |Saved(rows, modelId)| == |ForModel(rows, modelId)|
  {
    BodiesLength(ForModel(rows, modelId));
  }

  lemma {:induction false} BodiesLength(rows: seq<TunedConfig>)
    ensures |Bodies(rows)| == |rows|
  {
    if rows != [] {
      BodiesLength(rows[..|rows| - 1]);
    }
  }

  lemma {:induction false} QuietStaysInStep(base: Store, now: Store, request: Request, modelId: string, changes: nat)
    requires InStep(base, now, modelId, changes) && Quiet(request, modelId)
    ensures InStep(base, After(now, request), modelId, changes)
  {
    hide Latest, ForModel, LockLatest;
    match request
    case SaveTunedConfig(m, tuning) =>
      LatestAfterInsert(now.configs, m, tuning, modelId);
      ForModelAppend(now.configs, Record(|now.configs| + 1, m, tuning), modelId);
    case LockConfig(m) =>
      LatestAfterLock(now.configs, m, modelId);
      CountAfterLock(now.configs, m, modelId);
    case SaveAutopilotEvent(m, details) =>
      TrailAppend(base, now.events, Record(|now.events| + 1, m, details));
    case _ =>
  }

  lemma {:induction false} QuietAllInStep(base: Store, now: Store, requests: seq<Request>, modelId: string, changes: nat)
    requires InStep(base, now, modelId, changes)
    requires forall i :: 0 <= i < |requests| ==> Quiet(requests[i], modelId)
    ensures InStep(base, AfterAll(now, requests), modelId, changes)
  {
    hide InStep;
    if requests != [] {
      var n := |requests| - 1;
      QuietAllInStep(base, now, requests[..n], modelId, changes);
      QuietStaysInStep(base, AfterAll(now, requests[..n]), requests[n], modelId, changes);
    }
  }

  /** A change of config together with its entry stays in step. */
  lemma {:induction false} ChangeInStep(base: Store, now: Store, next: Store, modelId: string, changes: nat,
                                        to: Config, entry: Details)
    requires InStep(base, now, modelId, changes)
    requires next.configs == Insert(now.configs, modelId, Tuning(to, false))
    requires next.events == Insert(now.events, modelId, entry)
    requires match entry
             case Adjust(config) => config == to
             case Rollback(from, target) => target == to && now.Active(modelId) == Some(from)
             case _ => false
    ensures InStep(base, next, modelId, changes + 1)
  {
    hide Latest, ForModel, Replay, Faithful, ChangeEntries;
    LatestAfterInsert(now.configs, modelId, Tuning(to, false), modelId);
    ForModelAppend(now.configs, Record(|now.configs| + 1, modelId, Tuning(to, false)), modelId);
    TrailAppend(base, now.events, Record(|now.events| + 1, modelId, entry));
    ReplayOneMore(now.events[|base.events|..], Record(|now.events| + 1, modelId, entry), base.Active(modelId));
  }

  /** One more change entry of its model, on a trail. */
  lemma ReplayOneMore(trail: seq<AutopilotEvent>, e: AutopilotEvent, start: Option<Config>)
    requires e.body.Adjust? || (e.body.Rollback? && Replay(trail, e.modelId, start) == Some(e.body.from))
    ensures Replay(trail + [e], e.modelId, start)
         == match e.body case Adjust(config) => Some(config) case Rollback(_, to) => Some(to) case _ => start
    ensures Faithful(trail, e.modelId, start) ==> Faithful(trail + [e], e.modelId, start)
    ensures ChangeEntries(trail + [e], e.modelId) == ChangeEntries(trail, e.modelId) + 1
  {
    assert (trail + [e])[..|trail|] == trail;
  }

  /** Any other entry leaves the replay alone. */
  lemma {:induction false} NoteInStep(base: Store, now: Store, next: Store, modelId: string, changes: nat, entry: Details)
    requires InStep(base, now, modelId, changes)
    requires next.configs == now.configs && next.events == Insert(now.events, modelId, entry)
    requires match entry
             case Lock(config) => now.Active(modelId) == Some(config)
             case RateLimit(_) => true
             case _ => false
    ensures InStep(base, next, modelId, changes)
  {
    hide Latest, ForModel;
    TrailAppend(base, now.events, Record(|now.events| + 1, modelId, entry));
  }

  ghost predicate Audited(w: World, base: Store, s: State) {
    && InStep(base, s.store, w.lab.modelId, |s.changes|)
    && |s.adjustmentTimestamps| == |s.changes|
  }

  lemma {:induction false} EntryMatches(w: World, s: State, t: State, m: Move)
    requires IsMove(w, s, t, m)
    ensures var active := Resumed(w, s).Active(w.lab.modelId);
      && (m.ToLocked? ==> active == Some(m.config))
      && (m.ToRollback? ==> active == Some(m.probe.config))
  {
    hide Next, Resume, OnlyMeasured, TunedFrom, CapReached, Latest;
  }

  lemma {:induction false} AuditedByNext(w: World, base: Store, s: State)
    requires LoggingWorks(w) && OutsideQuiet(w) && Audited(w, base, s)
    ensures Audited(w, base, Next(w, s))
  {
    hide Next, IsMove, InStep, Insert, Latest;
    var t, m := NextMoves(w, s);
    var r, n, modelId := Resumed(w, s), Next(w, s), w.lab.modelId;
    SessionEffects(w, s, t, m);
    ChangeEffects(w, s, t, m);
    EventEffects(w, s, t, m);
    ConfigEffects(w, s, t, m);
    EntryMatches(w, s, t, m);
    if s.status == Running && s.sessions != [] {
      QuietAllInStep(base, s.store, w.outside(|s.sessions| - 1), modelId, |s.changes|);
    }
    if m.Changes() {
      ChangeInStep(base, r.store, n.store, modelId, |s.changes|, ToOf(m), EntryOf(m));
    } else if Logs(m) {
      NoteInStep(base, r.store, n.store, modelId, |s.changes|, EntryOf(m));
    } else {
      assert n.store == r.store;
    }
  }

  /**
   * With logging working and nobody else writing this model's configs or events, at every yield the run's entries
   * replay to the stored active config, each rollback names the config it left, and changes, entries, saved rows and
   * recorded timestamps all have the same count.
   */
  lemma {:induction false} TrailReplays(w: World, base: Store, history: seq<Candidate>, n: nat)
    requires LoggingWorks(w) && OutsideQuiet(w)
    ensures Audited(w, base, Run(w, Start(w, base, history), n))
  {
    if n == 0 {
      assert base.events[|base.events|..] == [];
    } else {
      TrailReplays(w, base, history, n - 1);
      AuditedByNext(w, base, Run(w, Start(w, base, history), n - 1));
    }
  }

  // ----- what each session leaves in the trail

  /**
   * The entry a session leaves: none when the baseline is kept; a limited one names the best candidate it passed up.
   */
  ghost predicate Tells(x: Session, note: Option<Details>) {
    match x.outcome
    case KeptBaseline => note == None
    case Locked => note == Some(Details.Lock(x.winner.config))
    case RolledBack => note == Some(Details.Rollback(x.baseline.config, x.winner.config))
    case AcceptedNew => note == Some(Details.Adjust(x.winner.config))
    case RateLimited =>
      exists i :: 0 <= i < |x.candidates| && NoneBeats(x.candidates, i) &&
        note == Some(Details.RateLimit(x.candidates[i].config))
  }

  ghost predicate NoneBeats(results: seq<Candidate>, i: int)
    requires 0 <= i < |results|
  {
    && Usable(results[i].benchmark)
    && forall j :: 0 <= j < |results| && Usable(results[j].benchmark) ==>
         Unbeaten(results[i].benchmark, results[j].benchmark)
  }

  /** The events after a resumption: those before it and this note, unless its write raises. */
  ghost predicate Noted(w: World, s: State, n: State, note: Option<Details>) {
    var events := Resumed(w, s).store.events;
    && n.audits == s.audits + (if note.Some? then 1 else 0)
    && n.store.events == (if note.Some? && !w.auditRaises(s.audits)
                          then events + [Record(|events| + 1, w.lab.modelId, note.value)]
                          else events)
  }

  lemma {:induction false} MoveTells(w: World, s: State, t: State, m: Move)
    requires IsMove(w, s, t, m) && m.Yields() && !m.ToLimited?
    ensures Tells(SessionOf(w, s, m), if Logs(m) then Some(EntryOf(m)) else None)
  {
    ResumedFrame(w, s);
    hide Next, Resume, OnlyMeasured, Land, CapReached, BaselineOf, OnePass;
  }

  lemma {:induction false} LimitTells(w: World, s: State, t: State, m: Move)
    requires IsMove(w, s, t, m) && m.ToLimited?
    ensures Tells(SessionOf(w, s, m), Some(EntryOf(m)))
  {
    hide IsMove, NoneBeats, Next, TuneFrom, PassStart, BaselineOf, PassMeasures, PassReports, Better, Resumed;
    var r, d := Resumed(w, s), m.session;
    LimitedPass(w, s, t, m);
    PassIsExact(w.lab, PassStart(w, r), BaselineOf(w, r));
    var i: nat :| IsFirstBest(d.candidates, i) && d.candidates[i] == d.winner;
    FirstBestUnbeaten(d.candidates, i);
    assert SessionOf(w, s, m) == d.(winner := d.baseline, outcome := Outcome.RateLimited);
  }

  lemma {:induction false} LimitedPass(w: World, s: State, t: State, m: Move)
    requires IsMove(w, s, t, m) && m.ToLimited?
    ensures var r := Resumed(w, s); m.session == TuneFrom(w.lab, PassStart(w, r), BaselineOf(w, r)).session
    ensures m.session.outcome == AcceptedNew
  {
    hide Next, Resume, OnlyMeasured, Land, CapReached, BaselineOf, TuneFrom, PassStart;
  }

  lemma FirstBestUnbeaten(results: seq<Candidate>, i: nat)
    requires IsFirstBest(results, i)
    ensures i < |results| && NoneBeats(results, i)
  {
    BetterByFields();
  }

  /** Every yielded session leaves exactly its own entry, and a resumption that yields none leaves nothing. */
  lemma {:induction false} EventsExactly(w: World, s: State) returns (note: Option<Details>)
    ensures var n := Next(w, s);
      && Noted(w, s, n, note)
      && (if |n.sessions| == |s.sessions| then note == None
          else |n.sessions| == |s.sessions| + 1 && Tells(n.sessions[|s.sessions|], note))
  {
    hide Next, IsMove, SessionOf, Tells;
    var t, m := NextMoves(w, s);
    SessionEffects(w, s, t, m);
    EventEffects(w, s, t, m);
    note := if Logs(m) then Some(EntryOf(m)) else None;
    if m.ToLimited? {
      LimitTells(w, s, t, m);
    } else if m.Yields() {
      MoveTells(w, s, t, m);
    }
  }

  // ----- logging failures change nothing but the log

  /** Equal in everything but the stored events and the count of audit attempts. */
  ghost predicate SameButLog(a: State, b: State) {
    b == a.(audits := b.audits, store := a.store.(events := b.store.events))
  }

  lemma {:induction false} OutsideSameButLog(a: Store, b: Store, requests: seq<Request>)
    requires b == a.(events := b.events)
    ensures AfterAll(b, requests) == AfterAll(a, requests).(events := AfterAll(b, requests).events)
  {
    if requests != [] {
      OutsideSameButLog(a, b, requests[..|requests| - 1]);
    }
  }

  lemma ResumeSameButLog(w: World, v: World, a: State, b: State)
    requires v == w.(auditRaises := v.auditRaises) && SameButLog(a, b)
    ensures SameButLog(Resume(w, a), Resume(v, b))
  {
    if a.sessions != [] {
      OutsideSameButLog(a.store, b.store, w.outside(|a.sessions| - 1));
    }
  }

  lemma LogSameButLog(w: World, v: World, a: State, b: State, details: Details)
    requires v == w.(auditRaises := v.auditRaises) && SameButLog(a, b)
    ensures SameButLog(Log(w, a, details), Log(v, b, details))
  {
  }

  lemma AcceptSameButLog(w: World, v: World, a: State, b: State, session: Session)
    requires v == w.(auditRaises := v.auditRaises) && SameButLog(a, b)
    ensures SameButLog(AcceptStep(w, a, session), AcceptStep(v, b, session))
  {
    hide Log;
    var config := session.winner.config;
    LogSameButLog(w, v, Save(w, a.(history := a.history + [session.winner]), config),
      Save(v, b.(history := b.history + [session.winner]), config), Details.Adjust(config));
  }

  lemma LimitSameButLog(w: World, v: World, a: State, b: State, session: Session)
    requires v == w.(auditRaises := v.auditRaises) && SameButLog(a, b)
    ensures SameButLog(LimitStep(w, a, session), LimitStep(v, b, session))
  {
    hide Log;
    LogSameButLog(w, v, a, b, Details.RateLimit(session.winner.config));
  }

  lemma {:induction false} SettleSameButLog(w: World, v: World, a: State, b: State, session: Session)
    requires v == w.(auditRaises := v.auditRaises) && SameButLog(a, b)
    ensures SameButLog(Settle(w, a, session), Settle(v, b, session))
  {
    hide CountSince, AcceptStep, LimitStep;
    AcceptSameButLog(w, v, AfterRateCheck(w, a), AfterRateCheck(v, b), session);
    LimitSameButLog(w, v, AfterRateCheck(w, a), AfterRateCheck(v, b), session);
  }

  lemma {:induction false} TuneSameButLog(w: World, v: World, a: State, b: State, stored: Option<Config>)
    requires v == w.(auditRaises := v.auditRaises) && SameButLog(a, b)
    ensures SameButLog(TuneStep(w, a, stored), TuneStep(v, b, stored))
  {
    hide TuneFrom, Settle, DefaultBaseline;
    if w.reachable(a.checks) {
      SettleSameButLog(w, v, AfterTuning(w, a, stored), AfterTuning(v, b, stored), PassSession(w, a, stored));
    }
  }

  lemma {:induction false} BodySameButLog(w: World, v: World, a: State, b: State)
    requires v == w.(auditRaises := v.auditRaises) && SameButLog(a, b)
    ensures SameButLog(Body(w, a), Body(v, b))
  {
    hide TuneStep, Measure, Latest;
    var row := Latest(a.store.configs, w.lab.modelId);
    if row.None? {
      TuneSameButLog(w, v, a, b, None);
    } else if !row.value.body.isLocked {
      var config := row.value.body.config;
      var probe := Measure(w.lab, a.calls, config);
      TuneSameButLog(w, v, a, b, Some(config));
      TuneSameButLog(w, v, AfterProbe(a, probe), AfterProbe(b, probe), Some(config));
    }
  }

  /**
   * Runs that differ only in which audit writes fail have the same sessions, configs, timestamps and everything else
   * but the log.
   */
  lemma {:induction false} LoggingNeverInterferes(w: World, v: World, store: Store, history: seq<Candidate>, n: nat)
    requires v == w.(auditRaises := v.auditRaises)
    ensures SameButLog(Run(w, Start(w, store, history), n), Run(v, Start(v, store, history), n))
  {
    if n != 0 {
      LoggingNeverInterferes(w, v, store, history, n - 1);
      var a, b := Run(w, Start(w, store, history), n - 1), Run(v, Start(v, store, history), n - 1);
      hide Body, Resume;
      ResumeSameButLog(w, v, a, b);
      BodySameButLog(w, v, Resume(w, a), Resume(v, b));
    }
  }
}
