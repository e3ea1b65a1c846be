/** Append-only tables: the reference meaning of "the current row of a model". */
module Tables {
  import opened Domain

  function ForModel<T>(rows: seq<Record<T>>, modelId: string): (matches: seq<Record<T>>)
    ensures forall i :: 0 <= i < |matches| ==> matches[i] in rows && matches[i].modelId == modelId
  {
    if rows == [] then []
    else
      var last := rows[|rows| - 1];
      ForModel(rows[..|rows| - 1], modelId) + if last.modelId == modelId then [last] else []
  }

  function Latest<T>(rows: seq<Record<T>>, modelId: string): Option<Record<T>> {
    var matches := ForModel(rows, modelId);
    if matches == [] then None else Some(matches[|matches| - 1])
  }

  function Insert<T>(rows: seq<Record<T>>, modelId: string, body: T): seq<Record<T>> {
    rows + [Record(|rows| + 1, modelId, body)]
  }

  /** The position of the row Latest returns, or -1. */
  function LatestIndex<T>(rows: seq<Record<T>>, modelId: string): (i: int)
    ensures -1 <= i < |rows|
    ensures 0 <= i ==> rows[i].modelId == modelId
    ensures forall j :: i < j < |rows| ==> rows[j].modelId != modelId
  {
    if rows == [] then -1
    else if rows[|rows| - 1].modelId == modelId then |rows| - 1
    else LatestIndex(rows[..|rows| - 1], modelId)
  }

  function LockLatest(rows: seq<TunedConfig>, modelId: string): (locked: seq<TunedConfig>)
    ensures |locked| == |rows|
  {
    var i := LatestIndex(rows, modelId);
    if i < 0 then rows else rows[i := rows[i].(body := rows[i].body.(isLocked := true))]
  }

  function Reverse<T>(s: seq<T>): (r: seq<T>)
    ensures |r| == |s|
    ensures forall i :: 0 <= i < |s| ==> r[i] == s[|s| - 1 - i]
  {
    if s == [] then [] else [s[|s| - 1]] + Reverse(s[..|s| - 1])
  }

  /** Python's s[:limit]; a negative limit drops from the end. */
  function Slice<T>(s: seq<T>, limit: int): (r: seq<T>)
    ensures r <= s
  {
    var stop := if limit < 0 then |s| + limit else limit;
    s[..if stop < 0 then 0 else if |s| < stop then |s| else stop]
  }

  function NewestFirst<T>(rows: seq<Record<T>>, modelId: Option<string>, limit: int): seq<Record<T>> {
    var matches := match modelId case None => rows case Some(m) => ForModel(rows, m);
    Slice(Reverse(matches), limit)
  }

  lemma ForModelAppend<T>(rows: seq<Record<T>>, r: Record<T>, modelId: string)
    ensures ForModel(rows + [r], modelId) == ForModel(rows, modelId) + if r.modelId == modelId then [r] else []
  {
    assert (rows + [r])[..|rows|] == rows;
  }

  lemma {:induction false} LatestAtIndex<T>(rows: seq<Record<T>>, modelId: string)
    ensures var i := LatestIndex(rows, modelId);
      Latest(rows, modelId) == if i < 0 then None else Some(rows[i])
  {
    if rows != [] {
      LatestAtIndex(rows[..|rows| - 1], modelId);
    }
  }

  /**
   * What a caller reads off a current row: it is the model's, nothing later is, and there is none only if the model
   * has none.
   */
  ghost predicate IsCurrent<T>(rows: seq<Record<T>>, modelId: string, current: Option<Record<T>>) {
    match current
    case None => forall i :: 0 <= i < |rows| ==> rows[i].modelId != modelId
    case Some(row) =>
      exists i :: 0 <= i < |rows| && rows[i] == row && row.modelId == modelId
                  && forall j :: i < j < |rows| ==> rows[j].modelId != modelId
  }

  lemma {:induction false} LatestIsCurrent<T>(rows: seq<Record<T>>, modelId: string)
    ensures IsCurrent(rows, modelId, Latest(rows, modelId))
  {
    LatestAtIndex(rows, modelId);
    var i := LatestIndex(rows, modelId);
  }

  predicate Matches<T>(r: Record<T>, filter: Option<string>) {
    filter.None? || r.modelId == filter.value
  }

  function CountMatches<T>(rows: seq<Record<T>>, filter: Option<string>): nat {
    if rows == [] then 0
    else CountMatches(rows[..|rows| - 1], filter) + if Matches(rows[|rows| - 1], filter) then 1 else 0
  }

  /** How many of n rows a limit lets through; a negative one drops that many. */
  function Within(limit: int, n: nat): nat {
    if limit < 0 then (if n + limit < 0 then 0 else n + limit) else if n < limit then n else limit
  }

  /**
   * `listed` are matching rows of the table, newest first at positions `at`, none left out but older ones, as many as
   * the limit allows.
   */
  ghost predicate Lists<T>(rows: seq<Record<T>>, filter: Option<string>, limit: int, listed: seq<Record<T>>, at: seq<int>) {
    && |at| == |listed| == Within(limit, CountMatches(rows, filter))
    && (forall k :: 0 <= k < |at| ==> 0 <= at[k] < |rows| && listed[k] == rows[at[k]] && Matches(listed[k], filter))
    && (forall j, k :: 0 <= j < k < |at| ==> at[k] < at[j])
    && (forall i, k :: 0 <= i < |rows| && Matches(rows[i], filter) && i !in at && 0 <= k < |at| ==> i < at[k])
  }

  ghost predicate ListsNewest<T>(rows: seq<Record<T>>, filter: Option<string>, limit: int, listed: seq<Record<T>>) {
    exists at :: Lists(rows, filter, limit, listed, at)
  }

  /** The positions of the matching rows, oldest first. */
  function Positions<T>(rows: seq<Record<T>>, filter: Option<string>): seq<int> {
    if rows == [] then []
    else Positions(rows[..|rows| - 1], filter) + if Matches(rows[|rows| - 1], filter) then [|rows| - 1] else []
  }

  /** What `NewestFirst` filters. */
  function Matching<T>(rows: seq<Record<T>>, filter: Option<string>): seq<Record<T>> {
    match filter case None => rows case Some(m) => ForModel(rows, m)
  }

  lemma MatchingAppend<T>(rows: seq<Record<T>>, filter: Option<string>)
    requires rows != []
    ensures var n := |rows| - 1;
      Matching(rows, filter) == Matching(rows[..n], filter) + if Matches(rows[n], filter) then [rows[n]] else []
  {
    assert rows == rows[..|rows| - 1] + [rows[|rows| - 1]];
  }

  /** Increasing positions of exactly the matching rows, and those rows. */
  ghost predicate Selects<T>(rows: seq<Record<T>>, filter: Option<string>, p: seq<int>, matches: seq<Record<T>>) {
    && |p| == |matches|
    && (forall k :: 0 <= k < |p| ==> 0 <= p[k] < |rows| && matches[k] == rows[p[k]] && Matches(matches[k], filter))
    && (forall j, k :: 0 <= j < k < |p| ==> p[j] < p[k])
    && (forall i :: 0 <= i < |rows| && Matches(rows[i], filter) ==> i in p)
  }

  lemma SelectsMore<T>(rows: seq<Record<T>>, last: Record<T>, filter: Option<string>, p: seq<int>, matches: seq<Record<T>>)
    requires Selects(rows, filter, p, matches)
    ensures if Matches(last, filter) then Selects(rows + [last], filter, p + [|rows|], matches + [last])
            else Selects(rows + [last], filter, p, matches)
  {
    hide Matches;
    var more := rows + [last];
    forall i | 0 <= i < |more| && Matches(more[i], filter) ensures i in p + [|rows|] && (i < |rows| ==> i in p) {
      if i < |rows| {
        assert Matches(rows[i], filter);
      }
    }
  }

  lemma NothingSelected<T>(filter: Option<string>)
    ensures Selects<T>([], filter, [], Matching([], filter))
  {
  }

  lemma {:induction false} PositionsSelect<T>(rows: seq<Record<T>>, filter: Option<string>)
    ensures Selects(rows, filter, Positions(rows, filter), Matching(rows, filter))
    ensures |Positions(rows, filter)| == CountMatches(rows, filter)
  {
    hide Matching, Matches, Selects;
    if rows == [] {
      NothingSelected<T>(filter);
    } else {
      var earlier, last := rows[..|rows| - 1], rows[|rows| - 1];
      PositionsSelect(earlier, filter);
      MatchingAppend(rows, filter);
      SelectsMore(earlier, last, filter, Positions(earlier, filter), Matching(earlier, filter));
      assert rows == earlier + [last];
      assert Positions(earlier, filter) + [] == Positions(earlier, filter);
      assert Matching(earlier, filter) + [] == Matching(earlier, filter);
    }
  }

  lemma SliceOfReverse<T>(s: seq<T>, limit: int)
    ensures var r := Slice(Reverse(s), limit);
      |r| == Within(limit, |s|) <= |s| && forall k :: 0 <= k < |r| ==> r[k] == s[|s| - 1 - k]
  {
  }

  /** Filtering, reversing and slicing lists the newest matching rows. */
  lemma {:induction false} NewestFirstLists<T>(rows: seq<Record<T>>, filter: Option<string>, limit: int)
    ensures ListsNewest(rows, filter, limit, NewestFirst(rows, filter, limit))
  {
    hide Positions, Matching, CountMatches, Matches, Reverse, Slice, NewestFirst, Within;
    PositionsSelect(rows, filter);
    NewestFirstIs(rows, filter, limit);
    var p, matches := Positions(rows, filter), Matching(rows, filter);
    SliceOfReverse(p, limit);
    SliceOfReverse(matches, limit);
    SelectedAreListed(rows, filter, limit, p, matches, Slice(Reverse(p), limit), Slice(Reverse(matches), limit));
  }

  lemma {:induction false} SelectedAreListed<T>(rows: seq<Record<T>>, filter: Option<string>, limit: int,
      p: seq<int>, matches: seq<Record<T>>, at: seq<int>, listed: seq<Record<T>>)
    requires Selects(rows, filter, p, matches) && |p| == CountMatches(rows, filter)
    requires |at| == |listed| == Within(limit, |p|) <= |p|
    requires forall k :: 0 <= k < |at| ==> at[k] == p[|p| - 1 - k] && listed[k] == matches[|p| - 1 - k]
    ensures Lists(rows, filter, limit, listed, at)
  {
    hide Matches, Within, CountMatches;
    forall i | 0 <= i < |rows| && Matches(rows[i], filter)
      ensures i in at || forall k :: 0 <= k < |at| ==> i < at[k]
    {
      var j :| 0 <= j < |p| && p[j] == i;
      if |p| - 1 - j < |at| {
        assert at[|p| - 1 - j] == i;
      }
    }
  }

  lemma NewestFirstIs<T>(rows: seq<Record<T>>, filter: Option<string>, limit: int)
    ensures NewestFirst(rows, filter, limit) == Slice(Reverse(Matching(rows, filter)), limit)
  {
  }

  /** A save becomes the model's current row and leaves every other model's alone. */
  lemma LatestAfterInsert<T>(rows: seq<Record<T>>, modelId: string, body: T, other: string)
    ensures Latest(Insert(rows, modelId, body), other)
         == if other == modelId then Some(Record(|rows| + 1, modelId, body)) else Latest(rows, other)
  {
    ForModelAppend(rows, Record(|rows| + 1, modelId, body), other);
  }

  lemma {:induction false} IndexAfterLock(rows: seq<TunedConfig>, modelId: string, other: string)
    ensures LatestIndex(LockLatest(rows, modelId), other) == LatestIndex(rows, other)
  {
    SameModelsSameIndex(rows, LockLatest(rows, modelId), other);
  }

  lemma {:induction false} SameModelsSameIndex(a: seq<TunedConfig>, b: seq<TunedConfig>, modelId: string)
    requires |a| == |b| && forall i :: 0 <= i < |a| ==> a[i].modelId == b[i].modelId
    ensures LatestIndex(a, modelId) == LatestIndex(b, modelId)
  {
    if a != [] && a[|a| - 1].modelId != modelId {
      SameModelsSameIndex(a[..|a| - 1], b[..|b| - 1], modelId);
    }
  }

  /** Locking marks exactly the model's current row: same config, same id, every other model untouched. */
  lemma LatestAfterLock(rows: seq<TunedConfig>, modelId: string, other: string)
    ensures var before := Latest(rows, other);
      Latest(LockLatest(rows, modelId), other)
        == if before.Some? && other == modelId
           then Some(before.value.(body := before.value.body.(isLocked := true)))
           else before
  {
    LatestAtIndex(rows, other);
    LatestAtIndex(LockLatest(rows, modelId), other);
    IndexAfterLock(rows, modelId, other);
  }
}

/** The Storage interface on values: what each of its seven calls answers and leaves behind. */
module StorageInterface {
  import opened Domain
  import opened Tables

  datatype Store = Store(runs: seq<RunRecord>, configs: seq<TunedConfig>, events: seq<AutopilotEvent>) {
    function Rows(): nat {
      |runs| + |configs| + |events|
    }

    function Active(modelId: string): Option<Config> {
      match Latest(configs, modelId) case None => None case Some(row) => Some(row.body.config)
    }
  }

  datatype Request =
    | SaveRun(modelId: string, run: RunData)
    | ListRuns(filter: Option<string>, limit: int)
    | SaveTunedConfig(modelId: string, tuning: Tuning)
    | GetTunedConfig(modelId: string)
    | LockConfig(modelId: string)
    | SaveAutopilotEvent(modelId: string, details: Details)
    | ListAutopilotEvents(filter: Option<string>, limit: int)
  {
    predicate Saves() {
      SaveRun? || SaveTunedConfig? || SaveAutopilotEvent?
    }
  }

  datatype Answer =
    | RunSaved(run: RunRecord)
    | Runs(runs: seq<RunRecord>)
    | ConfigSaved(config: TunedConfig)
    | Current(current: Option<TunedConfig>)
    | Done
    | EventSaved(event: AutopilotEvent)
    | Events(events: seq<AutopilotEvent>)

  function After(store: Store, request: Request): (after: Store)
    ensures after.Rows() == store.Rows() + if request.Saves() then 1 else 0
  {
    match request
    case SaveRun(m, run) => store.(runs := Insert(store.runs, m, run))
    case SaveTunedConfig(m, tuning) => store.(configs := Insert(store.configs, m, tuning))
    case LockConfig(m) => store.(configs := LockLatest(store.configs, m))
    case SaveAutopilotEvent(m, details) => store.(events := Insert(store.events, m, details))
    case _ => store
  }

  function AnswerTo(store: Store, request: Request): Answer {
    match request
    case SaveRun(m, run) => RunSaved(Record(|store.runs| + 1, m, run))
    case ListRuns(filter, limit) => Runs(NewestFirst(store.runs, filter, limit))
    case SaveTunedConfig(m, tuning) => ConfigSaved(Record(|store.configs| + 1, m, tuning))
    case GetTunedConfig(m) => Current(Latest(store.configs, m))
    case LockConfig(_) => Done
    case SaveAutopilotEvent(m, details) => EventSaved(Record(|store.events| + 1, m, details))
    case ListAutopilotEvents(filter, limit) => Events(NewestFirst(store.events, filter, limit))
  }

  function AfterAll(store: Store, requests: seq<Request>): Store {
    if requests == [] then store
    else After(AfterAll(store, requests[..|requests| - 1]), requests[|requests| - 1])
  }
}

/** The in-memory store: three lists, mutated in place. */
module MemoryStorage {
  import opened Domain
  import opened Tables
  import opened StorageInterface

  class InMemoryStorage {
    var savedRuns: seq<RunRecord>
    var tunedConfigs: seq<TunedConfig>
    var autopilotEvents: seq<AutopilotEvent>

    constructor ()
      ensures savedRuns == [] && tunedConfigs == [] && autopilotEvents == []
    {
      savedRuns, tunedConfigs, autopilotEvents := [], [], [];
    }

    ghost function Contents(): Store
      reads this
    {
      Store(savedRuns, tunedConfigs, autopilotEvents)
    }

    method SaveRun(modelId: string, data: RunData) returns (saved: RunRecord)
      modifies this`savedRuns
      ensures savedRuns == Insert(old(savedRuns), modelId, data)
      ensures saved == Record(|old(savedRuns)| + 1, modelId, data)
    {
      saved := Record(|savedRuns| + 1, modelId, data);
      savedRuns := savedRuns + [saved];
    }

    method ListRuns(modelId: Option<string>, limit: int) returns (rows: seq<RunRecord>)
      ensures rows == NewestFirst(savedRuns, modelId, limit)
      ensures ListsNewest(savedRuns, modelId, limit, rows)
    {
      NewestFirstLists(savedRuns, modelId, limit);
      rows := NewestFirst(savedRuns, modelId, limit);
    }

    method SaveTunedConfig(modelId: string, tuning: Tuning) returns (saved: TunedConfig)
      modifies this`tunedConfigs
      ensures tunedConfigs == Insert(old(tunedConfigs), modelId, tuning)
      ensures saved == Record(|old(tunedConfigs)| + 1, modelId, tuning)
    {
      saved := Record(|tunedConfigs| + 1, modelId, tuning);
      tunedConfigs := tunedConfigs + [saved];
    }

    method GetTunedConfig(modelId: string) returns (current: Option<TunedConfig>)
      ensures current == Latest(tunedConfigs, modelId)
      ensures IsCurrent(tunedConfigs, modelId, current)
    {
      LatestIsCurrent(tunedConfigs, modelId);
      current := Latest(tunedConfigs, modelId);
    }

    method LockConfig(modelId: string)
      modifies this`tunedConfigs
      ensures tunedConfigs == LockLatest(old(tunedConfigs), modelId)
    {
      var i := |tunedConfigs| - 1;
      while 0 <= i
        invariant -1 <= i < |tunedConfigs|
        invariant tunedConfigs == old(tunedConfigs)
        invariant forall j :: i < j < |tunedConfigs| ==> tunedConfigs[j].modelId != modelId
      {
        if tunedConfigs[i].modelId == modelId {
          tunedConfigs := tunedConfigs[i := tunedConfigs[i].(body := tunedConfigs[i].body.(isLocked := true))];
          return;
        }
        i := i - 1;
      }
    }

    method SaveAutopilotEvent(modelId: string, details: Details) returns (saved: AutopilotEvent)
      modifies this`autopilotEvents
      ensures autopilotEvents == Insert(old(autopilotEvents), modelId, details)
      ensures saved == Record(|old(autopilotEvents)| + 1, modelId, details)
    {
      saved := Record(|autopilotEvents| + 1, modelId, details);
      autopilotEvents := autopilotEvents + [saved];
    }

    method ListAutopilotEvents(modelId: Option<string>, limit: int) returns (rows: seq<AutopilotEvent>)
      ensures rows == NewestFirst(autopilotEvents, modelId, limit)
      ensures ListsNewest(autopilotEvents, modelId, limit, rows)
    {
      NewestFirstLists(autopilotEvents, modelId, limit);
      rows := NewestFirst(autopilotEvents, modelId, limit);
    }

    /** Any of the calls by name. */
    method Serve(request: Request) returns (answer: Answer)
      modifies this
      ensures Contents() == After(old(Contents()), request)
      ensures answer == AnswerTo(old(Contents()), request)
    {
      match request
      case SaveRun(m, run) =>
        var saved := SaveRun(m, run);
        answer := RunSaved(saved);
      case ListRuns(filter, limit) =>
        var rows := ListRuns(filter, limit);
        answer := Runs(rows);
      case SaveTunedConfig(m, tuning) =>
        var saved := SaveTunedConfig(m, tuning);
        answer := ConfigSaved(saved);
      case GetTunedConfig(m) =>
        var current := GetTunedConfig(m);
        answer := Current(current);
      case LockConfig(m) =>
        LockConfig(m);
        answer := Done;
      case SaveAutopilotEvent(m, details) =>
        var saved := SaveAutopilotEvent(m, details);
        answer := EventSaved(saved);
      case ListAutopilotEvents(filter, limit) =>
        var rows := ListAutopilotEvents(filter, limit);
        answer := Events(rows);
    }

    method ServeAll(requests: seq<Request>)
      modifies this
      ensures Contents() == AfterAll(old(Contents()), requests)
    {
      for i := 0 to |requests|
        invariant Contents() == AfterAll(old(Contents()), requests[..i])
      {
        assert requests[..i + 1][..i] == requests[..i];
        var _ := Serve(requests[i]);
      }
      assert requests[..|requests|] == requests;
    }
  }
}
