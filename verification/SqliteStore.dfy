/** The SQL reading of "latest": order by creation time, then id, both descending. */
module SqliteStore {
  import opened Domain
  import opened Tables
  import opened StorageInterface

  /** A table row with the creation time the database set on insert. */
  datatype Row<+T> = Row(createdAt: int, record: Record<T>)

  datatype Database = Database(runs: seq<Row<RunData>>, configs: seq<Row<Tuning>>, events: seq<Row<Details>>)

  predicate Newer<T>(a: Row<T>, b: Row<T>) {
    b.createdAt < a.createdAt || (a.createdAt == b.createdAt && b.record.id < a.record.id)
  }

  function InsertDescending<T>(r: Row<T>, s: seq<Row<T>>): seq<Row<T>> {
    if s == [] || !Newer(s[0], r) then [r] + s else [s[0]] + InsertDescending(r, s[1..])
  }

  /** ORDER BY created_at DESC, id DESC. */
  function OrderDescending<T>(rows: seq<Row<T>>): seq<Row<T>> {
    if rows == [] then [] else InsertDescending(rows[0], OrderDescending(rows[1..]))
  }

  /** LIMIT ?, where a negative bound means no limit. */
  function SqlLimit<T>(rows: seq<T>, limit: int): seq<T> {
    if limit < 0 || |rows| <= limit then rows else rows[..limit]
  }

  /** WHERE model_id = ?. */
  function Where<T>(rows: seq<Row<T>>, modelId: string): seq<Row<T>> {
    if rows == [] then []
    else
      var last := rows[|rows| - 1];
      Where(rows[..|rows| - 1], modelId) + if last.record.modelId == modelId then [last] else []
  }

  /** The list queries: a missing or empty model id selects every row. */
  function SelectNewest<T>(rows: seq<Row<T>>, modelId: Option<string>, limit: int): seq<Row<T>> {
    var matches := if modelId.None? || modelId.value == "" then rows else Where(rows, modelId.value);
    SqlLimit(OrderDescending(matches), limit)
  }

  function SelectCurrent<T>(rows: seq<Row<T>>, modelId: string): Option<Row<T>> {
    var found := SqlLimit(OrderDescending(Where(rows, modelId)), 1);
    if found == [] then None else Some(found[0])
  }

  function InsertRow<T>(rows: seq<Row<T>>, now: int, modelId: string, body: T): seq<Row<T>> {
    rows + [Row(now, Record(|rows| + 1, modelId, body))]
  }

  /** UPDATE ... WHERE model_id = ? AND id = (the current row's id). */
  function UpdateLock(rows: seq<Row<Tuning>>, modelId: string): (updated: seq<Row<Tuning>>)
    ensures |updated| == |rows|
  {
    var current := SelectCurrent(rows, modelId);
    seq(|rows|, i requires 0 <= i < |rows| =>
      if rows[i].record.modelId == modelId && current.Some? && rows[i].record.id == current.value.record.id
      then Locked(rows[i])
      else rows[i])
  }

  function Erase<T>(rows: seq<Row<T>>): (records: seq<Record<T>>)
    ensures |records| == |rows|
    ensures forall i :: 0 <= i < |rows| ==> records[i] == rows[i].record
  {
    if rows == [] then [] else Erase(rows[..|rows| - 1]) + [rows[|rows| - 1].record]
  }

  /** The database itself: each call runs at a time the clock gives. */
  class Sqlite {
    var runs: seq<Row<RunData>>
    var configs: seq<Row<Tuning>>
    var events: seq<Row<Details>>

    constructor ()
      ensures Contents() == Database([], [], [])
    {
      runs, configs, events := [], [], [];
    }

    ghost function Contents(): Database
      reads this
    {
      Database(runs, configs, events)
    }

    method SaveRun(now: int, modelId: string, run: RunData) returns (saved: Row<RunData>)
      modifies this`runs
      ensures runs == InsertRow(old(runs), now, modelId, run)
      ensures saved == Row(now, Record(|old(runs)| + 1, modelId, run)) && runs == old(runs) + [saved]
    {
      saved := Row(now, Record(|runs| + 1, modelId, run));
      runs := runs + [saved];
    }

    method ListRuns(modelId: Option<string>, limit: int) returns (rows: seq<Row<RunData>>)
      ensures rows == SelectNewest(runs, modelId, limit)
    {
      rows := SelectNewest(runs, modelId, limit);
    }

    method SaveTunedConfig(now: int, modelId: string, tuning: Tuning) returns (saved: Row<Tuning>)
      modifies this`configs
      ensures configs == InsertRow(old(configs), now, modelId, tuning)
      ensures saved == Row(now, Record(|old(configs)| + 1, modelId, tuning)) && configs == old(configs) + [saved]
    {
      saved := Row(now, Record(|configs| + 1, modelId, tuning));
      configs := configs + [saved];
    }

    method GetTunedConfig(modelId: string) returns (current: Option<Row<Tuning>>)
      ensures current == SelectCurrent(configs, modelId)
    {
      current := SelectCurrent(configs, modelId);
    }

    method LockConfig(modelId: string)
      modifies this`configs
      ensures configs == UpdateLock(old(configs), modelId)
      ensures LocksNewest(old(configs), configs, modelId)
    {
      UpdateLocksNewest(configs, modelId);
      configs := UpdateLock(configs, modelId);
    }

    method SaveAutopilotEvent(now: int, modelId: string, details: Details) returns (saved: Row<Details>)
      modifies this`events
      ensures events == InsertRow(old(events), now, modelId, details)
      ensures saved == Row(now, Record(|old(events)| + 1, modelId, details)) && events == old(events) + [saved]
    {
      saved := Row(now, Record(|events| + 1, modelId, details));
      events := events + [saved];
    }

    method ListAutopilotEvents(modelId: Option<string>, limit: int) returns (rows: seq<Row<Details>>)
      ensures rows == SelectNewest(events, modelId, limit)
    {
      rows := SelectNewest(events, modelId, limit);
    }

    method Serve(now: int, request: Request) returns (answer: Answer)
      modifies this
      ensures Contents() == SqlAfter(old(Contents()), now, request)
      ensures answer == SqlAnswerTo(old(Contents()), now, request)
    {
      match request
      case SaveRun(m, run) =>
        var saved := SaveRun(now, m, run);
        answer := RunSaved(saved.record);
      case ListRuns(filter, limit) =>
        var rows := ListRuns(filter, limit);
        answer := Runs(Erase(rows));
      case SaveTunedConfig(m, tuning) =>
        var saved := SaveTunedConfig(now, m, tuning);
        answer := ConfigSaved(saved.record);
      case GetTunedConfig(m) =>
        var current := GetTunedConfig(m);
        answer := Current(Bare(current));
      case LockConfig(m) =>
        LockConfig(m);
        answer := Done;
      case SaveAutopilotEvent(m, details) =>
        var saved := SaveAutopilotEvent(now, m, details);
        answer := EventSaved(saved.record);
      case ListAutopilotEvents(filter, limit) =>
        var rows := ListAutopilotEvents(filter, limit);
        answer := Events(Erase(rows));
    }
  }

  function Bare<T>(row: Option<Row<T>>): Option<Record<T>> {
    match row case None => None case Some(r) => Some(r.record)
  }

  function SqlAfter(db: Database, now: int, request: Request): Database {
    match request
    case SaveRun(m, run) => db.(runs := InsertRow(db.runs, now, m, run))
    case SaveTunedConfig(m, tuning) => db.(configs := InsertRow(db.configs, now, m, tuning))
    case LockConfig(m) => db.(configs := UpdateLock(db.configs, m))
    case SaveAutopilotEvent(m, details) => db.(events := InsertRow(db.events, now, m, details))
    case _ => db
  }

  function SqlAnswerTo(db: Database, now: int, request: Request): Answer {
    match request
    case SaveRun(m, run) => RunSaved(Record(|db.runs| + 1, m, run))
    case ListRuns(filter, limit) => Runs(Erase(SelectNewest(db.runs, filter, limit)))
    case SaveTunedConfig(m, tuning) => ConfigSaved(Record(|db.configs| + 1, m, tuning))
    case GetTunedConfig(m) => Current(Bare(SelectCurrent(db.configs, m)))
    case LockConfig(_) => Done
    case SaveAutopilotEvent(m, details) => EventSaved(Record(|db.events| + 1, m, details))
    case ListAutopilotEvents(filter, limit) => Events(Erase(SelectNewest(db.events, filter, limit)))
  }

  /** `a` was created before `b`, or at the same time with no higher an id. */
  ghost predicate NoNewer<T>(a: Row<T>, b: Row<T>) {
    a.createdAt < b.createdAt || (a.createdAt == b.createdAt && a.record.id <= b.record.id)
  }

  /** `top` is a row of this model that no other row of it is newer than. */
  ghost predicate IsNewest<T>(rows: seq<Row<T>>, modelId: string, top: Row<T>) {
    && top in rows && top.record.modelId == modelId
    && forall i :: 0 <= i < |rows| && rows[i].record.modelId == modelId ==> NoNewer(rows[i], top)
  }

  /**
   * The rows of this model with its newest row's id are locked, all others as before; nothing changes without such a
   * row.
   */
  ghost predicate LocksNewest(before: seq<Row<Tuning>>, after: seq<Row<Tuning>>, modelId: string) {
    if forall i :: 0 <= i < |before| ==> before[i].record.modelId != modelId then after == before
    else
      exists top :: IsNewest(before, modelId, top) && LocksId(before, after, modelId, top.record.id)
  }

  ghost predicate LocksId(before: seq<Row<Tuning>>, after: seq<Row<Tuning>>, modelId: string, id: nat) {
    && |after| == |before|
    && forall i :: 0 <= i < |before| ==>
         after[i] == if before[i].record.modelId == modelId && before[i].record.id == id then Locked(before[i]) else before[i]
  }

  lemma {:induction false} InsertMembers<T>(r: Row<T>, s: seq<Row<T>>, x: Row<T>)
    ensures x in InsertDescending(r, s) <==> x == r || x in s
  {
    if s != [] {
      assert s == [s[0]] + s[1..];
      InsertMembers(r, s[1..], x);
    }
  }

  lemma {:induction false} OrderMembers<T>(rows: seq<Row<T>>, x: Row<T>)
    ensures x in OrderDescending(rows) <==> x in rows
  {
    if rows != [] {
      assert rows == [rows[0]] + rows[1..];
      OrderMembers(rows[1..], x);
      InsertMembers(rows[0], OrderDescending(rows[1..]), x);
    }
  }

  /** The first row of the ordered rows is one that none is newer than. */
  lemma {:induction false} OrderHead<T>(rows: seq<Row<T>>, x: Row<T>)
    requires x in rows
    ensures var ordered := OrderDescending(rows); ordered != [] && !Newer(x, ordered[0])
  {
    assert rows == [rows[0]] + rows[1..];
    var rest := OrderDescending(rows[1..]);
    if rest != [] {
      OrderMembers(rows[1..], rest[0]);
      OrderHead(rows[1..], rest[0]);
    }
    if x in rows[1..] {
      OrderHead(rows[1..], x);
    }
  }

  lemma {:induction false} WhereMembers<T>(rows: seq<Row<T>>, modelId: string, x: Row<T>)
    ensures x in Where(rows, modelId) <==> x in rows && x.record.modelId == modelId
  {
    if rows != [] {
      var n := |rows| - 1;
      assert rows == rows[..n] + [rows[n]];
      WhereMembers(rows[..n], modelId, x);
    }
  }

  /** The current row, as the query finds it whatever the order of the table: the newest of its model, if it has any. */
  lemma {:induction false} CurrentIsNewest<T>(rows: seq<Row<T>>, modelId: string)
    ensures var current := SelectCurrent(rows, modelId);
      if forall i :: 0 <= i < |rows| ==> rows[i].record.modelId != modelId then current == None
      else current.Some? && IsNewest(rows, modelId, current.value)
  {
    hide Where, OrderDescending;
    var matches := Where(rows, modelId);
    var ordered := OrderDescending(matches);
    if ordered != [] {
      OrderMembers(matches, ordered[0]);
      WhereMembers(rows, modelId, ordered[0]);
    }
    forall i | 0 <= i < |rows| && rows[i].record.modelId == modelId
      ensures ordered != [] && !Newer(rows[i], ordered[0])
    {
      WhereMembers(rows, modelId, rows[i]);
      OrderHead(matches, rows[i]);
    }
  }

  /** The UPDATE locks the model's newest row and leaves all others alone. */
  lemma {:induction false} UpdateLocksNewest(rows: seq<Row<Tuning>>, modelId: string)
    ensures LocksNewest(rows, UpdateLock(rows, modelId), modelId)
  {
    hide SelectCurrent, IsNewest;
    CurrentIsNewest(rows, modelId);
    var current, updated := SelectCurrent(rows, modelId), UpdateLock(rows, modelId);
    if current.Some? {
      assert LocksId(rows, updated, modelId, current.value.record.id);
    }
  }

  /** Newest first, by creation time and then by id. */
  ghost predicate Descends<T>(rows: seq<Row<T>>) {
    forall i, j :: 0 <= i < j < |rows| ==> NoNewer(rows[j], rows[i])
  }

  lemma {:induction false} InsertDescends<T>(r: Row<T>, s: seq<Row<T>>)
    requires Descends(s)
    ensures Descends(InsertDescending(r, s)) && multiset(InsertDescending(r, s)) == multiset(s) + multiset{r}
  {
    if s != [] && Newer(s[0], r) {
      var rest := InsertDescending(r, s[1..]);
      InsertDescends(r, s[1..]);
      assert s == [s[0]] + s[1..];
      forall j | 0 <= j < |rest| ensures NoNewer(rest[j], s[0]) {
        InsertMembers(r, s[1..], rest[j]);
      }
      DescendsOneMore(s[0], rest);
    } else {
      DescendsOneMore(r, s);
    }
  }

  lemma DescendsOneMore<T>(r: Row<T>, s: seq<Row<T>>)
    requires Descends(s) && forall j :: 0 <= j < |s| ==> NoNewer(s[j], r)
    ensures Descends([r] + s)
  {
    hide NoNewer;
  }

  lemma {:induction false} OrderDescends<T>(rows: seq<Row<T>>)
    ensures Descends(OrderDescending(rows)) && multiset(OrderDescending(rows)) == multiset(rows)
  {
    if rows != [] {
      assert rows == [rows[0]] + rows[1..];
      OrderDescends(rows[1..]);
      InsertDescends(rows[0], OrderDescending(rows[1..]));
    }
  }

  lemma {:induction false} WhereCounts<T>(rows: seq<Row<T>>, modelId: string, x: Row<T>)
    ensures multiset(Where(rows, modelId))[x] == if x.record.modelId == modelId then multiset(rows)[x] else 0
  {
    if rows != [] {
      assert rows == rows[..|rows| - 1] + [rows[|rows| - 1]];
      WhereCounts(rows[..|rows| - 1], modelId, x);
    }
  }

  /** `listed` and then `rest` are the rows the filter lets through, newest first; the limit leaves out `rest`. */
  ghost predicate ListsByTime<T(!new)>(rows: seq<Row<T>>, filter: Option<string>, limit: int, listed: seq<Row<T>>,
                                 rest: seq<Row<T>>) {
    && Descends(listed + rest)
    && (forall x :: multiset(listed + rest)[x]
                 == if filter.None? || filter == Some("") || filter == Some(x.record.modelId) then multiset(rows)[x] else 0)
    && (limit < 0 ==> rest == [])
    && (0 <= limit ==> |listed| <= limit && (rest != [] ==> |listed| == limit))
  }

  /** A list query on any table, whatever its order: a missing or empty filter lets every row through. */
  lemma {:induction false} SelectExactly<T(!new)>(rows: seq<Row<T>>, filter: Option<string>, limit: int)
    returns (rest: seq<Row<T>>)
    ensures ListsByTime(rows, filter, limit, SelectNewest(rows, filter, limit), rest)
  {
    hide OrderDescending, Where, Descends, SqlLimit;
    var matches := if filter.None? || filter.value == "" then rows else Where(rows, filter.value);
    OrderDescends(matches);
    rest := LimitSplits(OrderDescending(matches), limit);
    forall x: Row<T>
      ensures multiset(matches)[x]
           == if filter.None? || filter == Some("") || filter == Some(x.record.modelId) then multiset(rows)[x] else 0
    {
      if filter.Some? && filter.value != "" {
        WhereCounts(rows, filter.value, x);
      }
    }
  }

  lemma LimitSplits<T>(rows: seq<T>, limit: int) returns (rest: seq<T>)
    ensures SqlLimit(rows, limit) + rest == rows
    ensures limit < 0 ==> rest == []
    ensures 0 <= limit ==> |SqlLimit(rows, limit)| <= limit && (rest != [] ==> |SqlLimit(rows, limit)| == limit)
  {
    rest := if limit < 0 || |rows| <= limit then [] else rows[limit..];
  }

  /** What the in-memory store would hold. */
  function Reference(db: Database): Store {
    Store(Erase(db.runs), Erase(db.configs), Erase(db.events))
  }

  /** Rows in insertion order are in time order, ties broken by their increasing ids; none is later than `now`. */
  ghost predicate InOrder<T>(rows: seq<Row<T>>, now: int) {
    && (forall i, j :: 0 <= i < j < |rows| ==>
          rows[i].createdAt <= rows[j].createdAt && rows[i].record.id < rows[j].record.id)
    && (forall i :: 0 <= i < |rows| ==> rows[i].createdAt <= now && rows[i].record.id <= |rows|)
  }

  ghost predicate WellKept(db: Database, now: int) {
    InOrder(db.runs, now) && InOrder(db.configs, now) && InOrder(db.events, now)
  }

  /** Each row is older than all that follow it: what ordering needs. */
  ghost predicate Ascending<T>(rows: seq<Row<T>>) {
    forall i, j :: 0 <= i < j < |rows| ==> Newer(rows[j], rows[i])
  }

  lemma {:induction false} InsertOldest<T>(r: Row<T>, s: seq<Row<T>>)
    requires forall i :: 0 <= i < |s| ==> Newer(s[i], r)
    ensures InsertDescending(r, s) == s + [r]
  {
    if s != [] {
      InsertOldest(r, s[1..]);
    }
  }

  /** Sorting rows that were inserted in order is reversing them. */
  lemma {:induction false} OrderIsReverse<T>(rows: seq<Row<T>>)
    requires Ascending(rows)
    ensures OrderDescending(rows) == Reverse(rows)
  {
    if rows != [] {
      OrderIsReverse(rows[1..]);
      InsertOldest(rows[0], Reverse(rows[1..]));
      assert Reverse(rows[1..]) + [rows[0]] == Reverse(rows);
    }
  }

  /** Each filtered row stands for one row of the table, in the same order. */
  lemma {:induction false} WhereAscends<T>(rows: seq<Row<T>>, modelId: string)
    requires Ascending(rows)
    ensures Ascending(Where(rows, modelId))
    ensures forall i :: 0 <= i < |Where(rows, modelId)| ==> Where(rows, modelId)[i] in rows
  {
    if rows != [] {
      var n := |rows| - 1;
      WhereAscends(rows[..n], modelId);
      var before := Where(rows[..n], modelId);
      forall i | 0 <= i < |before| ensures Newer(rows[n], before[i]) {
        assert before[i] in rows[..n];
      }
    }
  }

  lemma {:induction false} WhereIsForModel<T>(rows: seq<Row<T>>, modelId: string)
    ensures Erase(Where(rows, modelId)) == ForModel(Erase(rows), modelId)
  {
    if rows != [] {
      var n := |rows| - 1;
      WhereIsForModel(rows[..n], modelId);
      assert Erase(rows)[..n] == Erase(rows[..n]);
      var before := Where(rows[..n], modelId);
      assert (before + [rows[n]])[..|before|] == before && before + [] == before;
      assert ForModel(Erase(rows[..n]), modelId) + [] == ForModel(Erase(rows[..n]), modelId);
    }
  }

  lemma EraseReverse<T>(rows: seq<Row<T>>)
    ensures Erase(Reverse(rows)) == Reverse(Erase(rows))
  {
  }

  lemma EraseLimit<T>(rows: seq<Row<T>>, limit: int)
    ensures Erase(SqlLimit(rows, limit)) == SqlLimit(Erase(rows), limit)
  {
  }

  /** The rows a list query filters, with SQL's reading of an empty id. */
  function SqlMatching<T>(rows: seq<Record<T>>, modelId: Option<string>): seq<Record<T>> {
    if modelId == Some("") then rows else Matching(rows, modelId)
  }

  /** A list query is filter, reverse and limit, with SQL's own reading of an empty id and of a negative limit. */
  lemma {:induction false} SelectIsReverse<T>(rows: seq<Row<T>>, modelId: Option<string>, limit: int)
    requires Ascending(rows)
    ensures Erase(SelectNewest(rows, modelId, limit)) == SqlLimit(Reverse(SqlMatching(Erase(rows), modelId)), limit)
  {
    var matches := if modelId.None? || modelId.value == "" then rows else Where(rows, modelId.value);
    if modelId.Some? && modelId.value != "" {
      WhereAscends(rows, modelId.value);
      WhereIsForModel(rows, modelId.value);
    }
    OrderIsReverse(matches);
    EraseReverse(matches);
    EraseLimit(Reverse(matches), limit);
  }

  lemma {:induction false} LastMatch<T>(rows: seq<Row<T>>, modelId: string)
    ensures var i, matches := LatestIndex(Erase(rows), modelId), Where(rows, modelId);
      if i < 0 then matches == [] else matches != [] && matches[|matches| - 1] == rows[i]
  {
    hide Erase, LatestIndex;
    if rows != [] {
      var n := |rows| - 1;
      LastMatch(rows[..n], modelId);
      LatestIndexGrows(rows, modelId);
    }
  }

  lemma {:induction false} LatestIndexGrows<T>(rows: seq<Row<T>>, modelId: string)
    requires rows != []
    ensures var n := |rows| - 1;
      LatestIndex(Erase(rows), modelId)
      == if rows[n].record.modelId == modelId then n else LatestIndex(Erase(rows[..n]), modelId)
  {
    var n := |rows| - 1;
    assert Erase(rows)[..n] == Erase(rows[..n]);
    hide Erase;
  }

  lemma {:induction false} CurrentIsLatest<T>(rows: seq<Row<T>>, modelId: string)
    requires Ascending(rows)
    ensures Bare(SelectCurrent(rows, modelId)) == Latest(Erase(rows), modelId)
    ensures var i := LatestIndex(Erase(rows), modelId);
      SelectCurrent(rows, modelId) == if i < 0 then None else Some(rows[i])
  {
    hide Latest, LatestIndex, Where, OrderDescending, Reverse;
    LastMatch(rows, modelId);
    WhereAscends(rows, modelId);
    OrderIsReverse(Where(rows, modelId));
    LatestAtIndex(Erase(rows), modelId);
  }

  /** The UPDATE marks exactly the row the in-memory store marks. */
  lemma {:induction false} LockIsLockLatest(rows: seq<Row<Tuning>>, modelId: string)
    requires Ascending(rows) && forall i, j :: 0 <= i < j < |rows| ==> rows[i].record.id < rows[j].record.id
    ensures Erase(UpdateLock(rows, modelId)) == LockLatest(Erase(rows), modelId)
    ensures forall i :: 0 <= i < |rows| ==> UpdateLock(rows, modelId)[i].createdAt == rows[i].createdAt
    ensures forall i :: 0 <= i < |rows| ==> UpdateLock(rows, modelId)[i].record.id == rows[i].record.id
  {
    hide SelectCurrent, Latest, LatestIndex, Erase;
    CurrentIsLatest(rows, modelId);
    var top, updated := LatestIndex(Erase(rows), modelId), UpdateLock(rows, modelId);
    forall i | 0 <= i < |rows|
      ensures updated[i] == if i == top then Locked(rows[i]) else rows[i]
    {
      assert 0 <= top && rows[i].record.id == rows[top].record.id ==> i == top;
    }
    if 0 <= top {
      assert Erase(updated) == Erase(rows)[top := Locked(rows[top]).record];
    } else {
      assert updated == rows;
    }
  }

  function Locked(row: Row<Tuning>): Row<Tuning> {
    row.(record := row.record.(body := row.record.body.(isLocked := true)))
  }

  /** Filters and limits on which the two stores are meant to agree. */
  predicate Ordinary(request: Request) {
    match request
    case ListRuns(filter, limit) => filter != Some("") && 0 <= limit
    case ListAutopilotEvents(filter, limit) => filter != Some("") && 0 <= limit
    case _ => true
  }

  lemma InOrderAscends<T>(rows: seq<Row<T>>, now: int)
    requires InOrder(rows, now)
    ensures Ascending(rows)
  {
  }

  lemma InsertInOrder<T>(rows: seq<Row<T>>, before: int, now: int, modelId: string, body: T)
    requires InOrder(rows, before) && before <= now
    ensures InOrder(InsertRow(rows, now, modelId, body), now)
    ensures Erase(InsertRow(rows, now, modelId, body)) == Insert(Erase(rows), modelId, body)
  {
    assert InsertRow(rows, now, modelId, body)[..|rows|] == rows;
  }

  /** One call: the tables stay well kept and the reference store makes the same step. */
  lemma {:induction false} StepRefines(db: Database, before: int, now: int, request: Request)
    requires WellKept(db, before) && before <= now
    ensures WellKept(SqlAfter(db, now, request), now)
    ensures Reference(SqlAfter(db, now, request)) == After(Reference(db), request)
  {
    hide UpdateLock, LockLatest, InsertRow, Insert, InOrder, Erase;
    OrderLater(db.runs, before, now);
    OrderLater(db.configs, before, now);
    OrderLater(db.events, before, now);
    match request
    case SaveRun(m, run) => InsertInOrder(db.runs, before, now, m, run);
    case SaveTunedConfig(m, tuning) => InsertInOrder(db.configs, before, now, m, tuning);
    case SaveAutopilotEvent(m, details) => InsertInOrder(db.events, before, now, m, details);
    case LockConfig(m) => LockInOrder(db.configs, now, m);
    case _ =>
  }

  lemma OrderLater<T>(rows: seq<Row<T>>, before: int, now: int)
    requires InOrder(rows, before) && before <= now
    ensures InOrder(rows, now)
  {
  }

  lemma LockInOrder(rows: seq<Row<Tuning>>, now: int, modelId: string)
    requires InOrder(rows, now)
    ensures InOrder(UpdateLock(rows, modelId), now)
    ensures Erase(UpdateLock(rows, modelId)) == LockLatest(Erase(rows), modelId)
  {
    hide UpdateLock, LockLatest, Erase;
    InOrderAscends(rows, now);
    LockIsLockLatest(rows, modelId);
  }

  /** An ordinary list query is answered as the in-memory store answers it. */
  lemma {:induction false} ListRefines<T>(rows: seq<Row<T>>, now: int, filter: Option<string>, limit: nat)
    requires InOrder(rows, now) && filter != Some("")
    ensures Erase(SelectNewest(rows, filter, limit)) == NewestFirst(Erase(rows), filter, limit)
  {
    hide SelectNewest, NewestFirst, Erase, Matching;
    InOrderAscends(rows, now);
    ListsAgreeOnLimit(rows, filter, limit);
  }

  lemma {:induction false} AnswerRefines(db: Database, before: int, now: int, request: Request)
    requires WellKept(db, before) && Ordinary(request)
    ensures SqlAnswerTo(db, now, request) == AnswerTo(Reference(db), request)
  {
    hide SelectNewest, SelectCurrent, NewestFirst, Latest, Erase, InOrder;
    match request
    case ListRuns(filter, limit) => ListRefines(db.runs, before, filter, limit);
    case ListAutopilotEvents(filter, limit) => ListRefines(db.events, before, filter, limit);
    case GetTunedConfig(m) =>
      InOrderAscends(db.configs, before);
      CurrentIsLatest(db.configs, m);
    case _ =>
  }

  /** A request and the time it is served at. */
  datatype Timed = Timed(at: int, request: Request)

  function SqlAfterAll(db: Database, calls: seq<Timed>): Database {
    if calls == [] then db
    else
      var last := calls[|calls| - 1];
      SqlAfter(SqlAfterAll(db, calls[..|calls| - 1]), last.at, last.request)
  }

  function Requests(calls: seq<Timed>): (requests: seq<Request>)
    ensures |requests| == |calls|
  {
    if calls == [] then [] else Requests(calls[..|calls| - 1]) + [calls[|calls| - 1].request]
  }

  lemma {:induction false} TablesRefine(calls: seq<Timed>, now: int)
    requires forall i, j :: 0 <= i <= j < |calls| ==> calls[i].at <= calls[j].at
    requires forall i :: 0 <= i < |calls| ==> calls[i].at <= now
    ensures var db := SqlAfterAll(Database([], [], []), calls);
      WellKept(db, now) && Reference(db) == AfterAll(Store([], [], []), Requests(calls))
  {
    if calls != [] {
      hide SqlAfter, After, WellKept, Reference;
      var n := |calls| - 1;
      var before := SqlAfterAll(Database([], [], []), calls[..n]);
      TablesRefine(calls[..n], calls[n].at);
      StepRefines(before, calls[n].at, calls[n].at, calls[n].request);
      assert Requests(calls)[..n] == Requests(calls[..n]);
      StillKept(SqlAfter(before, calls[n].at, calls[n].request), calls[n].at, now);
    }
  }

  lemma StillKept(db: Database, before: int, now: int)
    requires WellKept(db, before) && before <= now
    ensures WellKept(db, now)
  {
  }

  /**
   * Over any sequence of calls at nondecreasing times, the database is the in-memory store with times attached, and
   * the next ordinary request gets the in-memory answer.
   */
  lemma {:induction false} SqliteRefinesMemory(calls: seq<Timed>, now: int, request: Request)
    requires forall i, j :: 0 <= i <= j < |calls| ==> calls[i].at <= calls[j].at
    requires forall i :: 0 <= i < |calls| ==> calls[i].at <= now
    requires Ordinary(request)
    ensures var db, store := SqlAfterAll(Database([], [], []), calls), AfterAll(Store([], [], []), Requests(calls));
      Reference(db) == store && SqlAnswerTo(db, now, request) == AnswerTo(store, request)
  {
    hide SqlAfterAll, SqlAnswerTo, AnswerTo, AfterAll, WellKept, Ordinary;
    TablesRefine(calls, now);
    AnswerRefines(SqlAfterAll(Database([], [], []), calls), now, now, request);
  }

  /** With a nonempty filter, the two list results agree exactly when the limit is not negative or nothing matches. */
  lemma {:induction false} ListsAgreeOnLimit<T>(rows: seq<Row<T>>, modelId: Option<string>, limit: int)
    requires Ascending(rows) && modelId != Some("")
    ensures Erase(SelectNewest(rows, modelId, limit)) == NewestFirst(Erase(rows), modelId, limit)
            <==> 0 <= limit || Matching(Erase(rows), modelId) == []
  {
    SelectIsReverse(rows, modelId, limit);
    hide SelectNewest;
    var found := Reverse(Matching(Erase(rows), modelId));
    if limit < 0 && found != [] {
      assert |Slice(found, limit)| < |found|;
    }
  }

  /**
   * With an empty filter they agree exactly when the newest rows within the limit all carry the empty id, or, for a
   * negative limit, when there are no rows at all.
   */
  lemma {:induction false} ListsAgreeOnEmptyId<T>(rows: seq<Row<T>>, limit: int)
    requires Ascending(rows)
    ensures Erase(SelectNewest(rows, Some(""), limit)) == NewestFirst(Erase(rows), Some(""), limit)
            <==> if limit < 0 then rows == []
                 else forall i :: 0 <= i < |rows| && |rows| - limit <= i ==> rows[i].record.modelId == ""
  {
    SelectIsReverse(rows, Some(""), limit);
    hide SelectNewest, ForModel, Reverse, SqlLimit, Slice, Erase;
    var all := Erase(rows);
    if limit < 0 {
      NegativeLimits(all, limit);
    } else if forall i :: 0 <= i < |rows| && |rows| - limit <= i ==> rows[i].record.modelId == "" {
      NewestAllOwn(all, limit);
    } else {
      var i :| 0 <= i < |rows| && |rows| - limit <= i && rows[i].record.modelId != "";
      ForeignRowShows(all, limit, i);
    }
  }

  lemma NegativeLimits<T>(all: seq<Record<T>>, limit: int)
    requires limit < 0
    ensures SqlLimit(Reverse(all), limit) == Slice(Reverse(ForModel(all, "")), limit) <==> all == []
  {
    hide ForModel, Reverse;
    MatchesAtMost(all, "");
    assert |SqlLimit(Reverse(all), limit)| == |all|;
    assert all != [] ==> |Slice(Reverse(ForModel(all, "")), limit)| < |all|;
  }

  lemma {:induction false} MatchesAtMost<T>(all: seq<Record<T>>, modelId: string)
    ensures |ForModel(all, modelId)| <= |all|
  {
    if all != [] {
      MatchesAtMost(all[..|all| - 1], modelId);
    }
  }

  lemma ForeignRowShows<T>(all: seq<Record<T>>, limit: nat, i: nat)
    requires |all| - limit <= i < |all| && all[i].modelId != ""
    ensures SqlLimit(Reverse(all), limit) != Slice(Reverse(ForModel(all, "")), limit)
  {
    hide ForModel, Reverse;
    var own := ForModel(all, "");
    var found, top := Slice(Reverse(own), limit), SqlLimit(Reverse(all), limit);
    forall j | 0 <= j < |found| ensures found[j].modelId == "" {
      assert found[j] == Reverse(own)[j] == own[|own| - 1 - j];
    }
    assert top[|all| - 1 - i] == Reverse(all)[|all| - 1 - i] == all[i];
  }

  function Take<T>(s: seq<T>, n: nat): seq<T> {
    if |s| <= n then s else s[..n]
  }

  lemma LimitsTake<T>(s: seq<T>, limit: nat)
    ensures SqlLimit(s, limit) == Take(s, limit) == Slice(s, limit)
  {
  }

  lemma TakeCons<T>(x: T, s: seq<T>, n: nat)
    requires 0 < n
    ensures Take([x] + s, n) == [x] + Take(s, n - 1)
  {
  }

  lemma NothingTaken<T>(all: seq<Record<T>>, limit: nat)
    requires all == [] || limit == 0
    ensures Take(Reverse(all), limit) == Take(Reverse(ForModel(all, "")), limit)
  {
  }

  lemma {:induction false} NewestTaken<T>(all: seq<Record<T>>, limit: nat)
    requires forall i :: 0 <= i < |all| && |all| - limit <= i ==> all[i].modelId == ""
    ensures Take(Reverse(all), limit) == Take(Reverse(ForModel(all, "")), limit)
  {
    hide Take, Reverse, ForModel;
    if all == [] || limit == 0 {
      NothingTaken(all, limit);
    } else {
      var earlier, last := all[..|all| - 1], all[|all| - 1];
      assert all == earlier + [last] && last.modelId == "";
      forall i | 0 <= i < |earlier| && |earlier| - (limit - 1) <= i ensures earlier[i].modelId == "" {
        assert earlier[i] == all[i];
      }
      NewestTaken(earlier, limit - 1);
      ForModelAppend(earlier, last, "");
      ReverseAppend(earlier, last);
      ReverseAppend(ForModel(earlier, ""), last);
      TakeCons(last, Reverse(earlier), limit);
      TakeCons(last, Reverse(ForModel(earlier, "")), limit);
    }
  }

  lemma {:induction false} NewestAllOwn<T>(all: seq<Record<T>>, limit: nat)
    requires forall i :: 0 <= i < |all| && |all| - limit <= i ==> all[i].modelId == ""
    ensures SqlLimit(Reverse(all), limit) == Slice(Reverse(ForModel(all, "")), limit)
  {
    hide Reverse, ForModel;
    NewestTaken(all, limit);
    LimitsTake(Reverse(all), limit);
    LimitsTake(Reverse(ForModel(all, "")), limit);
  }

  lemma ReverseAppend<T>(s: seq<T>, x: T)
    ensures Reverse(s + [x]) == [x] + Reverse(s)
  {
  }
}
