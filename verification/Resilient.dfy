/** A primary store with a fallback behind it. */
module Resilient {
  import opened Domain
  import opened Tables
  import opened StorageInterface
  import opened MemoryStorage

  /** How a call on the primary goes: it may raise before doing anything, or only after its work is committed. */
  datatype Attempt = Works | RaisesBefore | RaisesAfter

  /** Which calls go how: the primary's by call number, the fallback's by the number of calls it has had. */
  datatype Outages = Outages(primary: nat -> Attempt, fallbackRaises: nat -> bool)

  class FallbackStorage {
    const primary: InMemoryStorage
    const fallback: InMemoryStorage
    const outages: Outages
    var lastUsedFallback: bool
    var calls: nat
    var fallbackCalls: nat

    constructor (primary: InMemoryStorage, fallback: InMemoryStorage, outages: Outages)
      requires primary != fallback
      ensures this.primary == primary && this.fallback == fallback && this.outages == outages
      ensures View() == Pair(primary.Contents(), fallback.Contents(), false, 0, 0)
    {
      this.primary, this.fallback, this.outages := primary, fallback, outages;
      lastUsedFallback, calls, fallbackCalls := false, 0, 0;
    }

    ghost function View(): Pair
      reads this, primary, fallback
    {
      Pair(primary.Contents(), fallback.Contents(), lastUsedFallback, calls, fallbackCalls)
    }

    /**
     * Any of the interface's calls: try the primary; on any exception use the fallback, whose own exception goes to
     * the caller.
     */
    method Call(request: Request) returns (answer: Option<Answer>)
      requires primary != fallback
      modifies this, primary, fallback
      ensures View() == AfterCall(outages, old(View()), request)
      ensures answer == AnswerFrom(outages, old(View()), request)
    {
      hide After, AnswerTo;
      var attempt := outages.primary(calls);
      calls := calls + 1;
      if attempt != RaisesBefore {
        var result := primary.Serve(request);
        if attempt == Works {
          lastUsedFallback := false;
          return Some(result);
        }
      }
      lastUsedFallback := true;
      var raises := outages.fallbackRaises(fallbackCalls);
      fallbackCalls := fallbackCalls + 1;
      if raises {
        return None;
      }
      var result := fallback.Serve(request);
      return Some(result);
    }
  }

  datatype Pair = Pair(primary: Store, fallback: Store, lastUsedFallback: bool, calls: nat, fallbackCalls: nat) {
    function Rows(): nat {
      primary.Rows() + fallback.Rows()
    }
  }

  /** The fallback is asked and serves the call. */
  predicate FallbackServes(o: Outages, p: Pair) {
    o.primary(p.calls) != Works && !o.fallbackRaises(p.fallbackCalls)
  }

  /** The call's work is done in the primary, whether or not the primary then raises. */
  predicate PrimaryCommits(o: Outages, p: Pair) {
    o.primary(p.calls) != RaisesBefore
  }

  function AfterCall(o: Outages, p: Pair, request: Request): Pair {
    var asked := o.primary(p.calls) != Works;
    Pair(if PrimaryCommits(o, p) then After(p.primary, request) else p.primary,
      if FallbackServes(o, p) then After(p.fallback, request) else p.fallback,
      asked, p.calls + 1, p.fallbackCalls + if asked then 1 else 0)
  }

  /** None when the exception reaches the caller. */
  function AnswerFrom(o: Outages, p: Pair, request: Request): Option<Answer> {
    if o.primary(p.calls) == Works then Some(AnswerTo(p.primary, request))
    else if o.fallbackRaises(p.fallbackCalls) then None
    else Some(AnswerTo(p.fallback, request))
  }

  function AfterCalls(o: Outages, p: Pair, requests: seq<Request>): Pair {
    if requests == [] then p
    else AfterCall(o, AfterCalls(o, p, requests[..|requests| - 1]), requests[|requests| - 1])
  }

  /** The answer to the last of these calls. */
  function LastAnswer(o: Outages, p: Pair, requests: seq<Request>): Option<Answer>
    requires requests != []
  {
    AnswerFrom(o, AfterCalls(o, p, requests[..|requests| - 1]), requests[|requests| - 1])
  }

  /** How many save calls returned to the caller. */
  function SavesReturned(o: Outages, p: Pair, requests: seq<Request>): nat {
    if requests == [] then 0
    else
      SavesReturned(o, p, requests[..|requests| - 1])
      + if requests[|requests| - 1].Saves() && LastAnswer(o, p, requests).Some? then 1 else 0
  }

  /** How many save calls the primary committed and then raised on. */
  function SavesDoubled(o: Outages, p: Pair, requests: seq<Request>): nat {
    if requests == [] then 0
    else
      var before := AfterCalls(o, p, requests[..|requests| - 1]);
      SavesDoubled(o, p, requests[..|requests| - 1])
      + if requests[|requests| - 1].Saves() && o.primary(before.calls) == RaisesAfter then 1 else 0
  }

  /**
   * Conservation. The rows in both stores together are the initial ones, one per save that returned, and one more for
   * each save the primary committed before raising; so nothing that returned is lost, and with clean failures nothing
   * is stored twice.
   */
  lemma {:induction false} RowsConserved(o: Outages, p: Pair, requests: seq<Request>)
    ensures AfterCalls(o, p, requests).Rows()
         == p.Rows() + SavesReturned(o, p, requests) + SavesDoubled(o, p, requests)
  {
    if requests != [] {
      RowsConserved(o, p, requests[..|requests| - 1]);
    }
  }

  lemma {:induction false} CleanFailuresNeverDouble(o: Outages, p: Pair, requests: seq<Request>)
    requires forall i :: o.primary(i) != RaisesAfter
    ensures AfterCalls(o, p, requests).Rows() == p.Rows() + SavesReturned(o, p, requests)
  {
    RowsConserved(o, p, requests);
    NeverDoubled(o, p, requests);
  }

  lemma {:induction false} NeverDoubled(o: Outages, p: Pair, requests: seq<Request>)
    requires forall i :: o.primary(i) != RaisesAfter
    ensures SavesDoubled(o, p, requests) == 0
  {
    if requests != [] {
      NeverDoubled(o, p, requests[..|requests| - 1]);
    }
  }

  /** The requests whose work the primary did: those it did not raise on at once. */
  function ToPrimary(o: Outages, at: nat, requests: seq<Request>): seq<Request> {
    if requests == [] then []
    else
      var n := |requests| - 1;
      ToPrimary(o, at, requests[..n]) + if o.primary(at + n) == RaisesBefore then [] else [requests[n]]
  }

  /** How many of these calls went on to the fallback. */
  function Passed(o: Outages, at: nat, requests: seq<Request>): nat {
    if requests == [] then 0
    else
      var n := |requests| - 1;
      Passed(o, at, requests[..n]) + if o.primary(at + n) == Works then 0 else 1
  }

  /** The requests whose work the fallback did: those the primary raised on, early or late, and it did not. */
  function ToFallback(o: Outages, at: nat, passed: nat, requests: seq<Request>): seq<Request> {
    if requests == [] then []
    else
      var n := |requests| - 1;
      var raises := o.fallbackRaises(passed + Passed(o, at, requests[..n]));
      ToFallback(o, at, passed, requests[..n]) + if o.primary(at + n) == Works || raises then [] else [requests[n]]
  }

  lemma {:induction false} CallsPassed(o: Outages, p: Pair, requests: seq<Request>)
    ensures AfterCalls(o, p, requests).fallbackCalls == p.fallbackCalls + Passed(o, p.calls, requests)
  {
    hide After;
    if requests != [] {
      CallsCounted(o, p, requests[..|requests| - 1]);
      CallsPassed(o, p, requests[..|requests| - 1]);
    }
  }

  lemma {:induction false} PrimaryHolds(o: Outages, p: Pair, requests: seq<Request>)
    ensures AfterCalls(o, p, requests).primary == AfterAll(p.primary, ToPrimary(o, p.calls, requests))
  {
    hide After, AfterCall;
    if requests != [] {
      var n := |requests| - 1;
      PrimaryHolds(o, p, requests[..n]);
      CallsCounted(o, p, requests[..n]);
      CallEffects(o, AfterCalls(o, p, requests[..n]), requests[n]);
      AfterOneMore(p.primary, ToPrimary(o, p.calls, requests[..n]), requests[n]);
    }
  }

  lemma {:induction false} FallbackHolds(o: Outages, p: Pair, requests: seq<Request>)
    ensures AfterCalls(o, p, requests).fallback
         == AfterAll(p.fallback, ToFallback(o, p.calls, p.fallbackCalls, requests))
  {
    hide After, AfterCall, Passed;
    if requests != [] {
      var n := |requests| - 1;
      FallbackHolds(o, p, requests[..n]);
      CallsCounted(o, p, requests[..n]);
      CallsPassed(o, p, requests[..n]);
      CallEffects(o, AfterCalls(o, p, requests[..n]), requests[n]);
      AfterOneMore(p.fallback, ToFallback(o, p.calls, p.fallbackCalls, requests[..n]), requests[n]);
    }
  }

  /** Over any calls each store is the result of just the requests whose work it did, in order. */
  lemma {:induction false} StoresHoldTheirCalls(o: Outages, p: Pair, requests: seq<Request>)
    ensures var q := AfterCalls(o, p, requests);
      && q.primary == AfterAll(p.primary, ToPrimary(o, p.calls, requests))
      && q.fallback == AfterAll(p.fallback, ToFallback(o, p.calls, p.fallbackCalls, requests))
      && q.calls == p.calls + |requests|
      && q.fallbackCalls == p.fallbackCalls + Passed(o, p.calls, requests)
  {
    hide AfterCalls, AfterAll, ToPrimary, ToFallback, Passed;
    PrimaryHolds(o, p, requests);
    FallbackHolds(o, p, requests);
    CallsCounted(o, p, requests);
    CallsPassed(o, p, requests);
  }

  lemma AfterOneMore(store: Store, requests: seq<Request>, request: Request)
    ensures AfterAll(store, requests + [request]) == After(AfterAll(store, requests), request)
    ensures AfterAll(store, requests + []) == AfterAll(store, requests)
  {
    assert (requests + [request])[..|requests|] == requests && requests + [] == requests;
  }

  lemma CallEffects(o: Outages, p: Pair, request: Request)
    ensures var q := AfterCall(o, p, request);
      var worked := o.primary(p.calls) == Works;
      && q.primary == (if o.primary(p.calls) == RaisesBefore then p.primary else After(p.primary, request))
      && q.fallback == (if worked || o.fallbackRaises(p.fallbackCalls) then p.fallback else After(p.fallback, request))
      && q.calls == p.calls + 1 && q.fallbackCalls == p.fallbackCalls + if worked then 0 else 1
  {
    hide After;
  }

  /**
   * The answer to a call after any others: the primary's when it works; else the fallback's, on what that store holds;
   * an exception only when both raise.
   */
  lemma {:induction false} AnsweredExactly(o: Outages, p: Pair, earlier: seq<Request>, request: Request)
    ensures var at, passed := p.calls + |earlier|, p.fallbackCalls + Passed(o, p.calls, earlier);
      LastAnswer(o, p, earlier + [request])
      == if o.primary(at) == Works
         then Some(AnswerTo(AfterAll(p.primary, ToPrimary(o, p.calls, earlier)), request))
         else if o.fallbackRaises(passed) then None
         else Some(AnswerTo(AfterAll(p.fallback, ToFallback(o, p.calls, p.fallbackCalls, earlier)), request))
  {
    hide AfterCall, AfterCalls, AnswerTo, AfterAll, ToPrimary, ToFallback, Passed;
    assert (earlier + [request])[..|earlier|] == earlier;
    StoresHoldTheirCalls(o, p, earlier);
  }

  /** The flag tells how the primary fared on the latest call, and is untouched by earlier ones. */
  lemma {:induction false} FlagIsLatestAttempt(o: Outages, p: Pair, requests: seq<Request>)
    requires requests != []
    ensures AfterCalls(o, p, requests).lastUsedFallback <==> o.primary(p.calls + |requests| - 1) != Works
  {
    CallsCounted(o, p, requests[..|requests| - 1]);
  }

  lemma {:induction false} CallsCounted(o: Outages, p: Pair, requests: seq<Request>)
    ensures AfterCalls(o, p, requests).calls == p.calls + |requests|
  {
    if requests != [] {
      CallsCounted(o, p, requests[..|requests| - 1]);
    }
  }

  /** A primary that is always up: the wrapper behaves as the primary alone and never touches the fallback. */
  lemma {:induction false} AlwaysUpIsPrimary(o: Outages, p: Pair, requests: seq<Request>)
    requires forall i :: o.primary(i) == Works
    ensures AfterCalls(o, p, requests).primary == AfterAll(p.primary, requests)
    ensures AfterCalls(o, p, requests).fallback == p.fallback
    ensures requests != [] ==>
              LastAnswer(o, p, requests)
              == Some(AnswerTo(AfterAll(p.primary, requests[..|requests| - 1]), requests[|requests| - 1]))
  {
    if requests != [] {
      AlwaysUpIsPrimary(o, p, requests[..|requests| - 1]);
    }
  }

  /** A primary that is always down, over a working fallback: the wrapper behaves as the fallback alone. */
  lemma {:induction false} AlwaysDownIsFallback(o: Outages, p: Pair, requests: seq<Request>)
    requires forall i :: o.primary(i) == RaisesBefore
    requires forall i :: !o.fallbackRaises(i)
    ensures AfterCalls(o, p, requests).fallback == AfterAll(p.fallback, requests)
    ensures AfterCalls(o, p, requests).primary == p.primary
    ensures requests != [] ==>
              LastAnswer(o, p, requests)
              == Some(AnswerTo(AfterAll(p.fallback, requests[..|requests| - 1]), requests[|requests| - 1]))
  {
    if requests != [] {
      AlwaysDownIsFallback(o, p, requests[..|requests| - 1]);
    }
  }

  /**
   * A lock placed through the wrapper and read back through it. The reader sees a locked config exactly when the lock
   * reached the store that answers it, or that store's row was locked already; a lock that went only to the other
   * store is silently missed.
   */
  lemma {:induction false} LockSeenExactly(o: Outages, p: Pair, modelId: string)
    requires var q := AfterCall(o, p, Request.LockConfig(modelId));
      AnswerFrom(o, q, Request.GetTunedConfig(modelId)).Some?
    ensures var q := AfterCall(o, p, Request.LockConfig(modelId));
      var read := AnswerFrom(o, q, Request.GetTunedConfig(modelId)).value.current;
      var fromPrimary := o.primary(q.calls) == Works;
      var before := Latest(if fromPrimary then p.primary.configs else p.fallback.configs, modelId);
      && (read.Some? <==> before.Some?)
      && (read.Some? ==>
            && read.value.body.config == before.value.body.config
            && (read.value.body.isLocked <==>
                  before.value.body.isLocked
                  || (if fromPrimary then PrimaryCommits(o, p) else FallbackServes(o, p))))
  {
    hide Latest, LockLatest;
    LatestAfterLock(p.primary.configs, modelId, modelId);
    LatestAfterLock(p.fallback.configs, modelId, modelId);
  }

  /**
   * A read after a save sees the saved row when the save reached the store that answers it, and otherwise that
   * store's older row.
   */
  lemma {:induction false} SaveSeenExactly(o: Outages, p: Pair, modelId: string, tuning: Tuning)
    requires var q := AfterCall(o, p, Request.SaveTunedConfig(modelId, tuning));
      AnswerFrom(o, q, Request.GetTunedConfig(modelId)).Some?
    ensures var q := AfterCall(o, p, Request.SaveTunedConfig(modelId, tuning));
      var read := AnswerFrom(o, q, Request.GetTunedConfig(modelId)).value.current;
      var fromPrimary := o.primary(q.calls) == Works;
      var rows := if fromPrimary then p.primary.configs else p.fallback.configs;
      read == if (if fromPrimary then PrimaryCommits(o, p) else FallbackServes(o, p))
              then Some(Record(|rows| + 1, modelId, tuning))
              else Latest(rows, modelId)
  {
    hide Latest, Insert;
    LatestAfterInsert(p.primary.configs, modelId, tuning, modelId);
    LatestAfterInsert(p.fallback.configs, modelId, tuning, modelId);
  }
}
