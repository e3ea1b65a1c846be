/** The rolling 24-hour cap on adjustments, over whole runs. */
module RateLimit {
  import opened Domain
  import opened TuningPass
  import opened Autopilot
  import opened AutopilotMoves
  import opened SessionProperties
  import opened StorageInterface

  ghost predicate MonotoneClock(w: World) {
    forall i: nat, j: nat :: i <= j ==> w.clock(i) <= w.clock(j)
  }

  function Times(changes: seq<Change>): (times: seq<real>)
    ensures |times| == |changes|
    ensures forall i :: 0 <= i < |changes| ==> times[i] == changes[i].at
  {
    if changes == [] then [] else Times(changes[..|changes| - 1]) + [changes[|changes| - 1].at]
  }

  /** Changes of either kind recorded within [lo, hi]. */
  function ChangesIn(changes: seq<Change>, lo: real, hi: real): nat {
    if changes == [] then 0
    else
      var last := changes[|changes| - 1];
      ChangesIn(changes[..|changes| - 1], lo, hi) + if lo <= last.at <= hi then 1 else 0
  }

  /** Acceptances recorded within [lo, hi]. */
  function AcceptsIn(changes: seq<Change>, lo: real, hi: real): nat {
    if changes == [] then 0
    else
      var last := changes[|changes| - 1];
      AcceptsIn(changes[..|changes| - 1], lo, hi)
      + if last.kind == Acceptance && lo <= last.at <= hi then 1 else 0
  }

  /** Fewer than `cap` of the earlier changes, of either kind, fall in the day before `at`. */
  ghost predicate RoomFor(earlier: seq<Change>, at: real, cap: int) {
    CountSince(Times(earlier), at - 86400.0) < cap
  }

  /** Room was left before every acceptance. */
  ghost predicate Guarded(changes: seq<Change>, cap: int) {
    changes == []
    || (var earlier, last := changes[..|changes| - 1], changes[|changes| - 1];
        Guarded(earlier, cap) && (last.kind == Acceptance ==> RoomFor(earlier, last.at, cap)))
  }

  lemma {:induction false} GuardedAt(changes: seq<Change>, cap: int, i: nat)
    requires Guarded(changes, cap) && i < |changes| && changes[i].kind == Acceptance
    ensures RoomFor(changes[..i], changes[i].at, cap)
  {
    if i < |changes| - 1 {
      GuardedAt(changes[..|changes| - 1], cap, i);
      assert changes[..|changes| - 1][..i] == changes[..i];
    }
  }

  ghost predicate Chronological(changes: seq<Change>) {
    forall i, j :: 0 <= i <= j < |changes| ==> changes[i].at <= changes[j].at
  }

  /** What the bookkeeping of a run keeps true. */
  ghost predicate Recorded(w: World, s: State) {
    && s.adjustmentTimestamps == Times(s.changes)
    && Chronological(s.changes)
    && (forall i :: 0 <= i < |s.changes| ==> s.changes[i].at <= w.clock(s.ticks))
    && (w.maxAdjustmentsPerDay.Some? ==> Guarded(s.changes, w.maxAdjustmentsPerDay.value))
  }

  lemma {:induction false} CountSinceAntitone(times: seq<real>, lo: real, hi: real)
    requires lo <= hi
    ensures CountSince(times, hi) <= CountSince(times, lo)
  {
    if times != [] {
      CountSinceAntitone(times[..|times| - 1], lo, hi);
    }
  }

  lemma {:induction false} RecordedAppend(w: World, s: State, s': State, kind: ChangeKind, from: Config, to: Config, at: nat,
                                          seen: nat)
    requires MonotoneClock(w) && Recorded(w, s) && s.ticks <= at
    requires s'.changes == s.changes + [Change(kind, w.clock(at), from, to, seen)]
    requires s'.adjustmentTimestamps == s.adjustmentTimestamps + [w.clock(at)] && at <= s'.ticks
    requires kind == Acceptance && w.maxAdjustmentsPerDay.Some? ==>
               CountSince(s.adjustmentTimestamps, w.clock(at) - 86400.0) < w.maxAdjustmentsPerDay.value
    ensures Recorded(w, s')
  {
    hide CountSince, Guarded, Chronological, Times;
    var c := Change(kind, w.clock(at), from, to, seen);
    assert w.clock(s.ticks) <= w.clock(at) <= w.clock(s'.ticks);
    TimesAppend(s.changes, c);
    ChronologicalAppend(s.changes, c);
    if w.maxAdjustmentsPerDay.Some? {
      GuardedAppend(s.changes, c, w.maxAdjustmentsPerDay.value);
    }
  }

  lemma TimesAppend(changes: seq<Change>, c: Change)
    ensures Times(changes + [c]) == Times(changes) + [c.at]
  {
  }

  lemma ChronologicalAppend(changes: seq<Change>, c: Change)
    requires Chronological(changes) && forall i :: 0 <= i < |changes| ==> changes[i].at <= c.at
    ensures Chronological(changes + [c])
  {
  }

  lemma GuardedAppend(changes: seq<Change>, c: Change, cap: int)
    requires Guarded(changes, cap)
    requires c.kind == Acceptance ==> CountSince(Times(changes), c.at - 86400.0) < cap
    ensures Guarded(changes + [c], cap)
  {
    hide CountSince, Times;
    assert (changes + [c])[..|changes|] == changes;
  }

  lemma {:induction false} RecordedByNext(w: World, s: State)
    requires MonotoneClock(w) && Recorded(w, s)
    ensures Recorded(w, Next(w, s))
  {
    hide Next, IsMove, CountSince, Guarded, Times;
    var t, m := NextMoves(w, s);
    ChangeEffects(w, s, t, m);
    if m.ToAccepted? {
      AcceptedBelowCap(w, s, t, m);
      assert w.clock(t.ticks) <= w.clock(ChangeTick(w, t, m));
      CountSinceAntitone(s.adjustmentTimestamps, w.clock(t.ticks) - 86400.0,
        w.clock(ChangeTick(w, t, m)) - 86400.0);
    }
    assert w.clock(s.ticks) <= w.clock(Next(w, s).ticks);
    if m.Changes() {
      RecordedAppend(w, s, Next(w, s), KindOf(m), FromOf(m), ToOf(m), ChangeTick(w, t, m),
        |Next(w, s).measured|);
    }
  }

  lemma {:induction false} RecordedByRun(w: World, store: Store, history: seq<Candidate>, n: nat)
    requires MonotoneClock(w)
    ensures Recorded(w, Run(w, Start(w, store, history), n))
  {
    if n != 0 {
      RecordedByRun(w, store, history, n - 1);
      RecordedByNext(w, Run(w, Start(w, store, history), n - 1));
    }
  }

  lemma {:induction false} WindowCounts(changes: seq<Change>, lo: real, hi: real)
    ensures AcceptsIn(changes, lo, hi) <= ChangesIn(changes, lo, hi) <= CountSince(Times(changes), lo)
  {
    if changes != [] {
      WindowCounts(changes[..|changes| - 1], lo, hi);
    }
  }

  function AtLeastZero(cap: int): nat {
    if cap < 0 then 0 else cap
  }

  lemma {:induction false} GuardedWindow(changes: seq<Change>, cap: int, t: real)
    requires Guarded(changes, cap)
    ensures AcceptsIn(changes, t, t + 86400.0) <= AtLeastZero(cap)
  {
    if changes != [] {
      var earlier, last := changes[..|changes| - 1], changes[|changes| - 1];
      GuardedWindow(earlier, cap, t);
      if last.kind == Acceptance && t <= last.at <= t + 86400.0 {
        WindowCounts(earlier, t, t + 86400.0);
        CountSinceAntitone(Times(earlier), last.at - 86400.0, t);
      }
    }
  }

  /**
   * In any run and any closed 24-hour window, the number of accepted configs is at most the cap; none for a cap of
   * zero or less.
   */
  lemma {:induction false} AcceptsPerDay(w: World, store: Store, history: seq<Candidate>, n: nat, t: real)
    requires MonotoneClock(w) && w.maxAdjustmentsPerDay.Some?
    ensures AcceptsIn(Run(w, Start(w, store, history), n).changes, t, t + 86400.0)
         <= AtLeastZero(w.maxAdjustmentsPerDay.value)
  {
    RecordedByRun(w, store, history, n);
    GuardedWindow(Run(w, Start(w, store, history), n).changes, w.maxAdjustmentsPerDay.value, t);
  }

  /** At every acceptance, all changes of the past day, rollbacks and itself included, number at most the cap. */
  lemma {:induction false} ChangesAtAccept(w: World, store: Store, history: seq<Candidate>, n: nat, i: nat)
    requires MonotoneClock(w) && w.maxAdjustmentsPerDay.Some?
    requires var cs := Run(w, Start(w, store, history), n).changes; i < |cs| && cs[i].kind == Acceptance
    ensures var cs := Run(w, Start(w, store, history), n).changes;
      ChangesIn(cs[..i + 1], cs[i].at - 86400.0, cs[i].at) <= w.maxAdjustmentsPerDay.value
  {
    hide Run, Guarded;
    RecordedByRun(w, store, history, n);
    GuardedAccept(Run(w, Start(w, store, history), n).changes, w.maxAdjustmentsPerDay.value, i);
  }

  lemma {:induction false} GuardedAccept(cs: seq<Change>, cap: int, i: nat)
    requires Guarded(cs, cap) && i < |cs| && cs[i].kind == Acceptance
    ensures ChangesIn(cs[..i + 1], cs[i].at - 86400.0, cs[i].at) <= cap
  {
    GuardedAt(cs, cap, i);
    hide Guarded;
    assert cs[..i + 1][..i] == cs[..i];
    WindowCounts(cs[..i], cs[i].at - 86400.0, cs[i].at);
  }

  lemma {:induction false} AcceptsSplit(changes: seq<Change>, lo: real, mid: real, hi: real)
    requires lo <= mid <= hi
    ensures AcceptsIn(changes, lo, hi) <= AcceptsIn(changes, lo, mid) + AcceptsIn(changes, mid, hi)
  {
    if changes != [] {
      AcceptsSplit(changes[..|changes| - 1], lo, mid, hi);
    }
  }

  lemma {:induction false} AcceptsWiden(changes: seq<Change>, lo: real, hi: real, wider: real)
    requires hi <= wider
    ensures AcceptsIn(changes, lo, hi) <= AcceptsIn(changes, lo, wider)
  {
    if changes != [] {
      AcceptsWiden(changes[..|changes| - 1], lo, hi, wider);
    }
  }

  lemma {:induction false} AcceptsOverDays(changes: seq<Change>, cap: int, t: real, days: nat)
    requires Guarded(changes, cap) && 1 <= days
    ensures AcceptsIn(changes, t, t + days as real * 86400.0) <= AtLeastZero(cap) * days
    decreases days
  {
    hide Guarded, AcceptsIn;
    GuardedWindow(changes, cap, t);
    var rest := (days - 1) as real * 86400.0;
    assert days as real * 86400.0 == 86400.0 + rest;
    if days != 1 {
      AcceptsOverDays(changes, cap, t + 86400.0, days - 1);
      AcceptsSplit(changes, t, t + 86400.0, t + 86400.0 + rest);
      assert AtLeastZero(cap) * days == AtLeastZero(cap) + AtLeastZero(cap) * (days - 1);
    }
  }

  /** A span of T seconds holds at most cap * (floor(T / 86400) + 1) acceptances. */
  lemma {:induction false} AcceptsPerSpan(w: World, store: Store, history: seq<Candidate>, n: nat, t: real, span: real)
    requires MonotoneClock(w) && w.maxAdjustmentsPerDay.Some? && 0.0 <= span
    ensures AcceptsIn(Run(w, Start(w, store, history), n).changes, t, t + span)
         <= AtLeastZero(w.maxAdjustmentsPerDay.value) * ((span / 86400.0).Floor + 1)
  {
    RecordedByRun(w, store, history, n);
    GuardedSpan(Run(w, Start(w, store, history), n).changes, w.maxAdjustmentsPerDay.value, t, span);
  }

  lemma {:induction false} GuardedSpan(changes: seq<Change>, cap: int, t: real, span: real)
    requires Guarded(changes, cap) && 0.0 <= span
    ensures AcceptsIn(changes, t, t + span) <= AtLeastZero(cap) * ((span / 86400.0).Floor + 1)
  {
    hide Guarded, AcceptsIn;
    var days := (span / 86400.0).Floor + 1;
    DaysCover(span);
    AcceptsOverDays(changes, cap, t, days);
    AcceptsWiden(changes, t, t + span, t + days as real * 86400.0);
  }

  lemma DaysCover(span: real)
    requires 0.0 <= span
    ensures 0 <= (span / 86400.0).Floor
    ensures span <= ((span / 86400.0).Floor + 1) as real * 86400.0
  {
    var q := span / 86400.0;
    assert q * 86400.0 == span && q <= (q.Floor + 1) as real;
  }

  /** All changes, rollbacks included, in the day starting at t. */
  function DayFrom(changes: seq<Change>, t: real): nat {
    ChangesIn(changes, t, t + 86400.0)
  }

  /** The cap as documented: on accepted configs and rollbacks together, in any rolling day. */
  ghost predicate CappedAsDocumented(changes: seq<Change>, cap: int) {
    forall t :: DayFrom(changes, t) <= AtLeastZero(cap)
  }

  /** Room was left before every rollback, which the loop does not check. */
  ghost predicate RollbacksHadRoom(changes: seq<Change>, cap: int) {
    changes == []
    || (var earlier, last := changes[..|changes| - 1], changes[|changes| - 1];
        RollbacksHadRoom(earlier, cap) && (last.kind == Reversion ==> RoomFor(earlier, last.at, cap)))
  }

  lemma {:induction false} RoomGivesCap(changes: seq<Change>, cap: int, t: real)
    requires Guarded(changes, cap) && RollbacksHadRoom(changes, cap)
    ensures DayFrom(changes, t) <= AtLeastZero(cap)
  {
    if changes != [] {
      var earlier, last := changes[..|changes| - 1], changes[|changes| - 1];
      RoomGivesCap(earlier, cap, t);
      if t <= last.at <= t + 86400.0 {
        WindowCounts(earlier, t, t + 86400.0);
        CountSinceAntitone(Times(earlier), last.at - 86400.0, t);
      }
    }
  }

  lemma {:induction false} AllBeforeCounted(changes: seq<Change>, lo: real, hi: real)
    requires forall i :: 0 <= i < |changes| ==> changes[i].at <= hi
    ensures ChangesIn(changes, lo, hi) == CountSince(Times(changes), lo)
  {
    if changes != [] {
      AllBeforeCounted(changes[..|changes| - 1], lo, hi);
    }
  }

  /** In a run, reaching the cap means that many recorded changes in the day up to the next clock reading. */
  lemma {:induction false} CapCountsChanges(w: World, s: State)
    requires Recorded(w, s)
    ensures var now := w.clock(s.ticks);
      CapReached(w, s)
      <==> w.maxAdjustmentsPerDay.Some? && w.maxAdjustmentsPerDay.value <= ChangesIn(s.changes, now - 86400.0, now)
  {
    hide Guarded, Chronological;
    AllBeforeCounted(s.changes, w.clock(s.ticks) - 86400.0, w.clock(s.ticks));
  }

  /**
   * In any run, a tuning pass that found a config worth switching to yields RATE_LIMITED exactly when the preceding
   * 86400 seconds hold at least cap recorded changes, rollbacks included, and then it adds none; otherwise it accepts
   * and adds one, timed by the clock reading after that of the check, or with no cap by the first.
   */
  lemma {:induction false} LimitedExactly(w: World, store: Store, history: seq<Candidate>, k: nat)
    requires MonotoneClock(w)
    ensures var s := Run(w, Start(w, store, history), k); var n, now := Next(w, s), w.clock(s.ticks);
      |s.sessions| < |n.sessions| && n.sessions[|s.sessions|].outcome in {AcceptedNew, Outcome.RateLimited} ==>
      var full := w.maxAdjustmentsPerDay.Some?
                  && w.maxAdjustmentsPerDay.value <= ChangesIn(s.changes, now - 86400.0, now);
      && (n.sessions[|s.sessions|].outcome == Outcome.RateLimited <==> full)
      && (if full then n.changes == s.changes && n.ticks == s.ticks + 1
          else
            var at := if w.maxAdjustmentsPerDay.Some? then s.ticks + 1 else s.ticks;
            && |n.changes| == |s.changes| + 1 && n.changes[|s.changes|].at == w.clock(at)
            && n.adjustmentTimestamps == s.adjustmentTimestamps + [w.clock(at)] && n.ticks == at + 1)
  {
    hide Run, Next, IsMove, CapReached, ChangesIn, Recorded, SomethingWorthIt, SessionOf;
    RecordedByRun(w, store, history, k);
    var s := Run(w, Start(w, store, history), k);
    CapCountsChanges(w, s);
    TuningOutcomeExactly(w, s);
    var t, m := NextMoves(w, s);
    SessionEffects(w, s, t, m);
    ChangeEffects(w, s, t, m);
    if m.Yields() {
      OutcomeOfMove(w, s, t, m);
    }
    if m.ToLimited? {
      LimitedTicks(w, s, t, m);
    }
  }

  lemma {:induction false} LimitedTicks(w: World, s: State, t: State, m: Move)
    requires IsMove(w, s, t, m) && m.ToLimited?
    ensures Next(w, s).ticks == s.ticks + if w.maxAdjustmentsPerDay.Some? then 1 else 0
  {
    hide Next, Resume, Taken, OnlyMeasured;
    ChangeEffects(w, s, t, m);
  }

  lemma {:induction false} OutcomeOfMove(w: World, s: State, t: State, m: Move)
    requires IsMove(w, s, t, m) && m.Yields()
    ensures SessionOf(w, s, m).outcome == AcceptedNew <==> m.ToAccepted?
    ensures SessionOf(w, s, m).outcome == Outcome.RateLimited <==> m.ToLimited?
  {
    hide Next, Resume, OnlyMeasured, CapReached, Land;
  }

  /** A rollback without room overfills the day that ends with it. */
  lemma {:induction false} NoRoomBreaksCap(changes: seq<Change>, cap: int) returns (t: real)
    requires Chronological(changes) && !RollbacksHadRoom(changes, cap)
    ensures AtLeastZero(cap) < DayFrom(changes, t)
  {
    var earlier, last := changes[..|changes| - 1], changes[|changes| - 1];
    if RollbacksHadRoom(earlier, cap) {
      t := last.at - 86400.0;
      AllBeforeCounted(earlier, t, last.at);
    } else {
      t := NoRoomBreaksCap(earlier, cap);
    }
  }

  /**
   * The documented cap holds of a run exactly when each of its rollbacks happened with fewer than the cap of changes
   * in the day before it.
   */
  lemma {:induction false} DocumentedCapExactly(w: World, store: Store, history: seq<Candidate>, n: nat)
    requires MonotoneClock(w) && w.maxAdjustmentsPerDay.Some?
    ensures var cs, cap := Run(w, Start(w, store, history), n).changes, w.maxAdjustmentsPerDay.value;
      CappedAsDocumented(cs, cap) <==> RollbacksHadRoom(cs, cap)
  {
    RecordedByRun(w, store, history, n);
    hide Run;
    var cs, cap := Run(w, Start(w, store, history), n).changes, w.maxAdjustmentsPerDay.value;
    if RollbacksHadRoom(cs, cap) {
      forall t ensures DayFrom(cs, t) <= AtLeastZero(cap) {
        RoomGivesCap(cs, cap, t);
      }
    } else {
      var t := NoRoomBreaksCap(cs, cap);
    }
  }
}
