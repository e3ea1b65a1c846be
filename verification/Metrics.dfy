/** Nearest-rank percentiles of raw latency samples. */
module Metrics {

  ghost predicate IsSorted(s: seq<real>) {
    forall i :: 0 < i < |s| ==> s[i - 1] <= s[i]
  }

  function InsertSorted(v: real, s: seq<real>): (r: seq<real>)
    requires IsSorted(s)
    ensures |r| == |s| + 1 && (r[0] == v || (s != [] && r[0] == s[0]))
    ensures IsSorted(r) && multiset(r) == multiset(s) + multiset{v}
  {
    if s == [] || v <= s[0] then [v] + s
    else
      assert s == [s[0]] + s[1..];
      [s[0]] + InsertSorted(v, s[1..])
  }

  function Sorted(values: seq<real>): (r: seq<real>)
    ensures IsSorted(r) && multiset(r) == multiset(values) && |r| == |values|
  {
    if values == [] then []
    else
      assert values == [values[0]] + values[1..];
      InsertSorted(values[0], Sorted(values[1..]))
  }

  /** Python's round: to the nearest integer, halves to the even neighbour. */
  function RoundHalfEven(x: real): (r: int)
    ensures r as real - 0.5 <= x <= r as real + 0.5
    ensures r as real - 0.5 == x || x == r as real + 0.5 ==> r % 2 == 0
  {
    var below := x.Floor;
    var rest := x - below as real;
    if rest < 0.5 then below
    else if 0.5 < rest then below + 1
    else if below % 2 == 0 then below
    else below + 1
  }

  function Position(n: nat, pct: real): real
    requires 0 < n
  {
    pct / 100.0 * (n - 1) as real
  }

  function PercentileIndex(n: nat, pct: real): (i: int)
    requires 0 < n
    ensures 0 <= i < n
  {
    var index := RoundHalfEven(Position(n, pct));
    var capped := if n - 1 < index then n - 1 else index;
    if capped < 0 then 0 else capped
  }

  function Percentile(values: seq<real>, pct: real): real
    requires values != []
  {
    Sorted(values)[PercentileIndex(|values|, pct)]
  }

  function CountAtMost(values: seq<real>, v: real): nat {
    if values == [] then 0 else CountAtMost(values[1..], v) + if values[0] <= v then 1 else 0
  }

  function CountAtLeast(values: seq<real>, v: real): nat {
    if values == [] then 0 else CountAtLeast(values[1..], v) + if v <= values[0] then 1 else 0
  }

  lemma {:induction false} RoundMonotone(x: real, y: real)
    requires x <= y
    ensures RoundHalfEven(x) <= RoundHalfEven(y)
  {
  }

  lemma {:induction false} SortedOrder(s: seq<real>, i: nat, j: nat)
    requires IsSorted(s) && i <= j < |s|
    ensures s[i] <= s[j]
  {
    if i < j {
      SortedOrder(s, i, j - 1);
    }
  }

  lemma {:induction false} PositionMonotone(n: nat, p: real, q: real)
    requires 0 < n && 0.0 <= p <= q <= 100.0
    ensures 0.0 <= Position(n, p) <= Position(n, q) <= (n - 1) as real
  {
    var m := (n - 1) as real;
    var a, b := p / 100.0, q / 100.0;
    assert 0.0 <= a <= b <= 1.0;
    ScaleMonotone(0.0, a, m);
    ScaleMonotone(a, b, m);
    ScaleMonotone(b, 1.0, m);
    assert Position(n, p) == a * m && Position(n, q) == b * m;
  }

  /** The nearest of n ranks, counted from 0, to pct per cent of the way from first to last; halfway, the even one. */
  ghost predicate IsRank(n: nat, pct: real, i: nat) {
    && i < n
    && -50.0 <= 100.0 * i as real - pct * (n - 1) as real <= 50.0
    && (100.0 * i as real - pct * (n - 1) as real in {-50.0, 50.0} ==> i % 2 == 0)
  }

  lemma PositionTimes100(n: nat, pct: real)
    requires 0 < n
    ensures 100.0 * Position(n, pct) == pct * (n - 1) as real
  {
    var m := (n - 1) as real;
    assert pct / 100.0 * m * 100.0 == pct / 100.0 * 100.0 * m;
  }

  /** Within [0, 100] the index is the nearest rank, so the clamp never acts, and it grows with the percentage. */
  lemma {:induction false} IndexMonotone(n: nat, p: real, q: real)
    requires 0 < n && 0.0 <= p <= q <= 100.0
    ensures IsRank(n, p, PercentileIndex(n, p))
    ensures PercentileIndex(n, p) <= PercentileIndex(n, q)
  {
    PositionMonotone(n, p, q);
    RoundMonotone(0.0, Position(n, p));
    RoundMonotone(Position(n, p), Position(n, q));
    RoundMonotone(Position(n, q), (n - 1) as real);
    PositionTimes100(n, p);
  }

  /** Percentages out of range are clamped to the first and last rank. */
  lemma {:induction false} IndexAtEnds(n: nat, pct: real)
    requires 0 < n
    ensures pct <= 0.0 ==> PercentileIndex(n, pct) == 0
    ensures 100.0 <= pct ==> PercentileIndex(n, pct) == n - 1
  {
    hide Position;
    PositionAtEnds(n, pct);
    if pct <= 0.0 {
      RoundMonotone(Position(n, pct), 0.0);
    }
    if 100.0 <= pct {
      RoundMonotone((n - 1) as real, Position(n, pct));
    }
  }

  lemma {:induction false} PositionAtEnds(n: nat, pct: real)
    requires 0 < n
    ensures pct <= 0.0 ==> Position(n, pct) <= 0.0
    ensures 100.0 <= pct ==> (n - 1) as real <= Position(n, pct)
  {
    PositionTimes100(n, pct);
    hide Position;
    var m := (n - 1) as real;
    if pct <= 0.0 {
      ScaleMonotone(pct, 0.0, m);
    }
    if 100.0 <= pct {
      ScaleMonotone(100.0, pct, m);
    }
  }

  lemma ScaleMonotone(a: real, b: real, m: real)
    requires a <= b && 0.0 <= m
    ensures a * m <= b * m
  {
    assert 0.0 <= (b - a) * m;
  }

  lemma HeadIsLeast(s: seq<real>, x: real)
    requires IsSorted(s) && x in s
    ensures s[0] <= x
  {
    var j :| 0 <= j < |s| && s[j] == x;
    SortedOrder(s, 0, j);
  }

  lemma TailMultiset(s: seq<real>)
    requires s != []
    ensures multiset(s[1..]) == multiset(s) - multiset{s[0]}
    ensures s == [s[0]] + s[1..]
  {
    assert s == [s[0]] + s[1..];
  }

  lemma {:induction false} SortedUnique(a: seq<real>, b: seq<real>)
    requires IsSorted(a) && IsSorted(b) && multiset(a) == multiset(b)
    ensures a == b
  {
    assert |a| == |multiset(a)| == |multiset(b)| == |b|;
    if a != [] {
      assert a[0] == b[0] by {
        assert a[0] in multiset(a) && b[0] in multiset(b);
        HeadIsLeast(a, b[0]);
        HeadIsLeast(b, a[0]);
      }
      assert multiset(a[1..]) == multiset(b[1..]) by {
        TailMultiset(a);
        TailMultiset(b);
      }
      assert IsSorted(a[1..]) && IsSorted(b[1..]);
      SortedUnique(a[1..], b[1..]);
      assert a == [a[0]] + a[1..] && b == [b[0]] + b[1..];
    }
  }

  lemma {:induction false} CountsInsert(v: real, s: seq<real>, x: real)
    requires IsSorted(s)
    ensures CountAtMost(InsertSorted(v, s), x) == CountAtMost(s, x) + if v <= x then 1 else 0
    ensures CountAtLeast(InsertSorted(v, s), x) == CountAtLeast(s, x) + if x <= v then 1 else 0
  {
    if s == [] || v <= s[0] {
      assert ([v] + s)[1..] == s;
    } else {
      CountsInsert(v, s[1..], x);
      var tail := InsertSorted(v, s[1..]);
      assert ([s[0]] + tail)[1..] == tail;
    }
  }

  lemma {:induction false} CountsSorted(values: seq<real>, x: real)
    ensures CountAtMost(Sorted(values), x) == CountAtMost(values, x)
    ensures CountAtLeast(Sorted(values), x) == CountAtLeast(values, x)
  {
    if values != [] {
      CountsSorted(values[1..], x);
      CountsInsert(values[0], Sorted(values[1..]), x);
    }
  }

  lemma {:induction false} RankInSorted(s: seq<real>, i: nat, x: real)
    requires IsSorted(s) && i <= |s|
    ensures (i == 0 || s[i - 1] <= x) ==> i <= CountAtMost(s, x)
    ensures (i == |s| || x <= s[i]) ==> |s| - i <= CountAtLeast(s, x)
  {
    if s != [] {
      if 0 < i {
        SortedOrder(s, 0, i - 1);
      }
      if i < |s| {
        SortedOrder(s, 0, i);
      }
      RankInSorted(s[1..], if i == 0 then 0 else i - 1, x);
    }
  }

  /** A sample with the nearest rank to pct: so many samples are no larger, and so many no smaller. */
  ghost predicate AtRank(values: seq<real>, pct: real, v: real) {
    && v in values
    && exists i: nat :: IsRank(|values|, pct, i) && i + 1 <= CountAtMost(values, v) && |values| - i <= CountAtLeast(values, v)
  }

  /** The percentile is the sample at the nearest rank; out of range, the least or the greatest. */
  lemma {:induction false} PercentileRank(values: seq<real>, pct: real)
    requires values != []
    ensures var r := Percentile(values, pct);
      && r in values
      && (0.0 <= pct <= 100.0 ==> AtRank(values, pct, r))
      && (pct <= 0.0 ==> forall v :: v in values ==> r <= v)
      && (100.0 <= pct ==> forall v :: v in values ==> v <= r)
  {
    hide IsRank, PercentileIndex;
    var s, i := Sorted(values), PercentileIndex(|values|, pct);
    assert s[i] in multiset(values);
    SortedBounds(values);
    IndexAtEnds(|values|, pct);
    if 0.0 <= pct <= 100.0 {
      IndexMonotone(|values|, pct, pct);
      CountsAtIndex(values, i);
    }
  }

  lemma CountsAtIndex(values: seq<real>, i: nat)
    requires i < |values|
    ensures var v := Sorted(values)[i]; i + 1 <= CountAtMost(values, v) && |values| - i <= CountAtLeast(values, v)
  {
    var s := Sorted(values);
    RankInSorted(s, i + 1, s[i]);
    RankInSorted(s, i, s[i]);
    CountsSorted(values, s[i]);
  }

  lemma SortedBounds(values: seq<real>)
    requires values != []
    ensures var s := Sorted(values); forall v :: v in values ==> s[0] <= v <= s[|s| - 1]
  {
    hide Sorted, IsSorted;
    var s := Sorted(values);
    forall v | v in values ensures s[0] <= v <= s[|s| - 1] {
      assert v in multiset(s);
      var j :| 0 <= j < |s| && s[j] == v;
      SortedOrder(s, 0, j);
      SortedOrder(s, j, |s| - 1);
    }
  }

  lemma {:induction false} CountsDisjoint(values: seq<real>, u: real, v: real)
    requires u < v
    ensures CountAtMost(values, u) + CountAtLeast(values, v) <= |values|
  {
    if values != [] {
      CountsDisjoint(values[1..], u, v);
    }
  }

  lemma OneRank(n: nat, pct: real, i: nat, j: nat)
    requires IsRank(n, pct, i) && IsRank(n, pct, j)
    ensures i == j
  {
    var x := pct * (n - 1) as real;
  }

  /** The nearest rank names one value only. */
  lemma {:induction false} OneAtRank(values: seq<real>, pct: real, u: real, v: real)
    requires AtRank(values, pct, u) && AtRank(values, pct, v)
    ensures u == v
  {
    hide IsRank;
    var n := |values|;
    var i: nat :| IsRank(n, pct, i) && i + 1 <= CountAtMost(values, u) && n - i <= CountAtLeast(values, u);
    var j: nat :| IsRank(n, pct, j) && j + 1 <= CountAtMost(values, v) && n - j <= CountAtLeast(values, v);
    OneRank(n, pct, i, j);
    if u < v {
      CountsDisjoint(values, u, v);
    } else if v < u {
      CountsDisjoint(values, v, u);
    }
  }

  /** Only the samples matter, not their order. */
  lemma {:induction false} PercentilePermutes(a: seq<real>, b: seq<real>, pct: real)
    requires a != [] && multiset(a) == multiset(b)
    ensures b != [] && Percentile(a, pct) == Percentile(b, pct)
  {
    assert |multiset(a)| == |a| && |multiset(b)| == |b|;
    SortedUnique(Sorted(a), Sorted(b));
  }

  lemma {:induction false} PercentileMonotone(values: seq<real>, p: real, q: real)
    requires values != [] && 0.0 <= p <= q <= 100.0
    ensures Percentile(values, p) <= Percentile(values, q)
  {
    IndexMonotone(|values|, p, q);
    SortedOrder(Sorted(values), PercentileIndex(|values|, p), PercentileIndex(|values|, q));
  }
}
