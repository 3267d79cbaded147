/**
 * The timeframe aggregator (`aggregate_candles`, main.py:557-605): a run of
 * one-minute candles is sorted by opening time and cut into consecutive
 * bins aligned to 2 or 10 minutes; every bin becomes one candle with the
 * bin's boundary as its time, the first open, the highest high, the lowest
 * low, the last close and the summed volume.
 */
module Aggregation {
  import opened Wrappers
  import Arith

  const MinuteMs: int := 60000

  /** An input or output candle; `v` is None when the input dictionary has no volume. */
  datatype Bar = Bar(t: int, o: real, h: real, l: real, c: real, v: Option<real>)

  /** The bin width in minutes for the two supported targets (main.py:571). */
  function Span(tf: string): (m: Option<int>)
    ensures m.Some? <==> tf == "2m" || tf == "10m"
    ensures m.Some? ==> m.value > 0 && 60 % m.value == 0
  {
    if tf == "2m" then Some(2) else if tf == "10m" then Some(10) else None
  }

  /** A candle's volume, counting a missing one as 0. */
  function Volume(b: Bar): real
  {
    if b.v.Some? then b.v.value else 0.0
  }

  // ---------------------------------------------------------------- sorting

  /** Non-decreasing opening times. */
  predicate Sorted(s: seq<Bar>)
  {
    forall i, j :: 0 <= i <= j < |s| ==> s[i].t <= s[j].t
  }

  /**
   * Inserts `x` after the last element whose time is at most `x.t`, as an
   * insertion sort does when it shifts the larger elements right.
   */
  function Insert(s: seq<Bar>, x: Bar): (r: seq<Bar>)
    ensures |r| == |s| + 1
  {
    if s == [] || s[|s| - 1].t <= x.t then s + [x]
    else Insert(s[..|s| - 1], x) + [s[|s| - 1]]
  }

  /** `list.sort(key=lambda x: x['t'])`, as a stable insertion sort over prefixes. */
  function SortByTime(s: seq<Bar>): (r: seq<Bar>)
    ensures |r| == |s|
  {
    if s == [] then [] else Insert(SortByTime(s[..|s| - 1]), s[|s| - 1])
  }

  lemma {:induction false} InsertPermutes(s: seq<Bar>, x: Bar)
    ensures multiset(Insert(s, x)) == multiset(s) + multiset{x}
    decreases |s|
  {
    if !(s == [] || s[|s| - 1].t <= x.t) {
      var init, last := s[..|s| - 1], s[|s| - 1];
      InsertPermutes(init, x);
      assert s == init + [last];
    }
  }

  lemma {:induction false} InsertSorted(s: seq<Bar>, x: Bar)
    requires Sorted(s)
    ensures Sorted(Insert(s, x))
    decreases |s|
  {
    if !(s == [] || s[|s| - 1].t <= x.t) {
      var init, last := s[..|s| - 1], s[|s| - 1];
      InsertSorted(init, x);
      InsertPermutes(init, x);
      var r := Insert(init, x);
      forall k | 0 <= k < |r| ensures r[k].t <= last.t {
        assert r[k] in multiset(init) + multiset{x} by { assert r[k] in multiset(r); }
        if r[k] != x {
          assert r[k] in init;
        }
      }
    }
  }

  /** Sorting keeps the elements and orders them by time. */
  lemma {:induction false} SortByTimeSortsAndPermutes(s: seq<Bar>)
    ensures Sorted(SortByTime(s))
    ensures multiset(SortByTime(s)) == multiset(s)
    decreases |s|
  {
    if s != [] {
      var init, last := s[..|s| - 1], s[|s| - 1];
      SortByTimeSortsAndPermutes(init);
      InsertSorted(SortByTime(init), last);
      InsertPermutes(SortByTime(init), last);
      assert s == init + [last];
    }
  }

  /** An already sorted run is left as it is. */
  lemma {:induction false} SortByTimeOfSorted(s: seq<Bar>)
    requires Sorted(s)
    ensures SortByTime(s) == s
    decreases |s|
  {
    if s != [] {
      var init, last := s[..|s| - 1], s[|s| - 1];
      SortedPrefix(s, |s| - 1);
      SortByTimeOfSorted(init);
      assert init == [] || init[|init| - 1].t <= last.t;
      assert s == init + [last];
    }
  }

  lemma SortedPrefix(s: seq<Bar>, n: int)
    requires 0 <= n <= |s| && Sorted(s)
    ensures Sorted(s[..n])
  {
    assert forall i :: 0 <= i < n ==> s[..n][i] == s[i];
  }

  /**
   * Where the insertion loop stops: if every element from `j` on is later
   * than `x` and the one before `j` is not, `x` goes in at `j`.
   */
  lemma {:induction false} InsertAt(s: seq<Bar>, x: Bar, j: int)
    requires 0 <= j <= |s|
    requires j == 0 || s[j - 1].t <= x.t
    requires forall k :: j <= k < |s| ==> s[k].t > x.t
    ensures Insert(s, x) == s[..j] + [x] + s[j..]
    decreases |s|
  {
    if j < |s| {
      var init := s[..|s| - 1];
      InsertAt(init, x, j);
      assert init[..j] == s[..j];
      assert init[j..] + [s[|s| - 1]] == s[j..];
    } else {
      assert s[..j] == s;
    }
  }

  /** The in-place sort of main.py:575, as an insertion sort on the array. */
  method SortInPlace(a: array<Bar>)
    modifies a
    ensures a[..] == SortByTime(old(a[..]))
  {
    ghost var input := a[..];
    var i := 0;
    while i < a.Length
      invariant 0 <= i <= a.Length
      invariant a[..i] == SortByTime(input[..i])
      invariant a[i..] == input[i..]
    {
      ghost var before := a[..i];
      assert a[i] == input[i];
      InsertNext(a, i);
      SortByTimePrefix(input, i);
      assert a[..i + 1] == Insert(before, input[i]);
      i := i + 1;
    }
    assert a[..] == a[..a.Length] && input[..a.Length] == input;
  }

  /** Sorting one more element of a prefix inserts it into the sorted prefix. */
  lemma SortByTimePrefix(s: seq<Bar>, i: int)
    requires 0 <= i < |s|
    ensures SortByTime(s[..i + 1]) == Insert(SortByTime(s[..i]), s[i])
  {
    assert s[..i + 1][..i] == s[..i];
  }

  /**
   * One pass of the insertion sort: `a[i]` moves left past every larger
   * element of the sorted prefix `a[..i]`; the rest of the array stays.
   */
  method InsertNext(a: array<Bar>, i: int)
    requires 0 <= i < a.Length
    modifies a
    ensures a[..i + 1] == Insert(old(a[..i]), old(a[i]))
    ensures a[i + 1..] == old(a[i + 1..])
  {
    ghost var sorted := a[..i];
    ghost var rest := a[i + 1..];
    var x := a[i];
    var j := i;
    while j > 0 && a[j - 1].t > x.t
      invariant 0 <= j <= i
      invariant forall k :: 0 <= k < j ==> a[k] == sorted[k]
      invariant forall k :: j < k <= i ==> a[k] == sorted[k - 1]
      invariant forall k :: i < k < a.Length ==> a[k] == rest[k - i - 1]
      invariant forall k :: j <= k < i ==> sorted[k].t > x.t
    {
      a[j] := a[j - 1];
      j := j - 1;
    }
    a[j] := x;
    InsertAt(sorted, x, j);
    Placed(a[..], sorted, rest, x, j);
  }

  /** The layout the shifting loop leaves: the prefix, `x`, the shifted part, the untouched rest. */
  lemma Placed(b: seq<Bar>, sorted: seq<Bar>, rest: seq<Bar>, x: Bar, j: int)
    requires 0 <= j <= |sorted| && |b| == |sorted| + 1 + |rest|
    requires forall k :: 0 <= k < j ==> b[k] == sorted[k]
    requires b[j] == x
    requires forall k :: j < k <= |sorted| ==> b[k] == sorted[k - 1]
    requires forall k :: |sorted| < k < |b| ==> b[k] == rest[k - |sorted| - 1]
    ensures b[..|sorted| + 1] == sorted[..j] + [x] + sorted[j..]
    ensures b[|sorted| + 1..] == rest
  {
    var r := sorted[..j] + [x] + sorted[j..];
    assert forall k :: 0 <= k < |r| ==> b[k] == r[k];
    var after := b[|sorted| + 1..];
    assert forall k :: 0 <= k < |after| ==> after[k] == rest[k];
  }

  // ---------------------------------------------------------------- bins

  const HourMs: int := 3600000

  /** `t` rounded down to a multiple of `d`. */
  function Floor(t: int, d: int): (r: int)
    requires d > 0
    ensures r % d == 0 && r <= t < r + d
  {
    Arith.FloorShape(t, d);
    t - t % d
  }

  /** The multiple of `d` at most `d - 1` below `t` is the floor. */
  lemma FloorUnique(t: int, d: int, b: int)
    requires d > 0 && b % d == 0 && b <= t < b + d
    ensures Floor(t, d) == b
  {
    Arith.MultipleShape(b, d);
    Arith.DivModUnique(t, d, b / d, t - b);
  }

  /** Rounding down never falls below a multiple of `d` that `t` has reached. */
  lemma FloorAtLeast(t: int, d: int, lim: int)
    requires d > 0 && lim % d == 0 && t >= lim
    ensures Floor(t, d) >= lim
  {
    var f := Floor(t, d);
    if f < lim {
      Arith.MultiplesApart(f, lim, d);
      assert false;
    }
  }

  /** Rounding down to `a` and then to a multiple of `a` is rounding down to that multiple. */
  lemma FloorOfFloor(t: int, a: int, m: int)
    requires a > 0 && m > 0
    ensures a * m > 0 && Floor(Floor(t, a), a * m) == Floor(t, a * m)
  {
    Arith.MulAtLeast(m, a);
    Arith.FloorFloor(t, a, m);
  }

  /**
   * The bin boundary as main.py:581-584 computes it through the calendar:
   * the start of the UTC hour of `t` plus the whole groups of `m` minutes
   * before `t` within that hour. When `m` divides 60 this is `t` rounded
   * down to `m` minutes.
   */
  function Boundary(t: int, m: int): (b: int)
    requires m > 0
    ensures 60 % m == 0 ==> b == Floor(t, m * MinuteMs)
  {
    var minute := (t % HourMs) / MinuteMs;
    if 60 % m == 0 then
      var k := 60 / m;
      assert k * m == 60;
      assert k * (m * MinuteMs) == HourMs;
      Arith.HourFloor(t, MinuteMs, k, m);
      t - t % HourMs + (minute / m) * m * MinuteMs
    else
      t - t % HourMs + (minute / m) * m * MinuteMs
  }

  /** How many leading candles open before `lim` (the inner loop, main.py:587-593). */
  function RunLength(s: seq<Bar>, lim: int): (n: nat)
    ensures n <= |s|
    ensures forall k :: 0 <= k < n ==> s[k].t < lim
    ensures n < |s| ==> s[n].t >= lim
  {
    if s == [] || s[0].t >= lim then 0 else 1 + RunLength(s[1..], lim)
  }

  /** The run length is the one position where the times reach `lim`. */
  lemma {:induction false} RunLengthExact(s: seq<Bar>, lim: int, n: int)
    requires 0 <= n <= |s|
    requires forall k :: 0 <= k < n ==> s[k].t < lim
    requires n < |s| ==> s[n].t >= lim
    ensures RunLength(s, lim) == n
    decreases n
  {
    if n > 0 {
      RunLengthExact(s[1..], lim, n - 1);
    }
  }

  /**
   * The groups of main.py:579-593: each starts at the first candle not yet
   * taken, at the boundary `Floor(t, d)` of its time, and takes candles
   * while they open before the boundary plus `d`.
   */
  function Bins(s: seq<Bar>, d: int): (r: seq<seq<Bar>>)
    requires d > 0
    ensures |r| <= |s|
    ensures s != [] ==> r != []
    ensures forall i :: 0 <= i < |r| ==> r[i] != []
    decreases |s|
  {
    if s == [] then []
    else
      var n := FirstRun(s, d);
      [s[..n]] + Bins(s[n..], d)
  }

  /** The size of the first bin: it always holds at least the first candle. */
  function FirstRun(s: seq<Bar>, d: int): (n: nat)
    requires d > 0 && s != []
    ensures 1 <= n <= |s|
    ensures forall k :: 0 <= k < n ==> s[k].t < Floor(s[0].t, d) + d
    ensures n < |s| ==> s[n].t >= Floor(s[0].t, d) + d
  {
    RunLength(s, Floor(s[0].t, d) + d)
  }

  function Flatten(g: seq<seq<Bar>>): seq<Bar>
  {
    if g == [] then [] else g[0] + Flatten(g[1..])
  }

  lemma {:induction false} FlattenConcat(x: seq<seq<Bar>>, y: seq<seq<Bar>>)
    ensures Flatten(x + y) == Flatten(x) + Flatten(y)
    decreases |x|
  {
    if x == [] {
      assert x + y == y;
    } else {
      FlattenConcat(x[1..], y);
      assert (x + y)[1..] == x[1..] + y;
    }
  }

  /** The bins cover the input exactly and in order: every candle lands in one bin. */
  lemma {:induction false} BinsPartition(s: seq<Bar>, d: int)
    requires d > 0
    ensures Flatten(Bins(s, d)) == s
    decreases |s|
  {
    if s != [] {
      var n := FirstRun(s, d);
      var rest := Bins(s[n..], d);
      BinsPartition(s[n..], d);
      assert Bins(s, d) == [s[..n]] + rest;
      assert ([s[..n]] + rest)[1..] == rest;
      assert s == s[..n] + s[n..];
    }
  }

  /** On sorted input every member of a bin has the bin's boundary as its floor. */
  lemma {:induction false} BinsShareFloor(s: seq<Bar>, d: int)
    requires d > 0 && Sorted(s)
    ensures forall i, k :: 0 <= i < |Bins(s, d)| && 0 <= k < |Bins(s, d)[i]| ==>
      Floor(Bins(s, d)[i][k].t, d) == Floor(Bins(s, d)[i][0].t, d)
    decreases |s|
  {
    if s != [] {
      var b := Floor(s[0].t, d);
      var n := FirstRun(s, d);
      var g: seq<Bar> := s[..n];
      forall k | 0 <= k < n ensures Floor(g[k].t, d) == b {
        FloorUnique(g[k].t, d, b);
      }
      BinsShareFloor(s[n..], d);
      var r: seq<seq<Bar>> := Bins(s, d);
      assert r == [g] + Bins(s[n..], d);
      forall i: int, k: int | 0 <= i < |r| && 0 <= k < |r[i]|
        ensures Floor(r[i][k].t, d) == Floor(r[i][0].t, d)
      {
        if i > 0 {
          assert r[i] == Bins(s[n..], d)[i - 1];
        }
      }
    }
  }

  /** Every member of every bin comes from the input. */
  lemma BinsMembers(s: seq<Bar>, d: int)
    requires d > 0
    ensures forall i, k :: 0 <= i < |Bins(s, d)| && 0 <= k < |Bins(s, d)[i]| ==> Bins(s, d)[i][k] in s
  {
    BinsPartition(s, d);
    FlattenMembers(Bins(s, d));
  }

  lemma {:induction false} FlattenMembers(g: seq<seq<Bar>>)
    ensures forall i, k :: 0 <= i < |g| && 0 <= k < |g[i]| ==> g[i][k] in Flatten(g)
    decreases |g|
  {
    if g != [] {
      FlattenMembers(g[1..]);
      forall i: int, k: int | 0 <= i < |g| && 0 <= k < |g[i]| ensures g[i][k] in Flatten(g) {
        if i > 0 {
          assert g[i] == g[1..][i - 1];
        }
      }
    }
  }

  /** All of `s` opens before `lim`. */
  predicate Before(s: seq<Bar>, lim: int)
  {
    forall k :: 0 <= k < |s| ==> s[k].t < lim
  }

  /** All of `s` opens at or after `lim`. */
  predicate From(s: seq<Bar>, lim: int)
  {
    forall k :: 0 <= k < |s| ==> s[k].t >= lim
  }

  lemma BeforeSuffix(s: seq<Bar>, k: int, lim: int)
    requires 0 <= k <= |s| && Before(s, lim)
    ensures Before(s[k..], lim)
  {
    assert forall j :: 0 <= j < |s| - k ==> s[k..][j] == s[k + j];
  }

  /**
   * Where a run `s[..n]` ends before the multiple `lim` of `d` and the rest
   * starts at or after it, no bin straddles `lim`: binning the whole is
   * binning the two parts one after the other.
   */
  lemma {:induction false} BinsSplit(s: seq<Bar>, n: int, d: int, lim: int)
    requires d > 0 && lim % d == 0 && 0 <= n <= |s|
    requires Before(s[..n], lim) && From(s[n..], lim)
    ensures Bins(s, d) == Bins(s[..n], d) + Bins(s[n..], d)
    decreases |s|
  {
    if n == 0 {
      assert s[n..] == s;
    } else {
      var k := FirstBinBefore(s, n, d, lim);
      var p := s[..n];
      var rest := s[k..];
      Slices(s, k, n);
      BeforeSuffix(p, k, lim);
      BinsSplit(rest, n - k, d, lim);
      var head: seq<seq<Bar>> := [s[..k]];
      var mid, tail := Bins(p[k..], d), Bins(s[n..], d);
      BinsCons(s, d);
      BinsCons(p, d);
      ConcatAssoc(head, mid, tail);
    }
  }

  /** The first bin of a run that reaches `lim` only at `n` lies inside `s[..n]`. */
  lemma FirstBinBefore(s: seq<Bar>, n: int, d: int, lim: int) returns (k: nat)
    requires d > 0 && lim % d == 0 && 0 < n <= |s|
    requires Before(s[..n], lim) && From(s[n..], lim)
    ensures k == FirstRun(s, d) == FirstRun(s[..n], d) && k <= n
  {
    var b := Floor(s[0].t, d);
    assert s[..n][0] == s[0];
    Arith.MultiplesApart(b, lim, d);
    if n < |s| {
      assert s[n..][0] == s[n];
    }
    k := FirstRun(s, d);
    assert k <= n;
    var p := s[..n];
    assert forall j :: 0 <= j < n ==> p[j] == s[j];
    RunLengthExact(p, b + d, k);
  }

  /** One step of the binning. */
  lemma BinsCons(s: seq<Bar>, d: int)
    requires d > 0 && s != []
    ensures Bins(s, d) == [s[..FirstRun(s, d)]] + Bins(s[FirstRun(s, d)..], d)
  {
  }

  lemma Slices(s: seq<Bar>, k: int, n: int)
    requires 0 <= k <= n <= |s|
    ensures s[k..][..n - k] == s[..n][k..]
    ensures s[k..][n - k..] == s[n..]
    ensures s[..n][..k] == s[..k]
  {
  }

  lemma ConcatAssoc(x: seq<seq<Bar>>, y: seq<seq<Bar>>, z: seq<seq<Bar>>)
    ensures x + (y + z) == (x + y) + z
  {
  }

  // ----------------------------------------------------------- summaries

  /** `max(c['h'] for c in group)`. */
  function Highest(g: seq<Bar>): real
    requires g != []
  {
    if |g| == 1 then g[0].h else Max(g[0].h, Highest(g[1..]))
  }

  /** The highest high bounds every high and is one of them. */
  lemma {:induction false} HighestIsMax(g: seq<Bar>)
    requires g != []
    ensures forall i :: 0 <= i < |g| ==> g[i].h <= Highest(g)
    ensures exists i :: 0 <= i < |g| && g[i].h == Highest(g)
    decreases |g|
  {
    if |g| == 1 {
      assert g[0].h == Highest(g);
    } else {
      HighestIsMax(g[1..]);
      var j :| 0 <= j < |g| - 1 && g[1..][j].h == Highest(g[1..]);
      assert forall i :: 1 <= i < |g| ==> g[i] == g[1..][i - 1];
      if g[0].h < Highest(g[1..]) {
        assert g[j + 1].h == Highest(g);
      } else {
        assert g[0].h == Highest(g);
      }
    }
  }

  /** `min(c['l'] for c in group)`. */
  function Lowest(g: seq<Bar>): real
    requires g != []
  {
    if |g| == 1 then g[0].l else Min(g[0].l, Lowest(g[1..]))
  }

  /** The lowest low is below every low and is one of them. */
  lemma {:induction false} LowestIsMin(g: seq<Bar>)
    requires g != []
    ensures forall i :: 0 <= i < |g| ==> Lowest(g) <= g[i].l
    ensures exists i :: 0 <= i < |g| && g[i].l == Lowest(g)
    decreases |g|
  {
    if |g| == 1 {
      assert g[0].l == Lowest(g);
    } else {
      LowestIsMin(g[1..]);
      var j :| 0 <= j < |g| - 1 && g[1..][j].l == Lowest(g[1..]);
      assert forall i :: 1 <= i < |g| ==> g[i] == g[1..][i - 1];
      if Lowest(g[1..]) < g[0].l {
        assert g[j + 1].l == Lowest(g);
      } else {
        assert g[0].l == Lowest(g);
      }
    }
  }

  /** `sum(c.get('v', 0) for c in group)`. */
  function TotalVolume(g: seq<Bar>): real
  {
    if g == [] then 0.0 else Volume(g[0]) + TotalVolume(g[1..])
  }

  lemma {:induction false} HighestConcat(x: seq<Bar>, y: seq<Bar>)
    requires x != [] && y != []
    ensures Highest(x + y) == Max(Highest(x), Highest(y))
  {
    HighestIsMax(x);
    HighestIsMax(y);
    HighestIsMax(x + y);
    var i :| 0 <= i < |x| && x[i].h == Highest(x);
    assert (x + y)[i] == x[i];
    var j :| 0 <= j < |y| && y[j].h == Highest(y);
    assert (x + y)[|x| + j] == y[j];
    var k :| 0 <= k < |x + y| && (x + y)[k].h == Highest(x + y);
    if k < |x| {
      assert (x + y)[k] == x[k];
    } else {
      assert (x + y)[k] == y[k - |x|];
    }
  }

  lemma {:induction false} LowestConcat(x: seq<Bar>, y: seq<Bar>)
    requires x != [] && y != []
    ensures Lowest(x + y) == Min(Lowest(x), Lowest(y))
  {
    LowestIsMin(x);
    LowestIsMin(y);
    LowestIsMin(x + y);
    var i :| 0 <= i < |x| && x[i].l == Lowest(x);
    assert (x + y)[i] == x[i];
    var j :| 0 <= j < |y| && y[j].l == Lowest(y);
    assert (x + y)[|x| + j] == y[j];
    var k :| 0 <= k < |x + y| && (x + y)[k].l == Lowest(x + y);
    if k < |x| {
      assert (x + y)[k] == x[k];
    } else {
      assert (x + y)[k] == y[k - |x|];
    }
  }

  /** The volume of two runs together is the sum of their volumes. */
  lemma {:induction false} TotalVolumeConcat(x: seq<Bar>, y: seq<Bar>)
    ensures TotalVolume(x + y) == TotalVolume(x) + TotalVolume(y)
    decreases |x|
  {
    if x == [] {
      assert x + y == y;
    } else {
      TotalVolumeConcat(x[1..], y);
      assert (x + y)[1..] == x[1..] + y;
    }
  }

  /** The candle one bin becomes (main.py:595-602), stamped with its boundary. */
  function Summary(g: seq<Bar>, b: int): (r: Bar)
    requires g != []
  {
    Bar(b, g[0].o, Highest(g), Lowest(g), Close(g), Some(TotalVolume(g)))
  }

  /** `group[-1]['c']`. */
  function Close(g: seq<Bar>): real
    requires g != []
  {
    g[|g| - 1].c
  }

  /** One summary per bin, in bin order. */
  function Summaries(g: seq<seq<Bar>>, d: int): (r: seq<Bar>)
    requires d > 0 && forall i :: 0 <= i < |g| ==> g[i] != []
    ensures |r| == |g|
  {
    if g == [] then [] else [Summary(g[0], Floor(g[0][0].t, d))] + Summaries(g[1..], d)
  }

  /** The `i`-th summary is the summary of the `i`-th bin, stamped with its boundary. */
  lemma {:induction false} SummariesAt(g: seq<seq<Bar>>, d: int)
    requires d > 0 && forall i :: 0 <= i < |g| ==> g[i] != []
    ensures forall i :: 0 <= i < |g| ==> Summaries(g, d)[i] == Summary(g[i], Floor(g[i][0].t, d))
    decreases |g|
  {
    if g != [] {
      SummariesAt(g[1..], d);
      assert forall i :: 1 <= i < |g| ==> g[i] == g[1..][i - 1];
    }
  }

  lemma {:induction false} SummariesConcat(x: seq<seq<Bar>>, y: seq<seq<Bar>>, d: int)
    requires d > 0
    requires forall i :: 0 <= i < |x| ==> x[i] != []
    requires forall i :: 0 <= i < |y| ==> y[i] != []
    ensures Summaries(x + y, d) == Summaries(x, d) + Summaries(y, d)
    decreases |x|
  {
    if x == [] {
      assert x + y == y;
    } else {
      assert (x + y)[1..] == x[1..] + y;
      assert forall i :: 1 <= i < |x| ==> x[i] == x[1..][i - 1];
      SummariesConcat(x[1..], y, d);
      var h := [Summary(x[0], Floor(x[0][0].t, d))];
      AppendAssoc(h, Summaries(x[1..], d), Summaries(y, d));
    }
  }

  /** The aggregated candles of a run: one summary per bin of width `d`. */
  function Binned(s: seq<Bar>, d: int): (r: seq<Bar>)
    requires d > 0
  {
    Summaries(Bins(s, d), d)
  }

  /** The first bin's summary followed by the summaries of the rest. */
  lemma BinnedCons(s: seq<Bar>, d: int)
    requires d > 0 && s != []
    ensures Binned(s, d) == [Summary(s[..FirstRun(s, d)], Floor(s[0].t, d))] + Binned(s[FirstRun(s, d)..], d)
  {
    var n := FirstRun(s, d);
    var g: seq<Bar> := s[..n];
    assert Bins(s, d) == [g] + Bins(s[n..], d);
    SummariesConcat([g], Bins(s[n..], d), d);
  }

  /** A run whose candles all open before `lim` is stamped before `lim`. */
  lemma BinnedBefore(s: seq<Bar>, d: int, lim: int)
    requires d > 0 && Before(s, lim)
    ensures Before(Binned(s, d), lim)
  {
    BinsMembers(s, d);
    SummariesAt(Bins(s, d), d);
  }

  /** A run whose candles all open at or after the multiple `lim` of `d` is stamped at or after it. */
  lemma BinnedFrom(s: seq<Bar>, d: int, lim: int)
    requires d > 0 && lim % d == 0 && From(s, lim)
    ensures From(Binned(s, d), lim)
  {
    BinsMembers(s, d);
    SummariesAt(Bins(s, d), d);
    var g: seq<seq<Bar>> := Bins(s, d);
    forall i: int | 0 <= i < |g| ensures Floor(g[i][0].t, d) >= lim {
      FloorAtLeast(g[i][0].t, d, lim);
    }
  }

  /** Strictly increasing opening times. */
  predicate Increasing(s: seq<Bar>)
  {
    forall i, j :: 0 <= i < j < |s| ==> s[i].t < s[j].t
  }

  /** Sorted input gives strictly increasing bin boundaries. */
  lemma {:induction false} BinnedIncreasing(s: seq<Bar>, d: int)
    requires d > 0 && Sorted(s)
    ensures Increasing(Binned(s, d))
    decreases |s|
  {
    if s != [] {
      var b := Floor(s[0].t, d);
      var n := FirstRun(s, d);
      RunSplits(s, d);
      Arith.MultipleDiff(d, b, d);
      BinnedFrom(s[n..], d, b + d);
      BinnedIncreasing(s[n..], d);
      BinnedCons(s, d);
    }
  }

  /**
   * On sorted input the first bin is exactly the candles before its
   * boundary plus the span, and the rest opens at or after it.
   */
  lemma RunSplits(s: seq<Bar>, d: int)
    requires d > 0 && s != [] && Sorted(s)
    ensures Before(s[..FirstRun(s, d)], Floor(s[0].t, d) + d)
    ensures From(s[FirstRun(s, d)..], Floor(s[0].t, d) + d)
    ensures Sorted(s[FirstRun(s, d)..])
  {
    var n := FirstRun(s, d);
    assert forall j :: 0 <= j < n ==> s[..n][j] == s[j];
    assert forall j :: 0 <= j < |s| - n ==> s[n..][j] == s[n + j];
  }

  lemma FlattenFront(g: seq<seq<Bar>>)
    requires g != [] && g[0] != []
    ensures Flatten(g) != [] && Flatten(g)[0] == g[0][0]
  {
  }

  /** The last close of a partition is the last close of its last bin. */
  lemma {:induction false} FlattenClose(g: seq<seq<Bar>>)
    requires g != [] && forall i :: 0 <= i < |g| ==> g[i] != []
    ensures Flatten(g) != [] && Close(Flatten(g)) == Close(g[|g| - 1])
    decreases |g|
  {
    if |g| > 1 {
      FlattenClose(g[1..]);
      FlattenFront(g[1..]);
      assert Flatten(g) == g[0] + Flatten(g[1..]);
    } else {
      assert g[1..] == [];
      assert Flatten(g) == g[0] + [] == g[0];
    }
  }

  lemma {:induction false} HighestOfSummaries(g: seq<seq<Bar>>, d: int)
    requires d > 0 && g != [] && forall i :: 0 <= i < |g| ==> g[i] != []
    ensures Flatten(g) != [] && Highest(Summaries(g, d)) == Highest(Flatten(g))
    decreases |g|
  {
    FlattenFront(g);
    SummariesTail(g, d);
    var x := Summaries(g, d);
    assert x[0].h == Highest(g[0]);
    if |g| > 1 {
      HighestOfSummaries(g[1..], d);
      FlattenFront(g[1..]);
      HighestConcat(g[0], Flatten(g[1..]));
      assert x[1..] == Summaries(g[1..], d);
      assert Highest(x) == Max(x[0].h, Highest(x[1..]));
    } else {
      assert g[1..] == [];
      assert Flatten(g) == g[0] + [] == g[0];
      assert |x| == 1;
    }
  }

  lemma {:induction false} LowestOfSummaries(g: seq<seq<Bar>>, d: int)
    requires d > 0 && g != [] && forall i :: 0 <= i < |g| ==> g[i] != []
    ensures Flatten(g) != [] && Lowest(Summaries(g, d)) == Lowest(Flatten(g))
    decreases |g|
  {
    FlattenFront(g);
    SummariesTail(g, d);
    var x := Summaries(g, d);
    assert x[0].l == Lowest(g[0]);
    if |g| > 1 {
      LowestOfSummaries(g[1..], d);
      FlattenFront(g[1..]);
      LowestConcat(g[0], Flatten(g[1..]));
      assert x[1..] == Summaries(g[1..], d);
      assert Lowest(x) == Min(x[0].l, Lowest(x[1..]));
    } else {
      assert g[1..] == [];
      assert Flatten(g) == g[0] + [] == g[0];
      assert |x| == 1;
    }
  }

  lemma {:induction false} VolumeOfSummaries(g: seq<seq<Bar>>, d: int)
    requires d > 0 && forall i :: 0 <= i < |g| ==> g[i] != []
    ensures TotalVolume(Summaries(g, d)) == TotalVolume(Flatten(g))
    decreases |g|
  {
    if g != [] {
      SummariesTail(g, d);
      VolumeOfSummaries(g[1..], d);
      TotalVolumeConcat(g[0], Flatten(g[1..]));
    }
  }

  /**
   * Summarising the summaries of a partition gives the summary of the whole
   * run: first open, highest high, lowest low, last close and total volume
   * agree.
   */
  lemma SummaryOfSummaries(g: seq<seq<Bar>>, d: int, b: int)
    requires d > 0 && g != [] && forall i :: 0 <= i < |g| ==> g[i] != []
    ensures Flatten(g) != [] && Summary(Summaries(g, d), b) == Summary(Flatten(g), b)
  {
    FlattenFront(g);
    FlattenClose(g);
    HighestOfSummaries(g, d);
    LowestOfSummaries(g, d);
    VolumeOfSummaries(g, d);
    SummariesEnds(g, d);
  }

  /** The summaries open with the first bin's open and end with the last bin's close. */
  lemma SummariesEnds(g: seq<seq<Bar>>, d: int)
    requires d > 0 && g != [] && forall i :: 0 <= i < |g| ==> g[i] != []
    ensures Summaries(g, d) != []
    ensures Summaries(g, d)[0].o == g[0][0].o && Close(Summaries(g, d)) == Close(g[|g| - 1])
  {
    SummariesAt(g, d);
    var x := Summaries(g, d);
    var last := g[|g| - 1];
    assert x[|g| - 1] == Summary(last, Floor(last[0].t, d));
  }

  lemma SummariesTail(g: seq<seq<Bar>>, d: int)
    requires d > 0 && g != [] && forall i :: 0 <= i < |g| ==> g[i] != []
    ensures Summaries(g, d) == [Summary(g[0], Floor(g[0][0].t, d))] + Summaries(g[1..], d)
  {
  }

  /** A run of summaries all before `lim`, a coarse boundary, is one coarse bin. */
  lemma CoarseCons(x: seq<Bar>, y: seq<Bar>, d: int, lim: int)
    requires d > 0 && x != [] && Floor(x[0].t, d) + d == lim
    requires Before(x, lim) && From(y, lim)
    ensures Bins(x + y, d) == [x] + Bins(y, d)
  {
    var xy := x + y;
    assert forall j :: 0 <= j < |x| ==> xy[j] == x[j];
    if y != [] {
      assert xy[|x|] == y[0];
    }
    RunLengthExact(xy, lim, |x|);
    BinsCons(xy, d);
    assert xy[..|x|] == x && xy[|x|..] == y;
  }

  /**
   * Cutting a sorted run at the end of its first coarse bin (width `a * m`)
   * cuts its fine bins (width `a`) there too: the fine summaries of the
   * coarse bin come first, all stamped before its end, and those of the rest
   * after it.
   */
  lemma FineSplit(s: seq<Bar>, a: int, m: int)
    requires a > 0 && m > 0 && s != [] && Sorted(s)
    ensures a * m > 0
    ensures Binned(s, a) == Binned(s[..FirstRun(s, a * m)], a) + Binned(s[FirstRun(s, a * m)..], a)
    ensures Before(Binned(s[..FirstRun(s, a * m)], a), Floor(s[0].t, a * m) + a * m)
    ensures From(Binned(s[FirstRun(s, a * m)..], a), Floor(s[0].t, a * m) + a * m)
  {
    var D := a * m;
    Arith.MulAtLeast(m, a);
    var B := Floor(s[0].t, D);
    var n := FirstRun(s, D);
    var lim := B + D;
    Arith.MultipleOfFactor(B, a, m);
    Arith.MultipleMod(m, a);
    Arith.MultipleDiff(B, D, a);
    RunSplits(s, D);
    BinsSplit(s, n, a, lim);
    SummariesConcat(Bins(s[..n], a), Bins(s[n..], a), a);
    BinnedBefore(s[..n], a, lim);
    BinnedFrom(s[n..], a, lim);
  }

  /** The fine summaries of a first coarse bin start at its boundary. */
  lemma FineFront(s: seq<Bar>, a: int, m: int)
    requires a > 0 && m > 0 && s != []
    ensures a * m > 0
    ensures Binned(s, a) != [] && Floor(Binned(s, a)[0].t, a * m) == Floor(s[0].t, a * m)
  {
    BinsCons(s, a);
    assert Bins(s, a)[0][0] == s[0];
    FloorOfFloor(s[0].t, a, m);
  }

  /**
   * The first coarse bin of a sorted run: re-binning the fine summaries at
   * `a * m` yields first the summary of the candles of the first coarse bin.
   */
  lemma CoarseHead(s: seq<Bar>, a: int, m: int)
    requires a > 0 && m > 0 && s != [] && Sorted(s)
    ensures a * m > 0
    ensures Binned(Binned(s, a), a * m) ==
      [Summary(s[..FirstRun(s, a * m)], Floor(s[0].t, a * m))] + Binned(Binned(s[FirstRun(s, a * m)..], a), a * m)
  {
    var D := a * m;
    var n := FirstRun(s, D);
    var B := Floor(s[0].t, D);
    FineSplit(s, a, m);
    var X, Y := Binned(s[..n], a), Binned(s[n..], a);
    assert s[..n][0] == s[0];
    FineFront(s[..n], a, m);
    CoarseCons(X, Y, D, B + D);
    SummariesConcat([X], Bins(Y, D), D);
    SummaryOfSummaries(Bins(s[..n], a), a, B);
    BinsPartition(s[..n], a);
  }

  /**
   * Binning at `a` and then re-binning the summaries at the multiple `a * m`
   * gives what binning at `a * m` gives directly.
   */
  lemma {:induction false} ReAggregate(s: seq<Bar>, a: int, m: int)
    requires a > 0 && m > 0 && Sorted(s)
    ensures a * m > 0
    ensures Binned(Binned(s, a), a * m) == Binned(s, a * m)
    decreases |s|
  {
    Arith.MulAtLeast(m, a);
    if s != [] {
      var n := FirstRun(s, a * m);
      CoarseHead(s, a, m);
      RunSplits(s, a * m);
      ReAggregate(s[n..], a, m);
      BinnedCons(s, a * m);
    }
  }

  // ------------------------------------------------------------ aggregate

  /**
   * `aggregate_candles(candles, tf)` (main.py:557-605): no candles give none,
   * an unsupported timeframe gives the input back unchanged, otherwise the
   * candles sorted by time are binned at the timeframe's span.
   */
  function Aggregate(s: seq<Bar>, tf: string): (r: seq<Bar>)
    ensures s == [] ==> r == []
    ensures Span(tf).None? ==> r == s
    ensures |r| <= |s|
  {
    if s == [] then []
    else match Span(tf)
      case None => s
      case Some(m) => Binned(SortByTime(s), m * MinuteMs)
  }

  /**
   * For 2m and 10m the output is one candle per group of the time-sorted
   * input: the groups are consecutive, cover the input exactly, share their
   * floor boundary, and each becomes the summary stamped with it.
   */
  lemma AggregateGroups(s: seq<Bar>, tf: string, m: int)
    requires s != [] && Span(tf) == Some(m)
    ensures m * MinuteMs > 0
    ensures multiset(SortByTime(s)) == multiset(s) && Sorted(SortByTime(s))
    ensures Flatten(Bins(SortByTime(s), m * MinuteMs)) == SortByTime(s)
    ensures forall i, k ::
      0 <= i < |Bins(SortByTime(s), m * MinuteMs)| && 0 <= k < |Bins(SortByTime(s), m * MinuteMs)[i]| ==>
        Floor(Bins(SortByTime(s), m * MinuteMs)[i][k].t, m * MinuteMs) ==
        Floor(Bins(SortByTime(s), m * MinuteMs)[i][0].t, m * MinuteMs)
    ensures |Aggregate(s, tf)| == |Bins(SortByTime(s), m * MinuteMs)|
    ensures forall i :: 0 <= i < |Aggregate(s, tf)| ==>
      Aggregate(s, tf)[i] ==
        Summary(Bins(SortByTime(s), m * MinuteMs)[i], Floor(Bins(SortByTime(s), m * MinuteMs)[i][0].t, m * MinuteMs))
  {
    SummariesAt(Bins(SortByTime(s), m * MinuteMs), m * MinuteMs);
    SortByTimeSortsAndPermutes(s);
    BinsPartition(SortByTime(s), m * MinuteMs);
    BinsShareFloor(SortByTime(s), m * MinuteMs);
  }

  /** For 2m and 10m the output times strictly increase and lie on the timeframe's grid. */
  lemma AggregateIncreasing(s: seq<Bar>, tf: string, m: int)
    requires Span(tf) == Some(m)
    ensures Increasing(Aggregate(s, tf))
    ensures forall i :: 0 <= i < |Aggregate(s, tf)| ==> Aggregate(s, tf)[i].t % (m * MinuteMs) == 0
  {
    if s != [] {
      SortByTimeSortsAndPermutes(s);
      BinnedIncreasing(SortByTime(s), m * MinuteMs);
      SummariesAt(Bins(SortByTime(s), m * MinuteMs), m * MinuteMs);
    }
  }

  lemma SpanValues()
    ensures Span("2m") == Some(2) && Span("10m") == Some(10)
  {
  }

  /** The 2m output is a non-empty sorted run for non-empty input. */
  lemma BinnedSorted(s: seq<Bar>, d: int)
    requires d > 0 && s != [] && Sorted(s)
    ensures Binned(s, d) != [] && Sorted(Binned(s, d))
  {
    BinnedIncreasing(s, d);
    BinsCons(s, d);
  }

  /** Re-aggregating the 2m candles to 10m gives the direct 10m aggregation. */
  lemma AggregateTwice(s: seq<Bar>)
    ensures Aggregate(Aggregate(s, "2m"), "10m") == Aggregate(s, "10m")
  {
    if s != [] {
      SpanValues();
      var sorted := SortByTime(s);
      SortByTimeSortsAndPermutes(s);
      var two := Binned(sorted, 2 * MinuteMs);
      assert Aggregate(s, "2m") == two;
      BinnedSorted(sorted, 2 * MinuteMs);
      SortByTimeOfSorted(two);
      assert Aggregate(two, "10m") == Binned(two, 10 * MinuteMs);
      ReAggregate(sorted, 2 * MinuteMs, 5);
      assert Aggregate(s, "10m") == Binned(sorted, 10 * MinuteMs);
    }
  }

  /** A run lying inside one bin `[b, b + d)` aggregates to the one summary stamped `b`. */
  lemma WholeRun(s: seq<Bar>, d: int, b: int)
    requires d > 0 && s != [] && b % d == 0
    requires forall k :: 0 <= k < |s| ==> b <= s[k].t < b + d
    ensures Binned(s, d) == [Summary(s, b)]
  {
    FloorUnique(s[0].t, d, b);
    RunLengthExact(s, b + d, |s|);
    BinnedCons(s, d);
    assert s[..|s|] == s && s[|s|..] == [];
  }

  /** Ten candles one minute apart from a 10-minute boundary `b` become one candle stamped `b`. */
  lemma TenMinutes(s: seq<Bar>, b: int)
    requires |s| == 10 && b % (10 * MinuteMs) == 0
    requires forall k :: 0 <= k < 10 ==> s[k].t == b + k * MinuteMs
    ensures Aggregate(s, "10m") == [Summary(s, b)]
  {
    SpanValues();
    assert Sorted(s);
    SortByTimeOfSorted(s);
    WholeRun(s, 10 * MinuteMs, b);
  }

  /** One pass of the outer loop takes exactly the first bin of what is left. */
  lemma BinnedStep(s: seq<Bar>, start: int, i: int, d: int)
    requires d > 0 && 0 <= start < |s| && start <= i <= |s|
    requires forall k :: start <= k < i ==> s[k].t < Floor(s[start].t, d) + d
    requires i < |s| ==> s[i].t >= Floor(s[start].t, d) + d
    ensures start < i
    ensures Binned(s[start..], d) == [Summary(s[start..i], Floor(s[start].t, d))] + Binned(s[i..], d)
  {
    SuffixRun(s, start, i, d);
    BinnedCons(s[start..], d);
    DropSlices(s, start, i);
  }

  /** The first bin of `s[start..]` ends where the times reach its boundary plus `d`. */
  lemma SuffixRun(s: seq<Bar>, start: int, i: int, d: int)
    requires d > 0 && 0 <= start < |s| && start <= i <= |s|
    requires forall k :: start <= k < i ==> s[k].t < Floor(s[start].t, d) + d
    requires i < |s| ==> s[i].t >= Floor(s[start].t, d) + d
    ensures s[start..] != [] && s[start..][0] == s[start] && FirstRun(s[start..], d) == i - start
  {
    var q := s[start..];
    assert forall k :: 0 <= k < i - start ==> q[k] == s[start + k];
    RunLengthExact(q, Floor(s[start].t, d) + d, i - start);
  }

  lemma DropSlices(s: seq<Bar>, j: int, i: int)
    requires 0 <= j <= i <= |s|
    ensures s[j..][..i - j] == s[j..i] && s[j..][i - j..] == s[i..]
  {
  }

  /**
   * The inner loop (main.py:586-593): from `i` on, collect the candles while
   * they open before `lim`.
   */
  method TakeGroup(a: array<Bar>, i: int, lim: int) returns (group: seq<Bar>, j: int)
    requires 0 <= i <= a.Length
    ensures i <= j <= a.Length && group == a[i..j]
    ensures forall k :: i <= k < j ==> a[k].t < lim
    ensures j < a.Length ==> a[j].t >= lim
  {
    group, j := [], i;
    while j < a.Length && a[j].t < lim
      invariant i <= j <= a.Length && group == a[i..j]
      invariant forall k :: i <= k < j ==> a[k].t < lim
    {
      group := group + [a[j]];
      j := j + 1;
    }
  }

  lemma AppendAssoc(x: seq<Bar>, y: seq<Bar>, z: seq<Bar>)
    ensures (x + y) + z == x + (y + z)
  {
  }

  /**
   * `aggregate_candles` on the caller's list: the list is sorted in place
   * (main.py:575), then walked with one index, each pass of the outer loop
   * computing the calendar boundary of the next candle and the inner loop
   * collecting the candles before the boundary plus the span.
   */
  method AggregateCandles(a: array<Bar>, tf: string) returns (out: seq<Bar>)
    modifies a
    ensures out == Aggregate(old(a[..]), tf)
    ensures a[..] == if old(a[..]) == [] || Span(tf).None? then old(a[..]) else SortByTime(old(a[..]))
  {
    if a.Length == 0 {
      return [];
    }
    var span := Span(tf);
    if span.None? {
      return a[..];
    }
    SortInPlace(a);
    out := BinRun(a, span.value);
  }

  /**
   * The walk of main.py:577-603 over the sorted list: each pass of the outer
   * loop computes the calendar boundary of the next candle, takes the group
   * after it and appends the group's summary.
   */
  method BinRun(a: array<Bar>, m: int) returns (out: seq<Bar>)
    requires m > 0 && 60 % m == 0
    ensures out == Binned(a[..], m * MinuteMs)
  {
    var d := m * MinuteMs;
    out := [];
    var i := 0;
    while i < a.Length
      invariant 0 <= i <= a.Length
      invariant out + Binned(a[i..], d) == Binned(a[..], d)
      decreases a.Length - i
    {
      var boundary := Boundary(a[i].t, m);
      ghost var start, before := i, out;
      var group;
      group, i := TakeGroup(a, i, boundary + d);
      BinnedStep(a[..], start, i, d);
      if group != [] {
        out := out + [Summary(group, boundary)];
        AppendAssoc(before, [Summary(group, boundary)], Binned(a[i..], d));
      }
    }
    assert a[i..] == [];
  }
}
