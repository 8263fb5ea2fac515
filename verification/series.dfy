/** The pandas operations the charts use, on series indexed by day number:
    weekly and daily resampling with `sum`, `cumsum`, `date_range(freq="W")`,
    `reindex` with forward fill and with a fill value, and subtraction of two
    aligned series. A point is a value at a day number; a series is a sequence
    of points whose day numbers ascend. */
module Series {
  import opened Wrappers
  import opened Calendar

  /** A value at a day number: an amount on its transaction day, or an
      aggregate at its bucket label. */
  datatype Point = Point(at: int, value: int)

  /** Labels strictly ascend, as in every series resample produces. */
  ghost predicate Ascending(s: seq<Point>) {
    forall i, j :: 0 <= i < j < |s| ==> s[i].at < s[j].at
  }

  // ---------------------------------------------------------------------------
  // Sums over points

  function SumAll(ps: seq<Point>): int {
    if |ps| == 0 then 0 else ps[0].value + SumAll(ps[1..])
  }

  /** Sum of the values dated on or before day `t`. */
  function SumThrough(ps: seq<Point>, t: int): int {
    if |ps| == 0 then 0
    else (if ps[0].at <= t then ps[0].value else 0) + SumThrough(ps[1..], t)
  }

  /** Sum of the values whose week ends on Sunday `w`. */
  function SumInWeek(ps: seq<Point>, w: int): int {
    if |ps| == 0 then 0
    else (if WeekEnding(ps[0].at) == w then ps[0].value else 0) + SumInWeek(ps[1..], w)
  }

  /** Sum of the values dated exactly on day `d`. */
  function SumOn(ps: seq<Point>, d: int): int {
    if |ps| == 0 then 0
    else (if ps[0].at == d then ps[0].value else 0) + SumOn(ps[1..], d)
  }

  /** The earliest day of a non-empty sequence of points. */
  function MinAt(ps: seq<Point>): (m: int)
    requires |ps| > 0
    ensures exists i :: 0 <= i < |ps| && ps[i].at == m
    ensures forall i :: 0 <= i < |ps| ==> m <= ps[i].at
  {
    if |ps| == 1 then ps[0].at
    else
      var rest := MinAt(ps[1..]);
      if ps[0].at <= rest then ps[0].at else rest
  }

  /** The latest day of a non-empty sequence of points. */
  function MaxAt(ps: seq<Point>): (m: int)
    requires |ps| > 0
    ensures exists i :: 0 <= i < |ps| && ps[i].at == m
    ensures forall i :: 0 <= i < |ps| ==> ps[i].at <= m
  {
    if |ps| == 1 then ps[0].at
    else
      var rest := MaxAt(ps[1..]);
      if ps[0].at >= rest then ps[0].at else rest
  }

  lemma {:induction false} SumAllSnoc(ps: seq<Point>, p: Point)
    ensures SumAll(ps + [p]) == SumAll(ps) + p.value
  {
    if |ps| == 0 {
      assert ps + [p] == [p];
    } else {
      assert (ps + [p])[1..] == ps[1..] + [p];
      SumAllSnoc(ps[1..], p);
    }
  }

  /** Nothing is dated on or before a day earlier than every point. */
  lemma {:induction false} SumThroughNone(ps: seq<Point>, t: int)
    requires forall i :: 0 <= i < |ps| ==> t < ps[i].at
    ensures SumThrough(ps, t) == 0
  {
    if |ps| > 0 {
      SumThroughNone(ps[1..], t);
    }
  }

  /** Everything is dated on or before a day later than every point. */
  lemma {:induction false} SumThroughAll(ps: seq<Point>, t: int)
    requires forall i :: 0 <= i < |ps| ==> ps[i].at <= t
    ensures SumThrough(ps, t) == SumAll(ps)
  {
    if |ps| > 0 {
      SumThroughAll(ps[1..], t);
    }
  }

  /** Up to a Sunday is up to the Sunday before, plus the week that ends on it. */
  lemma {:induction false} SumThroughWeek(ps: seq<Point>, w: int)
    requires IsSunday(w)
    ensures SumThrough(ps, w) == SumThrough(ps, w - 7) + SumInWeek(ps, w)
  {
    if |ps| > 0 {
      SumThroughWeek(ps[1..], w);
    }
  }

  /** No point on day `d`, nothing summed on it. */
  lemma {:induction false} SumOnNone(ps: seq<Point>, d: int)
    requires forall i :: 0 <= i < |ps| ==> ps[i].at != d
    ensures SumOn(ps, d) == 0
  {
    if |ps| > 0 {
      SumOnNone(ps[1..], d);
    }
  }

  // ---------------------------------------------------------------------------
  // Resampling

  /** `series.resample("W").sum()`: one bucket per Sunday from the week of the
      first point to the week of the last, empty weeks included with sum 0. */
  function ResampleWeekly(ps: seq<Point>): (r: seq<Point>)
    ensures |ps| == 0 ==> r == []
    ensures |ps| > 0 ==> |r| > 0 && r[0].at == WeekEnding(MinAt(ps)) && r[|r| - 1].at == WeekEnding(MaxAt(ps))
    ensures forall k :: 0 <= k < |r| ==> IsSunday(r[k].at) && r[k].value == SumInWeek(ps, r[k].at)
    ensures forall k :: 0 <= k < |r| ==> r[k].at == r[0].at + 7 * k
  {
    if |ps| == 0 then []
    else
      var first := WeekEnding(MinAt(ps));
      var last := WeekEnding(MaxAt(ps));
      SundaysWeeksApart(first, last);
      var r := seq((last - first) / 7 + 1, k => Point(first + 7 * k, SumInWeek(ps, first + 7 * k)));
      WeeklyBuckets(r, ps, first);
      r
  }

  /** Buckets labelled a whole number of weeks after a Sunday, each holding
      its week's sum, are Sunday buckets holding their own week's sum. */
  lemma WeeklyBuckets(r: seq<Point>, ps: seq<Point>, first: int)
    requires IsSunday(first)
    requires forall k :: 0 <= k < |r| ==> r[k] == Point(first + 7 * k, SumInWeek(ps, first + 7 * k))
    ensures forall k :: 0 <= k < |r| ==> IsSunday(r[k].at) && r[k].value == SumInWeek(ps, r[k].at)
  {
    forall k | 0 <= k < |r|
      ensures IsSunday(r[k].at)
    {
      SundayAfterWeeks(first, k);
    }
  }

  /** `series.resample("D").sum()`: one bucket per day from the first point to
      the last, days without points included with sum 0. */
  function ResampleDaily(ps: seq<Point>): (r: seq<Point>)
    ensures |ps| == 0 ==> r == []
    ensures |ps| > 0 ==> |r| == MaxAt(ps) - MinAt(ps) + 1
    ensures forall k :: 0 <= k < |r| ==> r[k].at == MinAt(ps) + k && r[k].value == SumOn(ps, r[k].at)
  {
    if |ps| == 0 then []
    else seq(MaxAt(ps) - MinAt(ps) + 1, k => Point(MinAt(ps) + k, SumOn(ps, MinAt(ps) + k)))
  }

  /** Running total of the values from `base` on, each keeping its label. */
  function RunningSum(s: seq<Point>, base: int): (r: seq<Point>)
    ensures |r| == |s|
    ensures forall k :: 0 <= k < |s| ==> r[k].at == s[k].at && r[k].value == base + SumAll(s[..k + 1])
  {
    if |s| == 0 then []
    else
      var rest := RunningSum(s[1..], base + s[0].value);
      assert forall k :: 1 <= k < |s| ==> s[..k + 1][1..] == s[1..][..k];
      [Point(s[0].at, base + s[0].value)] + rest
  }

  /** `series.cumsum()`. */
  function CumSum(s: seq<Point>): (r: seq<Point>)
    ensures |r| == |s|
    ensures forall k :: 0 <= k < |s| ==> r[k].at == s[k].at && r[k].value == SumAll(s[..k + 1])
  {
    RunningSum(s, 0)
  }

  // ---------------------------------------------------------------------------
  // Grids and reindexing

  /** `pd.date_range(start=lo, end=hi, freq="W")`: every Sunday from `lo` to
      `hi`, both included, ascending. */
  function WeeklyRange(lo: int, hi: int): (r: seq<int>)
    ensures forall k :: 0 <= k < |r| ==> IsSunday(r[k]) && lo <= r[k] <= hi
    ensures forall k :: 0 < k < |r| ==> r[k] == r[k - 1] + 7
    ensures forall n :: IsSunday(n) && lo <= n <= hi ==> n in r
  {
    var first := WeekEnding(lo);
    var count := if first > hi then 0 else (hi - first) / 7 + 1;
    var r := seq(count, k => first + 7 * k);
    forall n | IsSunday(n) && lo <= n <= hi
      ensures n in r
    {
      assert first <= n;
      SundaysWeeksApart(first, n);
      assert r[(n - first) / 7] == n;
    }
    r
  }

  /** Position `j` holds the last label on or before `t`: every later label is
      after `t`. On an ascending series that is the greatest such label. */
  predicate LastAtOrBefore(s: seq<Point>, t: int, j: int) {
    0 <= j < |s| && s[j].at <= t && forall m :: j < m < |s| ==> t < s[m].at
  }

  /** Position `j` holds the last occurrence of label `t`. */
  predicate LastAt(s: seq<Point>, t: int, j: int) {
    0 <= j < |s| && s[j].at == t && forall m :: j < m < |s| ==> s[m].at != t
  }

  /** The value at the last label on or before `t`: what `reindex(...,
      method="ffill")` puts at target `t`; None (NaN) when every label is later. */
  function AsOf(s: seq<Point>, t: int): Option<int> {
    if |s| == 0 then None
    else if s[|s| - 1].at <= t then Some(s[|s| - 1].value)
    else AsOf(s[..|s| - 1], t)
  }

  /** `AsOf` finds the last label on or before `t`, and is NaN exactly when
      every label is after `t`. */
  lemma {:induction false} AsOfMeaning(s: seq<Point>, t: int)
    ensures AsOf(s, t).None? <==> forall j :: 0 <= j < |s| ==> t < s[j].at
    ensures AsOf(s, t).Some? ==> exists j :: LastAtOrBefore(s, t, j) && AsOf(s, t).value == s[j].value
  {
    AsOfNaN(s, t);
    AsOfFound(s, t);
  }

  lemma {:induction false} AsOfNaN(s: seq<Point>, t: int)
    ensures AsOf(s, t).None? <==> forall j :: 0 <= j < |s| ==> t < s[j].at
  {
    if |s| > 0 && t < s[|s| - 1].at {
      var init := s[..|s| - 1];
      AsOfNaN(init, t);
      assert forall j :: 0 <= j < |s| - 1 ==> init[j] == s[j];
    }
  }

  lemma {:induction false} AsOfFound(s: seq<Point>, t: int)
    ensures AsOf(s, t).Some? ==> exists j :: LastAtOrBefore(s, t, j) && AsOf(s, t).value == s[j].value
  {
    if |s| > 0 {
      if s[|s| - 1].at <= t {
        assert LastAtOrBefore(s, t, |s| - 1);
      } else {
        var init := s[..|s| - 1];
        AsOfFound(init, t);
        if AsOf(init, t).Some? {
          var j :| LastAtOrBefore(init, t, j) && AsOf(init, t).value == init[j].value;
          assert LastAtOrBefore(s, t, j);
        }
      }
    }
  }

  /** `series.reindex(targets, method="ffill")`: at each target, the value of
      the last label on or before it, or NaN when every label is later. */
  function ReindexFfill(s: seq<Point>, targets: seq<int>): (r: seq<Option<int>>)
    ensures |r| == |targets|
    ensures forall i :: 0 <= i < |targets| ==> r[i] == AsOf(s, targets[i])
    ensures forall i :: 0 <= i < |targets| ==> (r[i].None? <==> forall j :: 0 <= j < |s| ==> targets[i] < s[j].at)
    ensures forall i :: 0 <= i < |targets| && r[i].Some? ==>
      exists j :: LastAtOrBefore(s, targets[i], j) && r[i].value == s[j].value
  {
    forall i | 0 <= i < |targets| {
      AsOfMeaning(s, targets[i]);
    }
    seq(|targets|, i requires 0 <= i < |targets| => AsOf(s, targets[i]))
  }

  /** The value at the last label equal to `t`, or `fill` when no label is `t`. */
  function ValueAt(s: seq<Point>, t: int, fill: int): int {
    if |s| == 0 then fill
    else if s[|s| - 1].at == t then s[|s| - 1].value
    else ValueAt(s[..|s| - 1], t, fill)
  }

  /** `ValueAt` finds the last label equal to `t`, and gives the fill value
      exactly when there is none. */
  lemma {:induction false} ValueAtMeaning(s: seq<Point>, t: int, fill: int)
    ensures (forall j :: 0 <= j < |s| ==> s[j].at != t) ==> ValueAt(s, t, fill) == fill
    ensures (exists j :: 0 <= j < |s| && s[j].at == t) ==> exists j :: LastAt(s, t, j) && ValueAt(s, t, fill) == s[j].value
  {
    if |s| > 0 {
      var init := s[..|s| - 1];
      if s[|s| - 1].at == t {
        assert LastAt(s, t, |s| - 1);
      } else {
        ValueAtMeaning(init, t, fill);
        if exists j :: 0 <= j < |s| && s[j].at == t {
          var k :| 0 <= k < |s| && s[k].at == t;
          assert init[k].at == t;
          var j :| LastAt(init, t, j) && ValueAt(init, t, fill) == init[j].value;
          assert LastAt(s, t, j);
        } else {
          assert forall j :: 0 <= j < |init| ==> init[j].at != t;
        }
      }
    }
  }

  /** `series.reindex(targets, fill_value=fill)`: at each target, the value of
      the label equal to it, or the fill value when there is none. */
  function ReindexFill(s: seq<Point>, targets: seq<int>, fill: int): (r: seq<int>)
    ensures |r| == |targets|
    ensures forall i :: 0 <= i < |targets| ==> r[i] == ValueAt(s, targets[i], fill)
    ensures forall i :: 0 <= i < |targets| && (forall j :: 0 <= j < |s| ==> s[j].at != targets[i]) ==> r[i] == fill
    ensures forall i :: 0 <= i < |targets| && (exists j :: 0 <= j < |s| && s[j].at == targets[i]) ==>
      exists j :: LastAt(s, targets[i], j) && r[i] == s[j].value
  {
    forall i | 0 <= i < |targets| {
      ValueAtMeaning(s, targets[i], fill);
    }
    seq(|targets|, i requires 0 <= i < |targets| => ValueAt(s, targets[i], fill))
  }

  /** Pointwise `a - b` of two aligned series; NaN on either side gives NaN. */
  function Subtract(a: seq<Option<int>>, b: seq<Option<int>>): (r: seq<Option<int>>)
    requires |a| == |b|
    ensures |r| == |a|
    ensures forall i :: 0 <= i < |a| ==> (r[i].Some? <==> a[i].Some? && b[i].Some?)
    ensures forall i :: 0 <= i < |a| && r[i].Some? ==> r[i].value == a[i].value - b[i].value
  {
    seq(|a|, i requires 0 <= i < |a| =>
      if a[i].Some? && b[i].Some? then Some(a[i].value - b[i].value) else None)
  }

  // ---------------------------------------------------------------------------
  // Lookups in ascending series

  /** Forward fill picks the last label on or before the target. */
  lemma {:induction false} AsOfPicksLast(s: seq<Point>, t: int, j: int)
    requires Ascending(s)
    requires 0 <= j < |s| && s[j].at <= t
    requires j == |s| - 1 || t < s[j + 1].at
    ensures AsOf(s, t) == Some(s[j].value)
  {
    if j < |s| - 1 {
      assert s[j + 1].at <= s[|s| - 1].at;
      AsOfPicksLast(s[..|s| - 1], t, j);
    }
  }

  /** Forward fill before the first label has nothing to carry: NaN. */
  lemma {:induction false} AsOfBeforeStart(s: seq<Point>, t: int)
    requires forall i :: 0 <= i < |s| ==> t < s[i].at
    ensures AsOf(s, t) == None
  {
    if |s| > 0 {
      AsOfBeforeStart(s[..|s| - 1], t);
    }
  }

  /** An exact lookup finds the value at a label that is present. */
  lemma {:induction false} ValueAtPresent(s: seq<Point>, t: int, fill: int, j: int)
    requires Ascending(s)
    requires 0 <= j < |s| && s[j].at == t
    ensures ValueAt(s, t, fill) == s[j].value
  {
    if j < |s| - 1 {
      ValueAtPresent(s[..|s| - 1], t, fill, j);
    }
  }

  /** An exact lookup of an absent label gives the fill value. */
  lemma {:induction false} ValueAtAbsent(s: seq<Point>, t: int, fill: int)
    requires forall i :: 0 <= i < |s| ==> s[i].at != t
    ensures ValueAt(s, t, fill) == fill
  {
    if |s| > 0 {
      ValueAtAbsent(s[..|s| - 1], t, fill);
    }
  }
}
