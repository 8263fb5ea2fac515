/** The data steps of `plot_transactions1`: cumulative income and expense per
    week (weeks ending on Sunday), laid on the grid of Sundays between the
    view's first and last dates with forward fill, and their difference. */
module WeeklyChart {
  import opened Wrappers
  import opened Calendar
  import opened Ledger
  import opened RangeQuery
  import opened Series
  import opened Frame

  /** Three aligned series on one grid of Sundays; None is pandas' NaN. */
  datatype WeeklyCumulative = WeeklyCumulative(
    weeks: seq<ValidDate>,
    income: seq<Option<int>>,
    expense: seq<Option<int>>,
    net: seq<Option<int>>)

  /** Some point is dated on or before day `t`. */
  predicate HasPointThrough(ps: seq<Point>, t: int) {
    exists i :: 0 <= i < |ps| && ps[i].at <= t
  }

  /** Day `n` lies between the view's earliest and latest dates, both included. */
  predicate WithinSpan(view: seq<Record>, n: int) {
    && (exists x :: x in view && Ordinal(x.date) <= n)
    && (exists y :: y in view && n <= Ordinal(y.date))
  }

  /** Money accumulated by day `t`: the sum of everything dated on or before
      `t`, undefined while nothing has been recorded yet. */
  function CumulativeAt(ps: seq<Point>, t: int): Option<int> {
    if HasPointThrough(ps, t) then Some(SumThrough(ps, t)) else None
  }

  /** `resample("W").sum().cumsum()`, then `reindex(grid, method="ffill")`. */
  function CumulativeOnGrid(ps: seq<Point>, grid: seq<int>): (r: seq<Option<int>>)
    requires forall k :: 0 <= k < |grid| ==> IsSunday(grid[k])
    ensures |r| == |grid|
    ensures forall k :: 0 <= k < |grid| ==> r[k] == CumulativeAt(ps, grid[k])
  {
    var r := ReindexFfill(CumSum(ResampleWeekly(ps)), grid);
    forall k | 0 <= k < |grid|
      ensures r[k] == CumulativeAt(ps, grid[k])
    {
      FfillIsCumulative(ps, grid[k]);
    }
    r
  }

  /** `weeks` are the Sundays between the view's earliest and latest dates,
      all of them, ascending one week apart: the grid `date_range` builds. */
  ghost predicate IsSundayGrid(view: seq<Record>, weeks: seq<ValidDate>) {
    && (forall k :: 0 <= k < |weeks| ==> IsSunday(Ordinal(weeks[k])) && WithinSpan(view, Ordinal(weeks[k])))
    && (forall d: ValidDate :: IsSunday(Ordinal(d)) && WithinSpan(view, Ordinal(d)) ==> d in weeks)
    && (forall k :: 0 < k < |weeks| ==> Ordinal(weeks[k]) == Ordinal(weeks[k - 1]) + 7)
  }

  /** One value per Sunday of the grid: the category's money accumulated by
      that Sunday. */
  predicate IsCumulativeSeries(view: seq<Record>, category: Category, weeks: seq<ValidDate>, values: seq<Option<int>>) {
    && |values| == |weeks|
    && forall k :: 0 <= k < |weeks| ==> values[k] == CumulativeAt(AmountsOf(view, category), Ordinal(weeks[k]))
  }

  /** `d` is `a - b` pointwise, NaN wherever either side is NaN. */
  predicate IsDifference(a: seq<Option<int>>, b: seq<Option<int>>, d: seq<Option<int>>) {
    && |a| == |b| == |d|
    && forall k :: 0 <= k < |d| ==>
      && (d[k].Some? <==> a[k].Some? && b[k].Some?)
      && (d[k].Some? ==> d[k].value == a[k].value - b[k].value)
  }

  /** `plot_transactions1(df)` up to the drawing: the Sunday grid spans the
      whole view's first to last date; each category's cumulative series is
      forward-filled onto it; net savings is their difference. An empty view
      has no first date, and pandas refuses to build the grid. */
  function Weekly(view: seq<Record>): (r: Result<WeeklyCumulative, LedgerError>)
    ensures r.Err? <==> |view| == 0
    ensures r.Err? ==> r.error == EmptyView
    ensures r.Ok? ==> IsSundayGrid(view, r.value.weeks)
    ensures r.Ok? ==> IsCumulativeSeries(view, Income, r.value.weeks, r.value.income)
    ensures r.Ok? ==> IsCumulativeSeries(view, Expense, r.value.weeks, r.value.expense)
    ensures r.Ok? ==> IsDifference(r.value.income, r.value.expense, r.value.net)
  {
    if |view| == 0 then Err(EmptyView)
    else
      var weeks := SundaysInSpan(view);
      var income := SeriesOnGrid(view, Income, weeks);
      var expense := SeriesOnGrid(view, Expense, weeks);
      Ok(WeeklyCumulative(weeks, income, expense, Subtract(income, expense)))
  }

  /** One category's `resample("W").sum().cumsum()` forward-filled onto the
      Sundays `weeks`: its money accumulated by each of them. */
  function SeriesOnGrid(view: seq<Record>, category: Category, weeks: seq<ValidDate>): (values: seq<Option<int>>)
    requires forall k :: 0 <= k < |weeks| ==> IsSunday(Ordinal(weeks[k]))
    ensures IsCumulativeSeries(view, category, weeks, values)
  {
    var grid := seq(|weeks|, k requires 0 <= k < |weeks| => Ordinal(weeks[k]));
    CumulativeOnGrid(AmountsOf(view, category), grid)
  }

  /** `pd.date_range(start=df.index.min(), end=df.index.max(), freq="W")`:
      the Sundays from the view's earliest to its latest date, ascending. */
  function SundaysInSpan(view: seq<Record>): (weeks: seq<ValidDate>)
    requires |view| > 0
    ensures IsSundayGrid(view, weeks)
  {
    var days := Dated(view);
    SpanWithinCalendar(view);
    var grid := WeeklyRange(MinAt(days), MaxAt(days));
    assert forall k :: 0 <= k < |grid| ==> 1 <= grid[k] <= MaxOrdinal;
    var weeks := DatesOf(grid);
    GridFromView(view, grid, weeks);
    weeks
  }

  // ---------------------------------------------------------------------------
  // Proof of the forward-filled cumulative series

  /** The cumulative weekly sums count everything up to the end of each week. */
  lemma {:induction false} BucketPrefix(ps: seq<Point>, k: int)
    requires 0 <= k < |ResampleWeekly(ps)|
    ensures var s := ResampleWeekly(ps);
      SumAll(s[..k + 1]) == SumThrough(ps, s[0].at + 7 * k)
  {
    BucketSums(ps, ResampleWeekly(ps), k);
  }

  /** What `ResampleWeekly` promises about its buckets, as one fact. */
  ghost predicate WeeklyResampled(ps: seq<Point>, s: seq<Point>) {
    && |ps| > 0 && |s| > 0 && s[0].at == WeekEnding(MinAt(ps))
    && forall k :: 0 <= k < |s| ==> IsSunday(s[k].at) && s[k].at == s[0].at + 7 * k && s[k].value == SumInWeek(ps, s[k].at)
  }

  lemma {:induction false} BucketSums(ps: seq<Point>, s: seq<Point>, k: int)
    requires WeeklyResampled(ps, s) && 0 <= k < |s|
    ensures SumAll(s[..k + 1]) == SumThrough(ps, s[0].at + 7 * k)
  {
    var w := s[0].at + 7 * k;
    SumThroughWeek(ps, w);
    if k == 0 {
      assert s[..1] == [s[0]];
      assert SumAll(s[..1]) == s[0].value + SumAll([]);
      SumThroughNone(ps, w - 7);
    } else {
      BucketSums(ps, s, k - 1);
      assert s[..k + 1] == s[..k] + [s[k]];
      SumAllSnoc(s[..k], s[k]);
    }
  }

  /** At a Sunday, forward-filling the weekly cumulative sums gives the money
      accumulated by that Sunday. */
  lemma FfillIsCumulative(ps: seq<Point>, w: int)
    requires IsSunday(w)
    ensures AsOf(CumSum(ResampleWeekly(ps)), w) == CumulativeAt(ps, w)
  {
    if |ps| > 0 {
      var s := ResampleWeekly(ps);
      if w < s[0].at {
        FfillBeforeFirstWeek(ps, w);
      } else if w <= s[|s| - 1].at {
        FfillWithinWeeks(ps, w);
      } else {
        FfillAfterLastWeek(ps, w);
      }
    }
  }

  /** Every point falls on or before the end of the first week. */
  lemma FirstWeekBound(ps: seq<Point>)
    requires |ps| > 0
    ensures forall i :: 0 <= i < |ps| ==> ResampleWeekly(ps)[0].at <= WeekEnding(ps[i].at)
  {
    forall i | 0 <= i < |ps|
      ensures WeekEnding(MinAt(ps)) <= WeekEnding(ps[i].at)
    {
      WeekEndingMonotone(MinAt(ps), ps[i].at);
    }
  }

  /** Before the first week's Sunday nothing has been recorded. */
  lemma FfillBeforeFirstWeek(ps: seq<Point>, w: int)
    requires |ps| > 0 && IsSunday(w) && w < ResampleWeekly(ps)[0].at
    ensures AsOf(CumSum(ResampleWeekly(ps)), w) == None
    ensures CumulativeAt(ps, w) == None
  {
    var c := CumSum(ResampleWeekly(ps));
    AsOfBeforeStart(c, w);
    FirstWeekBound(ps);
    forall i | 0 <= i < |ps|
      ensures w < ps[i].at
    {
      WeekEndingAtMost(ps[i].at, w);
    }
  }

  /** From the first week's Sunday on, something has been recorded. */
  lemma PointThroughFirstWeek(ps: seq<Point>, w: int)
    requires |ps| > 0 && ResampleWeekly(ps)[0].at <= w
    ensures HasPointThrough(ps, w)
  {
    var i :| 0 <= i < |ps| && ps[i].at == MinAt(ps);
    assert ps[i].at <= WeekEnding(MinAt(ps));
  }

  /** A Sunday on the resampled grid picks its own week's cumulative sum. */
  lemma FfillWithinWeeks(ps: seq<Point>, w: int)
    requires |ps| > 0 && IsSunday(w)
    requires ResampleWeekly(ps)[0].at <= w <= ResampleWeekly(ps)[|ResampleWeekly(ps)| - 1].at
    ensures AsOf(CumSum(ResampleWeekly(ps)), w) == CumulativeAt(ps, w)
  {
    PointThroughFirstWeek(ps, w);
    FfillOnBuckets(ps, ResampleWeekly(ps), w);
  }

  /** The same, for any buckets that meet `ResampleWeekly`'s promise. */
  lemma FfillOnBuckets(ps: seq<Point>, s: seq<Point>, w: int)
    requires WeeklyResampled(ps, s) && IsSunday(w) && HasPointThrough(ps, w)
    requires s[0].at <= w <= s[|s| - 1].at
    ensures AsOf(CumSum(s), w) == CumulativeAt(ps, w)
  {
    var c := CumSum(s);
    var j := WeekIndex(s, w);
    assert Ascending(c);
    AsOfPicksLast(c, w, j);
    assert c[j].value == SumAll(s[..j + 1]);
    BucketSums(ps, s, j);
  }

  /** The position of Sunday `w` on a weekly grid that spans it. */
  lemma WeekIndex(s: seq<Point>, w: int) returns (j: int)
    requires |s| > 0 && IsSunday(s[0].at) && IsSunday(w)
    requires forall k :: 0 <= k < |s| ==> s[k].at == s[0].at + 7 * k
    requires s[0].at <= w <= s[|s| - 1].at
    ensures 0 <= j < |s| && s[j].at == w && s[0].at + 7 * j == w
  {
    SundaysWeeksApart(s[0].at, w);
    j := (w - s[0].at) / 7;
    assert s[|s| - 1].at == s[0].at + 7 * (|s| - 1);
  }

  /** After the last week's Sunday everything has been recorded: the last
      cumulative sum carries forward. */
  lemma FfillAfterLastWeek(ps: seq<Point>, w: int)
    requires |ps| > 0 && ResampleWeekly(ps)[|ResampleWeekly(ps)| - 1].at < w
    ensures AsOf(CumSum(ResampleWeekly(ps)), w) == CumulativeAt(ps, w)
  {
    var s := ResampleWeekly(ps);
    var c := CumSum(s);
    var m := |s| - 1;
    PointThroughFirstWeek(ps, w);
    assert Ascending(c);
    AsOfPicksLast(c, w, m);
    BucketPrefix(ps, m);
    SumThroughAll(ps, s[m].at);
    SumThroughAll(ps, w);
  }

  /** The dates with the given day numbers, in the same order. */
  function DatesOf(days: seq<int>): (dates: seq<ValidDate>)
    requires forall k :: 0 <= k < |days| ==> 1 <= days[k] <= MaxOrdinal
    ensures |dates| == |days|
    ensures forall k :: 0 <= k < |days| ==> Ordinal(dates[k]) == days[k]
  {
    seq(|days|, k requires 0 <= k < |days| => FromOrdinal(days[k]))
  }

  /** The view's span lies within the representable dates. */
  lemma SpanWithinCalendar(view: seq<Record>)
    requires |view| > 0
    ensures 1 <= MinAt(Dated(view)) && MaxAt(Dated(view)) <= MaxOrdinal
  {
    var days := Dated(view);
    DatedWithinCalendar(view);
    var i :| 0 <= i < |days| && days[i].at == MinAt(days);
    var j :| 0 <= j < |days| && days[j].at == MaxAt(days);
  }

  /** The span test is the comparison with the least and greatest day number. */
  lemma SpanIsMinMax(view: seq<Record>, n: int)
    requires |view| > 0
    ensures WithinSpan(view, n) <==> MinAt(Dated(view)) <= n <= MaxAt(Dated(view))
  {
    var days := Dated(view);
    var i :| 0 <= i < |days| && days[i].at == MinAt(days);
    var j :| 0 <= j < |days| && days[j].at == MaxAt(days);
    assert view[i] in view && view[j] in view;
    if WithinSpan(view, n) {
      var x :| x in view && Ordinal(x.date) <= n;
      var y :| y in view && n <= Ordinal(y.date);
      var a :| 0 <= a < |view| && view[a] == x;
      var b :| 0 <= b < |view| && view[b] == y;
      assert days[a].at <= n <= days[b].at;
    }
  }

  /** The grid converted to dates is exactly the Sundays within the view's span. */
  lemma GridFromView(view: seq<Record>, grid: seq<int>, weeks: seq<ValidDate>)
    requires |view| > 0
    requires grid == WeeklyRange(MinAt(Dated(view)), MaxAt(Dated(view)))
    requires |weeks| == |grid| && forall k :: 0 <= k < |grid| ==> Ordinal(weeks[k]) == grid[k]
    ensures forall k :: 0 <= k < |weeks| ==> WithinSpan(view, Ordinal(weeks[k]))
    ensures forall d: ValidDate :: IsSunday(Ordinal(d)) && WithinSpan(view, Ordinal(d)) ==> d in weeks
    ensures IsSundayGrid(view, weeks)
  {
    forall k | 0 <= k < |weeks|
      ensures WithinSpan(view, Ordinal(weeks[k]))
    {
      SpanIsMinMax(view, grid[k]);
    }
    forall d: ValidDate | IsSunday(Ordinal(d)) && WithinSpan(view, Ordinal(d))
      ensures d in weeks
    {
      SpanIsMinMax(view, Ordinal(d));
      var k :| 0 <= k < |grid| && grid[k] == Ordinal(d);
      OrdinalInjective(weeks[k], d);
    }
  }

  // ---------------------------------------------------------------------------
  // The weekly values against the range query

  /** Some record of the category is dated on or before `w`. */
  predicate RecordedBy(view: seq<Record>, category: Category, w: ValidDate) {
    exists x :: x in view && x.category == category && Ordinal(x.date) <= Ordinal(w)
  }

  /** The cumulative value at a Sunday is what a range query from the first
      representable date to that Sunday totals for the category, and it is
      NaN exactly when the category has no record dated on or before it. */
  lemma CumulativeIsRunningTotal(view: seq<Record>, category: Category, w: ValidDate)
    ensures RecordedBy(view, category, w) ==>
      CumulativeAt(AmountsOf(view, category), Ordinal(w)) == Some(Total(Filter(view, Date(1, 1, 1), w), category))
    ensures !RecordedBy(view, category, w) ==> CumulativeAt(AmountsOf(view, category), Ordinal(w)) == None
  {
    SumThroughIsTotal(view, category, w);
    PointThroughIsRecord(view, category, w);
  }

  /** A point of the category on or before `w` is a record of it dated so. */
  lemma PointThroughIsRecord(view: seq<Record>, category: Category, w: ValidDate)
    ensures HasPointThrough(AmountsOf(view, category), Ordinal(w)) <==> RecordedBy(view, category, w)
  {
    var ps := AmountsOf(view, category);
    var t := Ordinal(w);
    if HasPointThrough(ps, t) {
      var i :| 0 <= i < |ps| && ps[i].at <= t;
      assert ps[i] in ps;
      var x :| x in view && x.category == category && ps[i] == Point(Ordinal(x.date), x.amount);
    }
    if RecordedBy(view, category, w) {
      var x :| x in view && x.category == category && Ordinal(x.date) <= t;
      var p := Point(Ordinal(x.date), x.amount);
      assert p in ps;
      var i :| 0 <= i < |ps| && ps[i] == p;
    }
  }

  /** Labels that step by one week sit seven days per index from the first. */
  lemma {:induction false} WeekSteps(g: seq<int>, k: int)
    requires forall j :: 0 < j < |g| ==> g[j] == g[j - 1] + 7
    requires 0 <= k < |g|
    ensures g[k] == g[0] + 7 * k
  {
    if k > 0 {
      WeekSteps(g, k - 1);
    }
  }

  // ---------------------------------------------------------------------------
  // A worked example: three Mondays, as 1, 15 and 22 January 2024

  /** `first` is a Monday, `third` is two weeks later and `fourth` three. */
  predicate ThreeMondays(first: ValidDate, third: ValidDate, fourth: ValidDate) {
    && Weekday(Ordinal(first)) == 0
    && Ordinal(third) == Ordinal(first) + 14
    && Ordinal(fourth) == Ordinal(first) + 21
  }

  /** Income of 10 on the first Monday, income of 5 on the third and an
      expense of 3 on the fourth. */
  function ExampleView(first: ValidDate, third: ValidDate, fourth: ValidDate): seq<Record> {
    [ Record(first, 10, Income, "salary"),
      Record(third, 5, Income, "refund"),
      Record(fourth, 3, Expense, "lunch") ]
  }

  /** 1, 15 and 22 January 2024 are such Mondays. */
  lemma January2024()
    ensures ThreeMondays(Date(1, 1, 2024), Date(15, 1, 2024), Date(22, 1, 2024))
  {
    DaysBeforeYearClosedForm(2024);
    assert LeapCountFormula(2024) == 738885;
    assert Ordinal(Date(1, 1, 2024)) == 738886;
    assert Weekday(738886) == 0;
  }

  /** The example's span runs from the first Monday to the fourth. */
  lemma ExampleSpan(first: ValidDate, third: ValidDate, fourth: ValidDate, n: int)
    requires ThreeMondays(first, third, fourth)
    ensures WithinSpan(ExampleView(first, third, fourth), n) <==> Ordinal(first) <= n <= Ordinal(first) + 21
  {
    var view := ExampleView(first, third, fourth);
    assert view[0] in view && view[2] in view;
  }

  /** What the contract of `Weekly` says about the example's grid: Sundays
      after the first Monday and no later than the fourth, one week apart,
      including the Sundays after the first and the third Monday. */
  predicate ExampleGrid(o: int, ws: seq<ValidDate>) {
    && (forall k :: 0 <= k < |ws| ==> IsSunday(Ordinal(ws[k])) && o <= Ordinal(ws[k]) <= o + 21)
    && (forall k :: 0 < k < |ws| ==> Ordinal(ws[k]) == Ordinal(ws[k - 1]) + 7)
    && (exists i :: 0 <= i < |ws| && Ordinal(ws[i]) == o + 6)
    && (exists j :: 0 <= j < |ws| && Ordinal(ws[j]) == o + 20)
  }

  /** The example's grid meets that description. */
  lemma ExampleGridFacts(first: ValidDate, third: ValidDate, fourth: ValidDate)
    requires ThreeMondays(first, third, fourth)
    ensures Weekly(ExampleView(first, third, fourth)).Ok?
    ensures ExampleGrid(Ordinal(first), Weekly(ExampleView(first, third, fourth)).value.weeks)
  {
    var view := ExampleView(first, third, fourth);
    assert |view| == 3;
    ExampleGridOf(first, third, fourth, Weekly(view).value.weeks);
  }

  /** Any Sunday grid of the example meets that description. */
  lemma ExampleGridOf(first: ValidDate, third: ValidDate, fourth: ValidDate, ws: seq<ValidDate>)
    requires ThreeMondays(first, third, fourth)
    requires IsSundayGrid(ExampleView(first, third, fourth), ws)
    ensures ExampleGrid(Ordinal(first), ws)
  {
    ExampleGridBounds(first, third, fourth, ws);
    ExampleSundayOnGrid(first, third, fourth, ws, 6);
    ExampleSundayOnGrid(first, third, fourth, ws, 20);
  }

  /** The grid's Sundays lie between the first Monday and the fourth. */
  lemma ExampleGridBounds(first: ValidDate, third: ValidDate, fourth: ValidDate, ws: seq<ValidDate>)
    requires ThreeMondays(first, third, fourth)
    requires IsSundayGrid(ExampleView(first, third, fourth), ws)
    ensures forall k :: 0 <= k < |ws| ==> Ordinal(first) <= Ordinal(ws[k]) <= Ordinal(first) + 21
  {
    forall k | 0 <= k < |ws|
      ensures Ordinal(first) <= Ordinal(ws[k]) <= Ordinal(first) + 21
    {
      ExampleSpan(first, third, fourth, Ordinal(ws[k]));
    }
  }

  /** A Sunday between the first and the fourth Monday is on the grid. */
  lemma ExampleSundayOnGrid(first: ValidDate, third: ValidDate, fourth: ValidDate, ws: seq<ValidDate>, offset: int)
    requires ThreeMondays(first, third, fourth)
    requires IsSundayGrid(ExampleView(first, third, fourth), ws)
    requires offset == 6 || offset == 13 || offset == 20
    ensures exists i :: 0 <= i < |ws| && Ordinal(ws[i]) == Ordinal(first) + offset
  {
    ExampleSundayFacts(first, third, fourth, offset);
    GridHasSunday(ExampleView(first, third, fourth), ws, Ordinal(first) + offset);
  }

  /** That Sunday is a representable day within the example's span. */
  lemma ExampleSundayFacts(first: ValidDate, third: ValidDate, fourth: ValidDate, offset: int)
    requires ThreeMondays(first, third, fourth)
    requires offset == 6 || offset == 13 || offset == 20
    ensures 1 <= Ordinal(first) + offset <= MaxOrdinal
    ensures IsSunday(Ordinal(first) + offset)
    ensures WithinSpan(ExampleView(first, third, fourth), Ordinal(first) + offset)
  {
    OrdinalRange(first);
    OrdinalRange(fourth);
    ExampleSpan(first, third, fourth, Ordinal(first) + offset);
    SundayAfterMonday(Ordinal(first), offset);
  }

  /** Six days after a Monday, and each week after that, is a Sunday. */
  lemma SundayAfterMonday(o: int, offset: int)
    requires Weekday(o) == 0
    requires offset == 6 || offset == 13 || offset == 20
    ensures IsSunday(o + offset)
  {
    var q := (o + 6) / 7;
    assert o + 6 == 7 * q;
    var m := q + (offset - 6) / 7;
    assert o + offset + 6 == 7 * m + 6;
    assert (7 * m + 6) % 7 == 6;
  }

  /** The completeness half of `IsSundayGrid`, for one representable day. */
  lemma GridHasSunday(view: seq<Record>, ws: seq<ValidDate>, n: int)
    requires IsSundayGrid(view, ws)
    requires 1 <= n <= MaxOrdinal && IsSunday(n) && WithinSpan(view, n)
    ensures exists i :: 0 <= i < |ws| && Ordinal(ws[i]) == n
  {
    var d := FromOrdinal(n);
    assert d in ws;
    var i :| 0 <= i < |ws| && ws[i] == d;
  }

  /** Such a grid has exactly three Sundays, the first six days after the
      first Monday. */
  lemma ExampleGridExact(o: int, ws: seq<ValidDate>)
    requires ExampleGrid(o, ws)
    ensures |ws| == 3
    ensures forall k :: 0 <= k < 3 ==> Ordinal(ws[k]) == o + 6 + 7 * k
  {
    var g := seq(|ws|, k requires 0 <= k < |ws| => Ordinal(ws[k]));
    var i :| 0 <= i < |ws| && Ordinal(ws[i]) == o + 6;
    var j :| 0 <= j < |ws| && Ordinal(ws[j]) == o + 20;
    WeekSteps(g, i);
    WeekSteps(g, j);
    assert i == 0 && j == 2;
    if |ws| > 3 {
      WeekSteps(g, 3);
      assert false;
    }
    WeekSteps(g, 1);
  }

  /** The grid is the three Sundays after the first three Mondays: the expense
      on the fourth Monday falls in a week whose Sunday lies past the last
      date, so that week is not on the grid. */
  lemma ExampleWeeks(first: ValidDate, third: ValidDate, fourth: ValidDate)
    requires ThreeMondays(first, third, fourth)
    ensures Weekly(ExampleView(first, third, fourth)).Ok?
    ensures var ws := Weekly(ExampleView(first, third, fourth)).value.weeks;
      |ws| == 3 && forall k :: 0 <= k < 3 ==> Ordinal(ws[k]) == Ordinal(first) + 6 + 7 * k
  {
    ExampleGridFacts(first, third, fourth);
    ExampleGridExact(Ordinal(first), Weekly(ExampleView(first, third, fourth)).value.weeks);
  }

  /** The example's amounts per category, at their day numbers. */
  lemma ExampleAmounts(first: ValidDate, third: ValidDate, fourth: ValidDate)
    requires ThreeMondays(first, third, fourth)
    ensures AmountsOf(ExampleView(first, third, fourth), Income) == [Point(Ordinal(first), 10), Point(Ordinal(first) + 14, 5)]
    ensures AmountsOf(ExampleView(first, third, fourth), Expense) == [Point(Ordinal(first) + 21, 3)]
  {
    var view := ExampleView(first, third, fourth);
    assert view[1..] == [view[1], view[2]] && view[1..][1..] == [view[2]] && view[1..][1..][1..] == [];
    assert AmountsOf(view[1..][1..], Income) == [];
    assert AmountsOf(view[1..][1..], Expense) == [Point(Ordinal(fourth), 3)] + AmountsOf([], Expense);
    assert AmountsOf(view[1..], Income) == [Point(Ordinal(third), 5)] + AmountsOf(view[1..][1..], Income);
    assert AmountsOf(view[1..], Expense) == AmountsOf(view[1..][1..], Expense);
  }

  /** The cumulative values of the example's amounts at its three Sundays. */
  lemma ExampleCumulative(o: int)
    ensures CumulativeAt([Point(o, 10), Point(o + 14, 5)], o + 6) == Some(10)
    ensures CumulativeAt([Point(o, 10), Point(o + 14, 5)], o + 13) == Some(10)
    ensures CumulativeAt([Point(o, 10), Point(o + 14, 5)], o + 20) == Some(15)
    ensures CumulativeAt([Point(o + 21, 3)], o + 6) == None
    ensures CumulativeAt([Point(o + 21, 3)], o + 13) == None
    ensures CumulativeAt([Point(o + 21, 3)], o + 20) == None
  {
    var inc := [Point(o, 10), Point(o + 14, 5)];
    assert inc[1..] == [Point(o + 14, 5)] && inc[1..][1..] == [];
    assert HasPointThrough(inc, o + 6) && HasPointThrough(inc, o + 13) && HasPointThrough(inc, o + 20) by {
      assert inc[0].at <= o + 6;
    }
    assert SumThrough(inc[1..], o + 6) == 0 by { assert inc[1..][1..] == []; }
    assert SumThrough(inc[1..], o + 13) == 0 by { assert inc[1..][1..] == []; }
    assert SumThrough(inc[1..], o + 20) == 5 by { assert inc[1..][1..] == []; }
    var exp := [Point(o + 21, 3)];
    assert exp[1..] == [];
  }

  /** The three series of the example, given its grid. */
  lemma ExampleSeries(first: ValidDate, third: ValidDate, fourth: ValidDate, r: WeeklyCumulative)
    requires ThreeMondays(first, third, fourth)
    requires IsCumulativeSeries(ExampleView(first, third, fourth), Income, r.weeks, r.income)
    requires IsCumulativeSeries(ExampleView(first, third, fourth), Expense, r.weeks, r.expense)
    requires IsDifference(r.income, r.expense, r.net)
    requires |r.weeks| == 3 && forall k :: 0 <= k < 3 ==> Ordinal(r.weeks[k]) == Ordinal(first) + 6 + 7 * k
    ensures r.income == [Some(10), Some(10), Some(15)]
    ensures r.expense == [None, None, None]
    ensures r.net == [None, None, None]
  {
    ExampleCategorySeries(first, third, fourth, Income, r.weeks, r.income);
    ExampleCategorySeries(first, third, fourth, Expense, r.weeks, r.expense);
    NaNDifference(r.income, r.expense, r.net);
  }

  /** One category's series of the example, given its grid. */
  lemma ExampleCategorySeries(first: ValidDate, third: ValidDate, fourth: ValidDate, category: Category,
                              weeks: seq<ValidDate>, values: seq<Option<int>>)
    requires ThreeMondays(first, third, fourth)
    requires IsCumulativeSeries(ExampleView(first, third, fourth), category, weeks, values)
    requires |weeks| == 3 && forall k :: 0 <= k < 3 ==> Ordinal(weeks[k]) == Ordinal(first) + 6 + 7 * k
    ensures category == Income ==> values == [Some(10), Some(10), Some(15)]
    ensures category == Expense ==> values == [None, None, None]
  {
    var o := Ordinal(first);
    ExampleAmounts(first, third, fourth);
    ExampleCumulative(o);
    ThreeSundayValues(AmountsOf(ExampleView(first, third, fourth), category), o, weeks, values);
  }

  /** Where the subtrahend is NaN at all three Sundays, so is the difference. */
  lemma NaNDifference(a: seq<Option<int>>, b: seq<Option<int>>, d: seq<Option<int>>)
    requires IsDifference(a, b, d)
    requires b == [None, None, None]
    ensures d == [None, None, None]
  {
    assert d[0] == None && d[1] == None && d[2] == None;
  }

  lemma ThreeSundayValues(ps: seq<Point>, o: int, weeks: seq<ValidDate>, values: seq<Option<int>>)
    requires |values| == |weeks| == 3
    requires forall k :: 0 <= k < 3 ==> Ordinal(weeks[k]) == o + 6 + 7 * k
    requires forall k :: 0 <= k < |weeks| ==> values[k] == CumulativeAt(ps, Ordinal(weeks[k]))
    ensures values == [CumulativeAt(ps, o + 6), CumulativeAt(ps, o + 13), CumulativeAt(ps, o + 20)]
  {
    assert Ordinal(weeks[0]) == o + 6 && Ordinal(weeks[1]) == o + 13 && Ordinal(weeks[2]) == o + 20;
  }

  /** Income carries forward over the week without entries (the second Sunday
      keeps 10); expense is NaN at every Sunday, since its only record lies
      past the grid, and so is net savings. */
  lemma ExampleValues(first: ValidDate, third: ValidDate, fourth: ValidDate)
    requires ThreeMondays(first, third, fourth)
    ensures Weekly(ExampleView(first, third, fourth)).Ok?
    ensures Weekly(ExampleView(first, third, fourth)).value.income == [Some(10), Some(10), Some(15)]
    ensures Weekly(ExampleView(first, third, fourth)).value.expense == [None, None, None]
    ensures Weekly(ExampleView(first, third, fourth)).value.net == [None, None, None]
  {
    ExampleWeeks(first, third, fourth);
    ExampleSeries(first, third, fourth, Weekly(ExampleView(first, third, fourth)).value);
  }
}
