/** The data steps of `plot_transactions`: per category, the money taken in or
    spent on each calendar day, looked up once for every row of the view (so a
    day with two rows is looked up twice), with 0 where the category has
    nothing on that day. */
module DailyChart {
  import opened Calendar
  import opened Ledger
  import opened RangeQuery
  import opened Series
  import opened Frame

  /** One plotted position: a row's date and both categories' daily sums. */
  datatype DailyRow = DailyRow(date: ValidDate, income: int, expense: int)

  /** `resample("D").sum().reindex(days, fill_value=0)`: the sum of the points
      on each requested day. */
  function DailyOnDays(ps: seq<Point>, days: seq<int>): (r: seq<int>)
    ensures |r| == |days|
    ensures forall k :: 0 <= k < |days| ==> r[k] == SumOn(ps, days[k])
  {
    var r := ReindexFill(ResampleDaily(ps), days, 0);
    forall k | 0 <= k < |days|
      ensures r[k] == SumOn(ps, days[k])
    {
      FillIsDailySum(ps, days[k]);
    }
    r
  }

  /** `plot_transactions(df)` up to the drawing: one row per view row, in the
      view's order, carrying that row's date and the day's income and expense
      sums. */
  function Daily(view: seq<Record>): (rows: seq<DailyRow>)
    ensures |rows| == |view|
    ensures forall k :: 0 <= k < |view| ==> rows[k].date == view[k].date
    ensures forall k :: 0 <= k < |view| ==>
      && rows[k].income == SumOn(AmountsOf(view, Income), Ordinal(view[k].date))
      && rows[k].expense == SumOn(AmountsOf(view, Expense), Ordinal(view[k].date))
  {
    var days := seq(|view|, k requires 0 <= k < |view| => Ordinal(view[k].date));
    var income := DailyOnDays(AmountsOf(view, Income), days);
    var expense := DailyOnDays(AmountsOf(view, Expense), days);
    seq(|view|, k requires 0 <= k < |view| => DailyRow(view[k].date, income[k], expense[k]))
  }

  // ---------------------------------------------------------------------------
  // Properties

  /** Reindexing the daily resample with fill value 0 gives the day's sum,
      whether the day lies inside the resampled span or outside it. */
  lemma FillIsDailySum(ps: seq<Point>, d: int)
    ensures ValueAt(ResampleDaily(ps), d, 0) == SumOn(ps, d)
  {
    var s := ResampleDaily(ps);
    if |ps| > 0 && MinAt(ps) <= d <= MaxAt(ps) {
      assert Ascending(s);
      ValueAtPresent(s, d, 0, d - MinAt(ps));
    } else {
      ValueAtAbsent(s, d, 0);
      SumOnNone(ps, d);
    }
  }

  /** Each plotted value is the category's total over the view restricted to
      that single day. */
  lemma DailyIsDayTotal(view: seq<Record>, k: int)
    requires 0 <= k < |view|
    ensures Daily(view)[k].income == Total(Filter(view, view[k].date, view[k].date), Income)
    ensures Daily(view)[k].expense == Total(Filter(view, view[k].date, view[k].date), Expense)
  {
    SumOnIsTotal(view, Income, view[k].date);
    SumOnIsTotal(view, Expense, view[k].date);
  }

  /** A category with no record on a row's day plots 0 there. */
  lemma DailyZeroWithoutEntry(view: seq<Record>, k: int, category: Category)
    requires 0 <= k < |view|
    requires forall x :: x in view && x.category == category ==> x.date != view[k].date
    ensures category == Income ==> Daily(view)[k].income == 0
    ensures category == Expense ==> Daily(view)[k].expense == 0
  {
    var ps := AmountsOf(view, category);
    forall i | 0 <= i < |ps|
      ensures ps[i].at != Ordinal(view[k].date)
    {
      assert ps[i] in ps;
      var x :| x in view && x.category == category && ps[i] == Point(Ordinal(x.date), x.amount);
      OrdinalInjective(x.date, view[k].date);
    }
    SumOnNone(ps, Ordinal(view[k].date));
  }

  /** Two days, an expense of 20 on the first and an income of 50 on the
      second: each day plots its own amount and 0 for the other category. */
  lemma TwoDaysExample(first: ValidDate, second: ValidDate)
    requires first != second
    ensures Daily([Record(first, 20, Expense, "food"), Record(second, 50, Income, "pay")])
      == [DailyRow(first, 0, 20), DailyRow(second, 50, 0)]
  {
    var view := [Record(first, 20, Expense, "food"), Record(second, 50, Income, "pay")];
    if Ordinal(first) == Ordinal(second) {
      OrdinalInjective(first, second);
    }
    assert view[1..] == [view[1]] && view[1..][1..] == [];
    var inc := AmountsOf(view, Income);
    var exp := AmountsOf(view, Expense);
    assert AmountsOf(view[1..], Income) == [Point(Ordinal(second), 50)] + AmountsOf([], Income);
    assert AmountsOf(view[1..], Expense) == AmountsOf([], Expense);
    assert inc == [Point(Ordinal(second), 50)];
    assert exp == [Point(Ordinal(first), 20)] + AmountsOf([], Expense);
    assert exp == [Point(Ordinal(first), 20)];
    assert inc[1..] == [] && exp[1..] == [];
    assert SumOn(inc, Ordinal(first)) == 0 && SumOn(inc, Ordinal(second)) == 50;
    assert SumOn(exp, Ordinal(first)) == 20 && SumOn(exp, Ordinal(second)) == 0;
    var rows := Daily(view);
    assert view[0].date == first && view[1].date == second;
    assert rows[0] == DailyRow(first, 0, 20);
    assert rows[1] == DailyRow(second, 50, 0);
  }
}
