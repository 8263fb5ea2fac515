/** The filtered view as the charts index it: `df.set_index("date")`, and the
    amount column of one category, `df[df["category"] == c]["amount"]`. */
module Frame {
  import opened Calendar
  import opened Ledger
  import opened Series
  import opened RangeQuery

  /** Every record as its amount at its day number, in view order. */
  function Dated(view: seq<Record>): (ps: seq<Point>)
    ensures |ps| == |view|
    ensures forall i :: 0 <= i < |view| ==> ps[i] == Point(Ordinal(view[i].date), view[i].amount)
  {
    seq(|view|, i requires 0 <= i < |view| => Point(Ordinal(view[i].date), view[i].amount))
  }

  /** The amounts of one category at their day numbers, in view order. */
  function AmountsOf(view: seq<Record>, category: Category): (ps: seq<Point>)
    ensures |ps| <= |view|
    ensures forall p :: p in ps <==> exists x :: x in view && x.category == category && p == Point(Ordinal(x.date), x.amount)
  {
    if |view| == 0 then []
    else
      var rest := AmountsOf(view[1..], category);
      assert forall x :: x in view <==> x == view[0] || x in view[1..];
      if view[0].category == category then [Point(Ordinal(view[0].date), view[0].amount)] + rest
      else rest
  }

  /** A view of one category keeps every record, in order, as its point. */
  lemma {:induction false} AmountsOfOneCategory(view: seq<Record>, category: Category)
    requires forall i :: 0 <= i < |view| ==> view[i].category == category
    ensures AmountsOf(view, category) == Dated(view)
  {
    if |view| > 0 {
      AmountsOfOneCategory(view[1..], category);
      assert Dated(view) == [Dated(view)[0]] + Dated(view[1..]);
    }
  }

  /** Selecting a category distributes over concatenation: the points keep
      the view's order and each record of the category contributes once. */
  lemma {:induction false} AmountsOfAppend(a: seq<Record>, b: seq<Record>, category: Category)
    ensures AmountsOf(a + b, category) == AmountsOf(a, category) + AmountsOf(b, category)
  {
    if |a| == 0 {
      assert a + b == b;
    } else {
      assert (a + b)[1..] == a[1..] + b;
      AmountsOfAppend(a[1..], b, category);
    }
  }

  /** Every day number of the view is that of a representable date. */
  lemma DatedWithinCalendar(view: seq<Record>)
    ensures forall i :: 0 <= i < |view| ==> 1 <= Dated(view)[i].at <= MaxOrdinal
  {
    forall i | 0 <= i < |view|
      ensures 1 <= Dated(view)[i].at <= MaxOrdinal
    {
      OrdinalRange(view[i].date);
    }
  }

  /** A category's amounts up to day `t` total what a range query of that
      category reports for every record dated on or before `t`. */
  lemma {:induction false} SumThroughIsTotal(view: seq<Record>, category: Category, t: ValidDate)
    ensures SumThrough(AmountsOf(view, category), Ordinal(t)) == Total(Filter(view, Date(1, 1, 1), t), category)
  {
    if |view| > 0 {
      SumThroughIsTotal(view[1..], category, t);
      OrdinalRange(view[0].date);
    }
  }

  /** A category's amounts on one day total what a range query from that day
      to that same day reports. */
  lemma {:induction false} SumOnIsTotal(view: seq<Record>, category: Category, d: ValidDate)
    ensures SumOn(AmountsOf(view, category), Ordinal(d)) == Total(Filter(view, d, d), category)
  {
    if |view| > 0 {
      SumOnIsTotal(view[1..], category, d);
    }
  }

  /** All of a category's amounts total what the range query reports for it. */
  lemma {:induction false} SumAllIsTotal(view: seq<Record>, category: Category)
    ensures SumAll(AmountsOf(view, category)) == Total(view, category)
  {
    if |view| > 0 {
      SumAllIsTotal(view[1..], category);
    }
  }
}
