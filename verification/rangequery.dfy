/** `CSV.get_transactions`: the transactions dated inside an inclusive range,
    in file order, with their income, expense and net totals. */
module RangeQuery {
  import opened Wrappers
  import opened Calendar
  import opened DateText
  import opened Ledger

  /** The pandas mask `(date >= start) & (date <= end)`. */
  predicate InRange(r: Record, start: ValidDate, end: ValidDate) {
    Ordinal(start) <= Ordinal(r.date) <= Ordinal(end)
  }

  /** `df.loc[mask]`: the records in range, keeping their order. */
  function Filter(records: seq<Record>, start: ValidDate, end: ValidDate): (view: seq<Record>)
    ensures |view| <= |records|
    ensures forall x :: x in view <==> x in records && InRange(x, start, end)
  {
    if |records| == 0 then []
    else if InRange(records[0], start, end) then [records[0]] + Filter(records[1..], start, end)
    else Filter(records[1..], start, end)
  }

  /** `xs` lists some of the elements of `ys`, in the order `ys` lists them. */
  ghost predicate IsSubsequence<T>(xs: seq<T>, ys: seq<T>)
    decreases |ys|
  {
    || |xs| == 0
    || (|ys| > 0 && xs[0] == ys[0] && IsSubsequence(xs[1..], ys[1..]))
    || (|ys| > 0 && IsSubsequence(xs, ys[1..]))
  }

  /** The sum of the amounts of the records of one category; 0 when there are none. */
  function Total(records: seq<Record>, category: Category): (t: int)
    ensures t >= 0
    ensures (forall i :: 0 <= i < |records| ==> records[i].category != category) ==> t == 0
    ensures t <= AllAmounts(records)
    ensures (forall i :: 0 <= i < |records| ==> records[i].category == category) ==> t == AllAmounts(records)
  {
    if |records| == 0 then 0
    else
      (if records[0].category == category then records[0].amount else 0) + Total(records[1..], category)
  }

  /** The sum of all amounts, whatever their category. */
  function AllAmounts(records: seq<Record>): int {
    if |records| == 0 then 0 else records[0].amount + AllAmounts(records[1..])
  }

  /** The filtered view and the three figures `get_transactions` reports. */
  datatype Summary = Summary(view: seq<Record>, totalIncome: int, totalExpense: int, netSavings: int)

  /** `CSV.get_transactions(start_date, end_date)`: read the ledger, convert its
      dates, parse both bounds (in that order, the first failure being the
      error), then filter and total. */
  function GetTransactions(store: Store, startText: string, endText: string): (r: Result<Summary, LedgerError>)
    ensures r.Ok? <==> Load(store).Ok? && Parse(startText).Some? && Parse(endText).Some?
    ensures Load(store).Err? ==> r == Err(Load(store).error)
    ensures Load(store).Ok? && Parse(startText).None? ==> r == Err(UnparsedStartDate)
    ensures Load(store).Ok? && Parse(startText).Some? && Parse(endText).None? ==> r == Err(UnparsedEndDate)
    ensures r.Ok? ==> forall x :: x in r.value.view <==>
      x in Load(store).value && !Before(x.date, Parse(startText).value) && !Before(Parse(endText).value, x.date)
    ensures r.Ok? ==> r.value.view == Filter(Load(store).value, Parse(startText).value, Parse(endText).value)
    ensures r.Ok? ==> r.value.totalIncome == Total(r.value.view, Income)
    ensures r.Ok? ==> r.value.totalExpense == Total(r.value.view, Expense)
    ensures r.Ok? ==> r.value.netSavings == r.value.totalIncome - r.value.totalExpense
    ensures r.Ok? ==> r.value.totalIncome + r.value.totalExpense == AllAmounts(r.value.view)
  {
    match Load(store)
    case Err(e) => Err(e)
    case Ok(records) =>
      match Parse(startText)
      case None => Err(UnparsedStartDate)
      case Some(start) =>
        match Parse(endText)
        case None => Err(UnparsedEndDate)
        case Some(end) =>
          var view := Filter(records, start, end);
          var income := Total(view, Income);
          var expense := Total(view, Expense);
          InRangeIsDateComparison(start, end);
          TotalsPartition(view);
          Ok(Summary(view, income, expense, income - expense))
  }

  // ---------------------------------------------------------------------------
  // Properties

  /** The numeric test on day numbers is Python's comparison of dates, so both
      bounds are inclusive. */
  lemma InRangeIsDateComparison(start: ValidDate, end: ValidDate)
    ensures forall x: Record {:trigger InRange(x, start, end)} ::
      InRange(x, start, end) <==> !Before(x.date, start) && !Before(end, x.date)
  {
    forall x: Record
      ensures InRange(x, start, end) <==> !Before(x.date, start) && !Before(end, x.date)
    {
      OrdinalOrder(x.date, start);
      OrdinalOrder(end, x.date);
    }
  }

  /** The view lists records of the ledger in the ledger's order. */
  lemma {:induction false} FilterIsSubsequence(records: seq<Record>, start: ValidDate, end: ValidDate)
    ensures IsSubsequence(Filter(records, start, end), records)
  {
    if |records| > 0 {
      FilterIsSubsequence(records[1..], start, end);
    }
  }

  /** Each record in range is kept as many times as it occurs; others never. */
  lemma {:induction false} FilterCounts(records: seq<Record>, start: ValidDate, end: ValidDate)
    ensures forall x ::
              multiset(Filter(records, start, end))[x] == (if InRange(x, start, end) then multiset(records)[x] else 0)
  {
    if |records| > 0 {
      FilterCounts(records[1..], start, end);
      assert records == [records[0]] + records[1..];
    }
  }

  /** Filtering distributes over concatenation. */
  lemma {:induction false} FilterAppend(a: seq<Record>, b: seq<Record>, start: ValidDate, end: ValidDate)
    ensures Filter(a + b, start, end) == Filter(a, start, end) + Filter(b, start, end)
  {
    if |a| > 0 {
      assert (a + b)[1..] == a[1..] + b;
      FilterAppend(a[1..], b, start, end);
    } else {
      assert a + b == b;
    }
  }

  /** An end date before the start date selects nothing; it is not an error. */
  lemma FilterInverted(records: seq<Record>, start: ValidDate, end: ValidDate)
    requires Ordinal(end) < Ordinal(start)
    ensures Filter(records, start, end) == []
  {
  }

  /** Totals add up over concatenation. */
  lemma {:induction false} TotalAppend(a: seq<Record>, b: seq<Record>, category: Category)
    ensures Total(a + b, category) == Total(a, category) + Total(b, category)
  {
    if |a| > 0 {
      assert (a + b)[1..] == a[1..] + b;
      TotalAppend(a[1..], b, category);
    } else {
      assert a + b == b;
    }
  }

  /** Every amount is counted once, as income or as expense. */
  lemma {:induction false} TotalsPartition(records: seq<Record>)
    ensures Total(records, Income) + Total(records, Expense) == AllAmounts(records)
  {
    if |records| > 0 {
      TotalsPartition(records[1..]);
    }
  }

  /** A range matching nothing reports an empty view and zero totals. */
  lemma EmptyRangeSummary(store: Store, startText: string, endText: string)
    requires GetTransactions(store, startText, endText).Ok?
    requires forall x :: x in Load(store).value ==>
      !InRange(x, Parse(startText).value, Parse(endText).value)
    ensures var s := GetTransactions(store, startText, endText).value;
      s.view == [] && s.totalIncome == 0 && s.totalExpense == 0 && s.netSavings == 0
  {
  }

  /** Incomes of 100 and 50 and an expense of 30 give a net saving of 120. */
  lemma SummaryExample(d: ValidDate)
    ensures var view := [Record(d, 100, Income, "salary"), Record(d, 30, Expense, "food"), Record(d, 50, Income, "gift")];
      Total(view, Income) == 150 && Total(view, Expense) == 30 && Total(view, Income) - Total(view, Expense) == 120
  {
    var view := [Record(d, 100, Income, "salary"), Record(d, 30, Expense, "food"), Record(d, 50, Income, "gift")];
    assert view[1..][1..][1..] == [];
    assert Total(view[1..][1..], Income) == 50;
  }
}
