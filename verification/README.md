# Personal finance ledger — a Dafny model

The program keeps income and expense transactions in a CSV file,
`finance_data.csv`. Its columns are `date`, `amount`, `category` and
`description`, and dates are written `DD-MM-YYYY`. The program:

- creates the file with a header line when it is missing;
- appends one transaction per call;
- answers range queries with the matching transactions and their income,
  expense and net totals;
- prepares two charts:
  - cumulative income and expense per week, on a grid of Sundays, with
    their difference;
  - income and expense per day, looked up at every transaction's date.

This project models that core in pure functions and proves what it computes.

Modules, in dependency order:

- `Wrappers` — `Option`, `Result`, and `TryMap`, which applies a fallible
  conversion to every element and stops at the first failure.
- `Calendar` — proleptic Gregorian dates, leap years, Python's day number
  (`toordinal`, where 01-01-0001 is day 1), weekdays, and the label pandas'
  weekly rule `"W"` gives a day (the Sunday that ends its week). The inverse
  of the day number (`FromOrdinal`) is used to turn the Sunday grid back into
  dates.
- `DateText` — reading `%d-%m-%Y` the way `datetime.strptime` reads it, and
  writing it the way `strftime` writes it:
  - unpadded and space-padded days are accepted;
  - the year must be exactly four digits;
  - impossible dates such as 29-02-2023 or year 0000 are errors.
- `Ledger` — the file as a sequence of lines of typed cells (`None` while it
  does not exist):
  - `initalize_csv`;
  - `add_entry`, through `csv.DictWriter`, whose field order is the column
    list;
  - reading the file back with `read_csv` and converting its dates with
    `to_datetime`.
- `RangeQuery` — `get_transactions`:
  - the inclusive, order-preserving date filter;
  - income and expense totals and net savings;
  - the order in which errors arise: reading the file, then the start date,
    then the end date.
- `Series` — the pandas operations the charts use, on points `(day number,
  amount)`:
  - weekly and daily `resample(...).sum()` and `cumsum()`;
  - `date_range(freq="W")`;
  - `reindex` with forward fill and with a fill value;
  - subtraction with NaN propagation (NaN is `None`).
- `Frame` — a view of records as such points, per category, and how the
  point sums relate to the range query's totals.
- `WeeklyChart` — the data steps of `plot_transactions1`.
- `DailyChart` — the data steps of `plot_transactions`.

Amounts are non-negative integers (cents). A category is `Income` or
`Expense`.

## Model

| member | source | states |
|---|---|---|
| `Wrappers.TryMap` | main.py:40 | the conversion of a whole column succeeds exactly when every element converts; it keeps the column's length, and each converted element is that element's own conversion |
| `Calendar.DaysInMonth` | main.py:12 | months have 28 to 31 days, and a month has 29 exactly when it is February of a leap year |
| `Calendar.OrdinalOrder` | main.py:44 | comparing day numbers is comparing dates by (year, month, day), as Python compares dates |
| `Calendar.OrdinalInjective` | main.py:44 | different dates have different day numbers |
| `Calendar.FromOrdinal` | main.py:100 | every day number from 01-01-0001 to 31-12-9999 is the day number of some date |
| `Calendar.FromOrdinalOfOrdinal` | main.py:100 | converting a date to its day number and back gives the date |
| `Calendar.WeekEnding` | main.py:96 | a day's weekly label is a Sunday, no earlier than the day and less than a week after it |
| `Calendar.WeekEndingMonotone` | main.py:96 | later days never get earlier weekly labels |
| `DateText.DayField` | main.py:12 | a `%d` field is accepted exactly when it is one or two digits denoting 1 to 31, or a space and a nonzero digit; it denotes the number its digits spell |
| `DateText.MonthField` | main.py:12 | a `%m` field is accepted exactly when it is one or two digits denoting 1 to 12, and denotes that number |
| `DateText.YearField` | main.py:12 | a `%Y` field is accepted exactly when it is four digits, and denotes the number they spell |
| `DateText.SplitFields` | main.py:12 | the three fields and two dashes rebuild the text, and neither of the first two fields contains a dash |
| `DateText.Parse` | main.py:40-42 | accepted text is 6 to 10 characters long |
| `DateText.Format` | main.py:51 | a written date is ten characters: digits, with dashes at the third and sixth positions |
| `DateText.ParseFormat` | main.py:40-42 | reading a written date gives back the same date |
| `DateText.ParseCanonical` | main.py:40-42 | a ten-character text of digits and dashes that reads as a date is exactly that date's written form |
| `DateText.ParseAcceptsUnpadded` | main.py:41 | `1-2-2024` reads as 1 February 2024 |
| `DateText.ParseAcceptsSpacePaddedDay` | main.py:41 | ` 7-12-1999` reads as 7 December 1999 |
| `DateText.ParseRejectsMissingLeapDay` | main.py:41 | `29-02-2023` is an error |
| `DateText.ParseLeapDay` | main.py:41 | `29-02-2024` reads as 29 February 2024 |
| `DateText.ParseRejectsYearZero` | main.py:41 | `01-01-0000` is an error |
| `DateText.ParseRejectsIsoLayout` | main.py:41 | `2024-01-01` is an error, not read in another layout |
| `DateText.ParseRejectsShortYear` | main.py:41 | `01-01-24` is an error |
| `Ledger.HeaderLine` | main.py:19-20 | the header line names the given columns, one cell each, in order |
| `Ledger.Initialize` | main.py:15-20 | afterwards the file exists; an existing file is unchanged; a missing one is created and reads as a ledger with no records |
| `Ledger.NewEntry` | main.py:24-29 | the entry's keys are exactly the four column names, and each maps to the argument of that name |
| `Ledger.WriteRow` | main.py:32-33 | the writer succeeds exactly when every key of the entry is a field name; the line has one cell per field, in field order, empty text for a missing field |
| `Ledger.AddEntry` | main.py:23-33 | exactly one line is appended, earlier lines are unchanged, and the new line holds the date, amount, category and description in column order |
| `Ledger.DecodeRow` | main.py:40 | a line denotes a record exactly when its cells match the columns and its date parses; the record carries the line's values; otherwise the error says which check failed |
| `Ledger.Load` | main.py:39-40 | a read succeeds exactly when the file exists, starts with the header and every data line is well-formed with a date that parses; then record i is what data line i denotes; otherwise the error names the first kind of fault: missing file, empty file, wrong header, malformed line, unparsed date |
| `Ledger.LoadDecodesEach` | main.py:40 | converting the data lines succeeds exactly when every line decodes, each record is its line's decoding, and a failure among well-formed lines is an unparsed date |
| `Ledger.InitializeIdempotent` | main.py:15-20 | initialising twice is initialising once |
| `Ledger.InitializeKeepsRecords` | main.py:15-20 | initialising an existing file does not change what it reads as |
| `Ledger.LoadAfterAdd` | main.py:23-40 | after an entry is added, the ledger reads as before plus that record at the end; in this typed-line model, an entry whose date does not parse makes reading fail |
| `Ledger.AddAll` | main.py:23-33 | adding records one by one grows the file by one line per record |
| `Ledger.AddFormatted` | main.py:23-40 | adding a record whose date is written in the file's format extends what the ledger reads by exactly that record |
| `Ledger.LoadAddAll` | main.py:23-40 | a fresh ledger given any records reads back exactly those records, in order |
| `Ledger.AddWithoutInitialize` | main.py:31 | appending to a missing file creates it without a header line, and reading it then fails |
| `RangeQuery.Filter` | main.py:44-45 | a record is in the view exactly when it is in the ledger and dated within the bounds |
| `RangeQuery.Total` | main.py:59-64 | a category's total is non-negative and at most the sum of all amounts; it is 0 when no record has that category and the sum of all amounts when every record has it |
| `RangeQuery.GetTransactions` | main.py:38-71 | reading, start date and end date fail in that order, and no failure is replaced by a default; on success the view is the order-preserving filter of the ledger's records dated within both bounds inclusive; total income is the Income total of the view and total expense its Expense total; net savings is income minus expense; income plus expense is every amount in the view |
| `RangeQuery.InRangeIsDateComparison` | main.py:44 | the range test is `start <= date <= end` in Python's date order |
| `RangeQuery.FilterIsSubsequence` | main.py:45 | the view keeps the ledger's order |
| `RangeQuery.FilterCounts` | main.py:44-45 | each record in range is kept as many times as it occurs, and no other record is kept |
| `RangeQuery.FilterAppend` | main.py:44-45 | filtering two parts of a ledger and joining the results is filtering the whole |
| `RangeQuery.FilterInverted` | main.py:44-45 | an end date before the start date gives an empty view, not an error |
| `RangeQuery.TotalAppend` | main.py:59-64 | totals add up over the parts of a view |
| `RangeQuery.TotalsPartition` | main.py:59-64 | every amount is counted once, as income or as expense |
| `RangeQuery.EmptyRangeSummary` | main.py:47-71 | a range that matches nothing gives an empty view and zero income, expense and net |
| `RangeQuery.SummaryExample` | main.py:59-69 | incomes of 100 and 50 and an expense of 30 total 150, 30 and 120 |
| `Series.MinAt` | main.py:100 | the least day number of the points belongs to one of them |
| `Series.MaxAt` | main.py:100 | the greatest day number of the points belongs to one of them |
| `Series.SumThroughWeek` | main.py:96 | the sum through a Sunday is the sum through the previous Sunday plus that week's bucket |
| `Series.ResampleWeekly` | main.py:96 | buckets are consecutive Sundays from the first point's week to the last point's week; each holds the sum of the points whose week ends there, 0 for an empty week |
| `Series.ResampleDaily` | main.py:141-142 | buckets are consecutive days from the first point's day to the last; each holds the sum of that day's points |
| `Series.CumSum` | main.py:96 | each running value is the sum of its own bucket and every earlier one |
| `Series.WeeklyRange` | main.py:100 | the grid is ascending Sundays a week apart between the bounds, and every Sunday between the bounds is on it |
| `Series.ReindexFfill` | main.py:103-104 | one value per target: NaN exactly when every label is after the target, and otherwise the value at the last position whose label is on or before the target |
| `Series.AsOfMeaning` | main.py:103-104 | forward fill at a target is NaN exactly when every label is later, and otherwise takes the last position labelled on or before it |
| `Series.ReindexFill` | main.py:143 | one value per target: the fill value when no label equals the target, and otherwise the value at the last position with that label |
| `Series.ValueAtMeaning` | main.py:143 | an exact lookup gives the fill value when no label matches, and otherwise the value at the last matching position |
| `Series.Subtract` | main.py:107 | the difference is NaN exactly where either side is NaN, and otherwise is the difference of the values |
| `Series.AsOfPicksLast` | main.py:103-104 | forward fill takes the value at the last label on or before the target |
| `Series.AsOfBeforeStart` | main.py:103-104 | forward fill before the first label gives NaN |
| `Series.ValueAtPresent` | main.py:143 | an exact lookup finds the value at a label that is present |
| `Series.ValueAtAbsent` | main.py:143 | an exact lookup of an absent label gives the fill value |
| `Frame.AmountsOf` | main.py:92-93 | a point is in a category's series exactly when a record of that category has that date and amount |
| `Frame.AmountsOfOneCategory` | main.py:92-93 | a view whose records all have the category keeps every record, in order, as its point |
| `Frame.AmountsOfAppend` | main.py:92-93 | selecting a category distributes over concatenation, so order and repeated records are kept |
| `Frame.SumThroughIsTotal` | main.py:92-97 | a category's amounts up to a day total what a range query up to that day reports |
| `Frame.SumOnIsTotal` | main.py:139-142 | a category's amounts on one day total what a one-day range query reports |
| `Frame.SumAllIsTotal` | main.py:92 | a category's amounts total what the range query reports for the whole view |
| `WeeklyChart.CumulativeOnGrid` | main.py:96-104 | at every Sunday of the grid, the weekly running sum filled forward is the money of the category dated on or before that Sunday, NaN before the category's first record |
| `WeeklyChart.Weekly` | main.py:86-107 | an empty view is an error; otherwise the grid is exactly the Sundays between the view's first and last dates, one week apart; income and expense at each Sunday are the cumulative amounts; net savings is their difference, NaN where either is NaN |
| `WeeklyChart.SeriesOnGrid` | main.py:96-104 | one category's weekly running sums, forward-filled onto the Sundays, are its money accumulated by each Sunday |
| `WeeklyChart.SundaysInSpan` | main.py:100 | the Sundays between the view's first and last dates, all of them, ascending by one week |
| `WeeklyChart.BucketPrefix` | main.py:96 | the running sum at the k-th weekly bucket is the sum of the amounts dated up to that bucket's Sunday |
| `WeeklyChart.FfillIsCumulative` | main.py:96-104 | at any Sunday, filling the weekly running sums forward gives the money dated on or before it, or NaN when there is none yet |
| `WeeklyChart.FfillBeforeFirstWeek` | main.py:96-104 | before the first week's Sunday, forward fill has nothing to carry and nothing has been recorded |
| `WeeklyChart.FfillWithinWeeks` | main.py:96-104 | a Sunday among the resampled weeks picks its own week's running sum |
| `WeeklyChart.FfillAfterLastWeek` | main.py:96-104 | after the last week's Sunday, the final running sum, which counts every amount, carries forward |
| `WeeklyChart.SpanIsMinMax` | main.py:100 | lying between some record's date and some record's date is lying between the least and the greatest date |
| `WeeklyChart.GridFromView` | main.py:100 | every grid date lies within the view's span, and every Sunday of the span is on the grid |
| `WeeklyChart.CumulativeIsRunningTotal` | main.py:92-104 | a weekly value is the range-query total of the category from the earliest date to that Sunday, and NaN exactly when the category has no record dated on or before it |
| `WeeklyChart.January2024` | main.py:96 | 1, 15 and 22 January 2024 are Mondays two and three weeks apart |
| `WeeklyChart.ExampleWeeks` | main.py:100 | with income on a Monday and two weeks later and an expense three weeks later, the grid is the three Sundays after the first three Mondays; the expense's week ends past the last date, so it is not on the grid |
| `WeeklyChart.ExampleValues` | main.py:96-107 | in that example, income is 10, 10 and 15 (the second Sunday carries the first one's value forward), and expense and net savings are NaN at every Sunday |
| `DailyChart.DailyOnDays` | main.py:139-144 | one value per requested day: the sum of the category's amounts on that day, 0 when there are none |
| `DailyChart.Daily` | main.py:136-151 | one row per view row, in view order, with that row's date and each category's sum on that date |
| `DailyChart.FillIsDailySum` | main.py:141-143 | the daily resample reindexed with fill 0 gives a day's sum, whether the day is inside the resampled span or outside it |
| `DailyChart.DailyIsDayTotal` | main.py:139-151 | each daily value is what a one-day range query totals for the category |
| `DailyChart.DailyZeroWithoutEntry` | main.py:143 | a category with no record on a row's date shows 0 there |
| `DailyChart.TwoDaysExample` | main.py:139-151 | an expense of 20 on one day and an income of 50 on another show 0 income on the first day and 0 expense on the second |

## Left out

- Plotting (matplotlib), console printing, the interactive loop `main()` and
  `add()`: these are rendering and I/O with no data semantics. This includes
  the formatter keyed on `"data"` instead of `"date"`, which only affects
  printing.
- The `data_entry` prompts are not part of this model. Their results become
  the parameters of `Ledger.AddEntry`: a date text, a non-negative amount
  and a category.
- Amounts are exact integers (cents). The program's float amounts, their
  rounding and the `:.2f` display are not modelled.
- CSV quoting and escaping, and `read_csv`'s type inference. The file is a
  sequence of lines of typed cells, so a line is either well-formed (date
  text, amount, category, description) or malformed.
- File-system failures, and any `read_csv` error in `initalize_csv`. That
  function catches only `FileNotFoundError`, so an `EmptyDataError` from an
  empty file or a `ParserError` from a malformed one propagates out of it.
  The model treats any existing file as left alone; an empty file fails
  later to read with `NoColumns`, a malformed one with `MalformedRow`.
- pandas timestamps only cover the years 1677 to 2262. The model accepts
  every date from year 1 to 9999, as `datetime` does.
- `strptime`'s `\d` also matches non-ASCII digits. The model accepts ASCII
  digits only.
- `strftime` writes years below 1000 with fewer than four digits on some
  platforms. `DateText.Format` always writes four.
- The daily chart's `sum()` also sums the text columns. Only the `amount`
  column is modelled.
- `DateText.Parse`: its own contract only bounds the length of accepted text.
  What it accepts and rejects is stated by `DateText.ParseFormat`,
  `DateText.ParseCanonical` and the example lemmas.
- Missing values in the file. `read_csv` reads an empty cell or one of its
  NA spellings (`NA`, `nan`, `None`, `null`, ...) as NaN. `to_datetime`
  turns a NaN date, or a stored `NaT`/`nat`, into NaT without raising. Such
  a row fails both bounds at main.py:44 and is silently left out of every
  view. A short row (NaN cells) and a category text other than Income or
  Expense are likewise read rather than rejected. The model reads cells as
  the typed values they were written as. A line without four typed cells
  is `MalformedRow`, and any stored date text that does not parse,
  including `NaT`, is `UnparsedStoredDate`.
- `Ledger.LoadAddAll`, `Ledger.LoadAfterAdd` and `Ledger.AddFormatted`: the
  exact read-back holds only for descriptions that `read_csv` keeps as
  text. `add_entry` writes an empty description as an empty last field,
  and `read_csv` reads that field, or a description spelled `NA`, `null`,
  `nan` or `None`, back as NaN. The model keeps the description as the
  text it was written as.
- `Frame.AmountsOf`: its own contract states which points occur. Their order and
  multiplicity are stated by `Frame.AmountsOfAppend` and
  `Frame.AmountsOfOneCategory`, and the sums built from them by
  `Frame.SumAllIsTotal`, `Frame.SumOnIsTotal` and `Frame.SumThroughIsTotal`.
- The daily values are looked up at the view's own date column. That
  column keeps duplicates, so a day with two transactions appears twice. A
  reading of the chart as one point per distinct date does not match the
  code, and the model follows the code.
