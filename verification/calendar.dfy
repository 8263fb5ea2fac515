/** Proleptic Gregorian calendar dates, as Python's `datetime.date` sees them:
    validity with leap years, the day-number ordinal (`toordinal`), its
    inverse (`fromordinal`) and the weekday. */
module Calendar {

  /** A (day, month, year) triple; only `Valid` triples denote a date. */
  datatype Date = Date(day: int, month: int, year: int)

  /** Python's `datetime.MAXYEAR`; the smallest year is 1. */
  const MaxYear: int := 9999

  predicate IsLeapYear(year: int) {
    year % 4 == 0 && (year % 100 != 0 || year % 400 == 0)
  }

  function DaysInYear(year: int): int {
    if IsLeapYear(year) then 366 else 365
  }

  function DaysInMonth(month: int, year: int): (n: int)
    requires 1 <= month <= 12
    ensures 28 <= n <= 31
    ensures n == 29 <==> month == 2 && IsLeapYear(year)
  {
    if month == 2 then (if IsLeapYear(year) then 29 else 28)
    else if month == 4 || month == 6 || month == 9 || month == 11 then 30
    else 31
  }

  predicate Valid(d: Date) {
    && 1 <= d.year <= MaxYear
    && 1 <= d.month <= 12
    && 1 <= d.day <= DaysInMonth(d.month, d.year)
  }

  type ValidDate = d: Date | Valid(d) witness Date(1, 1, 1)

  /** Number of days in the years 1 .. year-1. */
  function DaysBeforeYear(year: int): int
    requires year >= 1
  {
    if year == 1 then 0 else DaysBeforeYear(year - 1) + DaysInYear(year - 1)
  }

  /** The closed form Python's `_days_before_year` computes. */
  function LeapCountFormula(year: int): int
    requires year >= 1
  {
    var y := year - 1;
    y * 365 + y / 4 - y / 100 + y / 400
  }

  /** Number of days in the months 1 .. month-1 of `year`. */
  function DaysBeforeMonth(month: int, year: int): int
    requires 1 <= month <= 12
  {
    [0, 31, 59, 90, 120, 151, 181, 212, 243, 273, 304, 334][month - 1]
      + (if month > 2 && IsLeapYear(year) then 1 else 0)
  }

  /** The ordinal of the last representable date, 31-12-9999. */
  const MaxOrdinal: int := DaysBeforeYear(MaxYear + 1)

  /** Day number of a date; 01-01-0001 has day number 1. */
  function Ordinal(d: ValidDate): int {
    DaysBeforeYear(d.year) + DaysBeforeMonth(d.month, d.year) + d.day
  }

  /** Lexicographic (year, month, day) order: how Python compares dates. */
  predicate Before(a: Date, b: Date) {
    || a.year < b.year
    || (a.year == b.year && a.month < b.month)
    || (a.year == b.year && a.month == b.month && a.day < b.day)
  }

  /** Weekday of a day number: 0 is Monday, 6 is Sunday. */
  function Weekday(n: int): (w: int)
    ensures 0 <= w < 7
  {
    (n + 6) % 7
  }

  predicate IsSunday(n: int) {
    Weekday(n) == 6
  }

  /** The label pandas' weekly rule "W" (weeks anchored on Sunday) gives to day `n`:
      the end of the Monday-to-Sunday week that contains it. */
  function WeekEnding(n: int): (w: int)
    ensures IsSunday(w)
    ensures n <= w < n + 7
  {
    n + 6 - Weekday(n)
  }

  // ---------------------------------------------------------------------------
  // Facts about the ordinal

  lemma YearStep(year: int)
    requires year >= 1
    ensures DaysBeforeYear(year + 1) == DaysBeforeYear(year) + DaysInYear(year)
  {
  }

  /** Counting the years one by one agrees with Python's closed form, which
      adds a day for every fourth year, less every hundredth, plus every
      four-hundredth. */
  lemma {:induction false} DaysBeforeYearClosedForm(year: int)
    requires year >= 1
    ensures DaysBeforeYear(year) == LeapCountFormula(year)
  {
    if year > 1 {
      DaysBeforeYearClosedForm(year - 1);
      LeapCountStep(year - 1);
    }
  }

  /** The closed form grows by the length of each year. */
  lemma LeapCountStep(y: int)
    requires y >= 1
    ensures LeapCountFormula(y + 1) == LeapCountFormula(y) + DaysInYear(y)
  {
    FourStep(y);
    HundredStep(y);
    FourHundredStep(y);
    DivisorsNest(y);
  }

  /** A multiple of 400 is a multiple of 100, and a multiple of 100 one of 4. */
  lemma DivisorsNest(y: int)
    ensures y % 400 == 0 ==> y % 100 == 0
    ensures y % 100 == 0 ==> y % 4 == 0
  {
    HundredsOf(y);
    FoursOf(y);
  }

  lemma HundredsOf(y: int)
    ensures y % 400 == 0 ==> y % 100 == 0
  {
    if y % 400 == 0 {
      var k := y / 400;
      assert y == 100 * (4 * k);
    }
  }

  lemma FoursOf(y: int)
    ensures y % 100 == 0 ==> y % 4 == 0
  {
    if y % 100 == 0 {
      var k := y / 100;
      assert y == 4 * (25 * k);
    }
  }

  /** Each step of a year adds one to `y / 4` exactly at the multiples of four. */
  lemma FourStep(y: int)
    ensures y / 4 == (y - 1) / 4 + (if y % 4 == 0 then 1 else 0)
  {
  }

  lemma HundredStep(y: int)
    ensures y / 100 == (y - 1) / 100 + (if y % 100 == 0 then 1 else 0)
  {
  }

  lemma FourHundredStep(y: int)
    ensures y / 400 == (y - 1) / 400 + (if y % 400 == 0 then 1 else 0)
  {
  }

  lemma MonthStep(month: int, year: int)
    requires 1 <= month < 12
    ensures DaysBeforeMonth(month + 1, year) == DaysBeforeMonth(month, year) + DaysInMonth(month, year)
  {
  }

  lemma YearEnd(year: int)
    ensures DaysBeforeMonth(12, year) + DaysInMonth(12, year) == DaysInYear(year)
  {
  }

  lemma MonthWithinYear(month: int, year: int)
    requires 1 <= month <= 12
    ensures DaysBeforeMonth(month, year) + DaysInMonth(month, year) <= DaysInYear(year)
  {
  }

  /** Later years start later: the years between y1 and y2 each add at least a day. */
  lemma {:induction false} YearsAscend(y1: int, y2: int)
    requires 1 <= y1 <= y2
    ensures DaysBeforeYear(y1) + 365 * (y2 - y1) <= DaysBeforeYear(y2)
    decreases y2 - y1
  {
    if y1 < y2 {
      YearsAscend(y1, y2 - 1);
      YearStep(y2 - 1);
    }
  }

  /** A date's day number lies inside the range its year occupies. */
  lemma OrdinalWithinYear(d: ValidDate)
    ensures DaysBeforeYear(d.year) < Ordinal(d) <= DaysBeforeYear(d.year + 1)
  {
    MonthWithinYear(d.month, d.year);
    YearStep(d.year);
  }

  lemma OrdinalRange(d: ValidDate)
    ensures 1 <= Ordinal(d) <= MaxOrdinal
  {
    OrdinalWithinYear(d);
    YearsAscend(1, d.year);
    YearsAscend(d.year + 1, MaxYear + 1);
  }

  /** Within one year, later months start later. */
  lemma MonthsAscend(m1: int, m2: int, year: int)
    requires 1 <= m1 < m2 <= 12
    ensures DaysBeforeMonth(m1, year) + DaysInMonth(m1, year) <= DaysBeforeMonth(m2, year)
  {
  }

  /** Comparing day numbers is comparing dates: the ordinal is strictly monotone
      for Python's (year, month, day) order. */
  lemma OrdinalOrder(a: ValidDate, b: ValidDate)
    ensures Before(a, b) <==> Ordinal(a) < Ordinal(b)
  {
    OrdinalWithinYear(a);
    OrdinalWithinYear(b);
    if a.year < b.year {
      YearsAscend(a.year + 1, b.year);
    } else if b.year < a.year {
      YearsAscend(b.year + 1, a.year);
    } else if a.month < b.month {
      MonthsAscend(a.month, b.month, a.year);
    } else if b.month < a.month {
      MonthsAscend(b.month, a.month, a.year);
    }
  }

  lemma OrdinalInjective(a: ValidDate, b: ValidDate)
    ensures Ordinal(a) == Ordinal(b) <==> a == b
  {
    OrdinalOrder(a, b);
    OrdinalOrder(b, a);
  }

  // ---------------------------------------------------------------------------
  // From a day number back to a date (`date.fromordinal`)

  /** The year, searched upwards from `year`, whose days contain day number `n`. */
  function YearContaining(n: int, year: int): (r: int)
    requires 1 <= year <= MaxYear
    requires DaysBeforeYear(year) < n <= MaxOrdinal
    ensures year <= r <= MaxYear
    ensures DaysBeforeYear(r) < n <= DaysBeforeYear(r + 1)
    decreases MaxYear - year
  {
    if n <= DaysBeforeYear(year + 1) then year
    else YearContaining(n, year + 1)
  }

  /** The month, searched upwards from `month`, that contains day `k` of `year`. */
  function MonthContaining(k: int, year: int, month: int): (r: int)
    requires 1 <= month <= 12
    requires DaysBeforeMonth(month, year) < k <= DaysInYear(year)
    ensures month <= r <= 12
    ensures DaysBeforeMonth(r, year) < k <= DaysBeforeMonth(r, year) + DaysInMonth(r, year)
    decreases 12 - month
  {
    YearEnd(year);
    if k <= DaysBeforeMonth(month, year) + DaysInMonth(month, year) then month
    else
      MonthStep(month, year);
      MonthContaining(k, year, month + 1)
  }

  /** The date whose day number is `n`. */
  function FromOrdinal(n: int): (d: ValidDate)
    requires 1 <= n <= MaxOrdinal
    ensures Ordinal(d) == n
  {
    var year := YearContaining(n, 1);
    YearStep(year);
    var month := MonthContaining(n - DaysBeforeYear(year), year, 1);
    Date(n - DaysBeforeYear(year) - DaysBeforeMonth(month, year), month, year)
  }

  /** `fromordinal` undoes `toordinal`. */
  lemma FromOrdinalOfOrdinal(d: ValidDate)
    ensures 1 <= Ordinal(d) <= MaxOrdinal && FromOrdinal(Ordinal(d)) == d
  {
    OrdinalRange(d);
    OrdinalInjective(FromOrdinal(Ordinal(d)), d);
  }

  // ---------------------------------------------------------------------------
  // Weeks

  /** Two Sundays are a whole number of weeks apart. */
  lemma SundaysWeeksApart(a: int, b: int)
    requires IsSunday(a) && IsSunday(b) && a <= b
    ensures (b - a) % 7 == 0
  {
  }

  /** Whole weeks after a Sunday land on a Sunday again. */
  lemma SundayAfterWeeks(a: int, k: int)
    ensures IsSunday(a) ==> IsSunday(a + 7 * k)
  {
    assert a + 7 * k + 6 == 7 * ((a + 6) / 7 + k) + (a + 6) % 7;
  }

  /** For a Sunday `w`, a day falls on or before `w` exactly when its week ends
      on or before `w`. */
  lemma WeekEndingAtMost(n: int, w: int)
    requires IsSunday(w)
    ensures n <= w <==> WeekEnding(n) <= w
  {
  }

  lemma WeekEndingMonotone(a: int, b: int)
    requires a <= b
    ensures WeekEnding(a) <= WeekEnding(b)
  {
  }
}
