/** The ledger's single date format, `%d-%m-%Y`, read the way Python's
    `strptime` reads it and written the way `strftime` writes it. */
module DateText {
  import opened Wrappers
  import opened Calendar

  predicate IsDigit(c: char) {
    '0' <= c <= '9'
  }

  function DigitValue(c: char): (v: int)
    requires IsDigit(c)
    ensures 0 <= v <= 9
  {
    c as int - '0' as int
  }

  function DigitChar(v: int): (c: char)
    requires 0 <= v <= 9
    ensures IsDigit(c) && DigitValue(c) == v
  {
    ('0' as int + v) as char
  }

  /** Position of the first '-' in `s`, if any. */
  function FirstDash(s: string): (r: Option<nat>)
    ensures r.Some? ==> r.value < |s| && s[r.value] == '-' && '-' !in s[..r.value]
    ensures r.None? ==> '-' !in s
  {
    if |s| == 0 then None
    else if s[0] == '-' then Some(0)
    else match FirstDash(s[1..])
      case None => None
      case Some(i) => Some(i + 1)
  }

  /** Text made of decimal digits only. */
  predicate AllDigits(f: string) {
    forall i :: 0 <= i < |f| ==> IsDigit(f[i])
  }

  /** The number a string of decimal digits denotes, most significant first. */
  function Numeral(f: string): (n: nat)
    requires AllDigits(f)
  {
    if |f| == 0 then 0 else 10 * Numeral(f[..|f| - 1]) + DigitValue(f[|f| - 1])
  }

  /** The value of one or two digits. */
  lemma NumeralShort(f: string)
    ensures |f| == 1 && AllDigits(f) ==> Numeral(f) == DigitValue(f[0])
    ensures |f| == 2 && AllDigits(f) ==> Numeral(f) == 10 * DigitValue(f[0]) + DigitValue(f[1])
  {
    if |f| == 2 && AllDigits(f) {
      assert f[..1][..0] == [];
    } else if |f| == 1 && AllDigits(f) {
      assert f[..0] == [];
    }
  }

  /** The value of four digits. */
  lemma NumeralFour(f: string)
    ensures |f| == 4 && AllDigits(f) ==> Numeral(f) == 1000 * DigitValue(f[0]) + 100 * DigitValue(f[1]) + 10 * DigitValue(f[2]) + DigitValue(f[3])
  {
    if |f| == 4 && AllDigits(f) {
      assert f[..3][..2] == f[..2];
      NumeralShort(f[..2]);
    }
  }

  /** The `%d` directive: one of `3[01]`, `[12]\d`, `0[1-9]`, `[1-9]`, ` [1-9]`,
      which must be the whole field before the first '-'. So one or two digits
      denoting a day from 1 to 31, or a space and a nonzero digit. */
  function DayField(f: string): (r: Option<int>)
    ensures r.Some? <==>
      || (1 <= |f| <= 2 && AllDigits(f) && 1 <= Numeral(f) <= 31)
      || (|f| == 2 && f[0] == ' ' && '1' <= f[1] <= '9')
    ensures r.Some? && AllDigits(f) ==> r.value == Numeral(f)
    ensures r.Some? && !AllDigits(f) ==> |f| == 2 && r.value == DigitValue(f[1])
    ensures r.Some? ==> 1 <= r.value <= 31
  {
    NumeralShort(f);
    if |f| == 1 && '1' <= f[0] <= '9' then Some(DigitValue(f[0]))
    else if |f| == 2 && (f[0] == ' ' || f[0] == '0') && '1' <= f[1] <= '9' then Some(DigitValue(f[1]))
    else if |f| == 2 && (f[0] == '1' || f[0] == '2') && IsDigit(f[1]) then Some(10 * DigitValue(f[0]) + DigitValue(f[1]))
    else if |f| == 2 && f[0] == '3' && (f[1] == '0' || f[1] == '1') then Some(30 + DigitValue(f[1]))
    else None
  }

  /** The `%m` directive: one of `1[0-2]`, `0[1-9]`, `[1-9]`. So one or two
      digits denoting a month from 1 to 12. */
  function MonthField(f: string): (r: Option<int>)
    ensures r.Some? <==> 1 <= |f| <= 2 && AllDigits(f) && 1 <= Numeral(f) <= 12
    ensures r.Some? ==> r.value == Numeral(f)
    ensures r.Some? ==> 1 <= r.value <= 12
  {
    NumeralShort(f);
    if |f| == 1 && '1' <= f[0] <= '9' then Some(DigitValue(f[0]))
    else if |f| == 2 && f[0] == '0' && '1' <= f[1] <= '9' then Some(DigitValue(f[1]))
    else if |f| == 2 && f[0] == '1' && '0' <= f[1] <= '2' then Some(10 + DigitValue(f[1]))
    else None
  }

  /** The `%Y` directive: exactly four digits, after which the text must end. */
  function YearField(f: string): (r: Option<int>)
    ensures r.Some? <==> |f| == 4 && AllDigits(f)
    ensures r.Some? ==> r.value == Numeral(f)
    ensures r.Some? ==> 0 <= r.value <= 9999
  {
    NumeralFour(f);
    if |f| == 4 && IsDigit(f[0]) && IsDigit(f[1]) && IsDigit(f[2]) && IsDigit(f[3]) then
      Some(1000 * DigitValue(f[0]) + 100 * DigitValue(f[1]) + 10 * DigitValue(f[2]) + DigitValue(f[3]))
    else None
  }

  /** The text before the first dash, between the first two dashes, and after
      the second dash; None when there are fewer than two dashes. */
  function SplitFields(s: string): (r: Option<(string, string, string)>)
    ensures r.Some? ==> s == r.value.0 + "-" + r.value.1 + "-" + r.value.2
    ensures r.Some? ==> '-' !in r.value.0 && '-' !in r.value.1
  {
    match FirstDash(s)
    case None => None
    case Some(i) =>
      var rest := s[i + 1..];
      match FirstDash(rest)
      case None => None
      case Some(j) =>
        assert s == s[..i] + "-" + rest[..j] + "-" + rest[j + 1..];
        Some((s[..i], rest[..j], rest[j + 1..]))
  }

  /** The first dash after a dash-free prefix is the one that follows it. */
  lemma {:induction false} FirstDashAfter(a: string, rest: string)
    requires '-' !in a
    ensures FirstDash(a + "-" + rest) == Some(|a|)
  {
    if |a| > 0 {
      assert (a + "-" + rest)[1..] == a[1..] + "-" + rest;
      FirstDashAfter(a[1..], rest);
    }
  }

  /** Splitting text assembled from dash-free day and month fields gives the fields back. */
  lemma SplitJoined(day: string, month: string, year: string)
    requires '-' !in day && '-' !in month
    ensures SplitFields(day + "-" + month + "-" + year) == Some((day, month, year))
  {
    var s := day + "-" + month + "-" + year;
    FirstDashAfter(day, month + "-" + year);
    assert s == day + "-" + (month + "-" + year);
    assert s[..|day|] == day;
    assert s[|day| + 1..] == month + "-" + year;
    FirstDashAfter(month, year);
    assert (month + "-" + year)[..|month|] == month;
    assert (month + "-" + year)[|month| + 1..] == year;
  }

  /** The date the three fields name, if they match their directives and
      name a real date. */
  function FromFields(dayText: string, monthText: string, yearText: string): (r: Option<ValidDate>)
  {
    match (DayField(dayText), MonthField(monthText), YearField(yearText))
    case (Some(day), Some(month), Some(year)) =>
      if Valid(Date(day, month, year)) then Some(Date(day, month, year)) else None
    case _ => None
  }

  /** `datetime.strptime(s, "%d-%m-%Y")`: None where Python raises ValueError,
      either because the text does not match the format or because the
      matched numbers are not a date (a 30th of February, year 0000). */
  function Parse(s: string): (r: Option<ValidDate>)
    ensures r.Some? ==> 6 <= |s| <= 10
  {
    match SplitFields(s)
    case None => None
    case Some((dayText, monthText, yearText)) => FromFields(dayText, monthText, yearText)
  }

  /** Two zero-padded digits. */
  function Pad2(n: int): (s: string)
    requires 0 <= n <= 99
    ensures |s| == 2 && IsDigit(s[0]) && IsDigit(s[1])
    ensures 10 * DigitValue(s[0]) + DigitValue(s[1]) == n
  {
    [DigitChar(n / 10), DigitChar(n % 10)]
  }

  /** Four zero-padded digits. */
  function Pad4(n: int): (s: string)
    requires 0 <= n <= 9999
    ensures |s| == 4 && IsDigit(s[0]) && IsDigit(s[1]) && IsDigit(s[2]) && IsDigit(s[3])
    ensures 1000 * DigitValue(s[0]) + 100 * DigitValue(s[1]) + 10 * DigitValue(s[2]) + DigitValue(s[3]) == n
  {
    Pad2(n / 100) + Pad2(n % 100)
  }

  /** `date.strftime("%d-%m-%Y")`. */
  function Format(d: ValidDate): (s: string)
    ensures |s| == 10 && s[2] == '-' && s[5] == '-'
    ensures forall k :: 0 <= k < |s| && k != 2 && k != 5 ==> IsDigit(s[k])
  {
    Pad2(d.day) + "-" + Pad2(d.month) + "-" + Pad4(d.year)
  }

  /** Reading back a written date gives the same date. */
  lemma ParseFormat(d: ValidDate)
    ensures Parse(Format(d)) == Some(d)
  {
    SplitJoined(Pad2(d.day), Pad2(d.month), Pad4(d.year));
    assert DayField(Pad2(d.day)) == Some(d.day) by {
      NumeralShort(Pad2(d.day));
    }
    assert MonthField(Pad2(d.month)) == Some(d.month) by {
      NumeralShort(Pad2(d.month));
    }
    assert YearField(Pad4(d.year)) == Some(d.year) by {
      NumeralFour(Pad4(d.year));
    }
  }

  /** Text made only of digits and the two dashes, ten characters long, is read
      only as the date it is the canonical spelling of. */
  lemma ParseCanonical(s: string, d: ValidDate)
    requires Parse(s) == Some(d)
    requires |s| == 10
    requires forall k :: 0 <= k < |s| ==> IsDigit(s[k]) || s[k] == '-'
    ensures Format(d) == s
  {
    var (dayText, monthText, yearText) := SplitFields(s).value;
    assert |dayText| <= 2 && |monthText| <= 2 && |yearText| == 4;
    assert |dayText| == 2 && |monthText| == 2;
    assert dayText == s[..2] && monthText == s[3..5] && yearText == s[6..];
    assert DayField(dayText) == Some(d.day);
    assert MonthField(monthText) == Some(d.month);
    assert YearField(yearText) == Some(d.year);
    DigitsOfTwo(dayText, d.day);
    DigitsOfTwo(monthText, d.month);
    DigitsOfFour(yearText, d.year);
    assert s == dayText + "-" + monthText + "-" + yearText;
  }

  /** Two digits are the padded spelling of the number they denote. */
  lemma DigitsOfTwo(t: string, n: int)
    requires |t| == 2 && IsDigit(t[0]) && IsDigit(t[1])
    requires 10 * DigitValue(t[0]) + DigitValue(t[1]) == n
    ensures Pad2(n) == t
  {
    DigitInjective(Pad2(n)[0], t[0]);
    DigitInjective(Pad2(n)[1], t[1]);
  }

  lemma DigitsOfFour(t: string, n: int)
    requires |t| == 4 && IsDigit(t[0]) && IsDigit(t[1]) && IsDigit(t[2]) && IsDigit(t[3])
    requires 1000 * DigitValue(t[0]) + 100 * DigitValue(t[1]) + 10 * DigitValue(t[2]) + DigitValue(t[3]) == n
    ensures Pad4(n) == t
  {
    DigitsOfTwo(t[..2], n / 100);
    DigitsOfTwo(t[2..], n % 100);
    assert t == t[..2] + t[2..];
  }

  lemma DigitInjective(a: char, b: char)
    requires IsDigit(a) && IsDigit(b) && DigitValue(a) == DigitValue(b)
    ensures a == b
  {
  }

  /** strptime also accepts unpadded days and months ... */
  lemma ParseAcceptsUnpadded()
    ensures Parse("1-2-2024") == Some(Date(1, 2, 2024))
  {
    assert "1-2-2024" == "1" + "-" + "2" + "-" + "2024";
    SplitJoined("1", "2", "2024");
    UnpaddedFields();
  }

  lemma UnpaddedFields()
    ensures FromFields("1", "2", "2024") == Some(Date(1, 2, 2024))
  {
    assert DayField("1") == Some(1) && MonthField("2") == Some(2);
    assert YearField("2024") == Some(2024) by {
      NumeralFour("2024");
    }
    assert Valid(Date(1, 2, 2024));
  }

  /** ... and a day padded with a space. */
  lemma ParseAcceptsSpacePaddedDay()
    ensures Parse(" 7-12-1999") == Some(Date(7, 12, 1999))
  {
    assert " 7-12-1999" == " 7" + "-" + "12" + "-" + "1999";
    SplitJoined(" 7", "12", "1999");
  }

  /** There is no 29th of February in a common year. */
  lemma ParseRejectsMissingLeapDay()
    ensures Parse("29-02-2023") == None
  {
    assert "29-02-2023" == "29" + "-" + "02" + "-" + "2023";
    SplitJoined("29", "02", "2023");
    MissingLeapDayFields();
  }

  lemma MissingLeapDayFields()
    ensures FromFields("29", "02", "2023") == None
  {
    assert DayField("29") == Some(29) by {
      NumeralShort("29");
    }
    assert MonthField("02") == Some(2);
    assert YearField("2023") == Some(2023) by {
      NumeralFour("2023");
    }
    assert !Valid(Date(29, 2, 2023));
  }

  /** The 29th of February exists in a leap year. */
  lemma ParseLeapDay()
    ensures Parse("29-02-2024") == Some(Date(29, 2, 2024))
  {
    assert Valid(Date(29, 2, 2024));
    ParseFormat(Date(29, 2, 2024));
    assert Format(Date(29, 2, 2024)) == "29-02-2024";
  }

  /** Year 0000 matches the pattern but is not a date. */
  lemma ParseRejectsYearZero()
    ensures Parse("01-01-0000") == None
  {
    assert "01-01-0000" == "01" + "-" + "01" + "-" + "0000";
    SplitJoined("01", "01", "0000");
  }

  /** Text in another layout is an error, never reinterpreted. */
  lemma ParseRejectsIsoLayout()
    ensures Parse("2024-01-01") == None
  {
    assert "2024-01-01" == "2024" + "-" + "01" + "-" + "01";
    SplitJoined("2024", "01", "01");
    assert DayField("2024") == None;
  }

  lemma ParseRejectsShortYear()
    ensures Parse("01-01-24") == None
  {
    assert "01-01-24" == "01" + "-" + "01" + "-" + "24";
    SplitJoined("01", "01", "24");
  }
}
