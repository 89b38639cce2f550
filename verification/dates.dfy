/** Date handling: what `datetime.strptime(s, "%Y-%m-%d")` accepts, and the
    `strftime("%Y-%m-%d")` rendering the seed generator uses. */
module Dates {
  import opened Results

  /** A proleptic Gregorian calendar date, as `datetime.date` holds it. */
  datatype Date = Date(year: int, month: int, day: int)

  predicate IsLeapYear(year: int) {
    year % 4 == 0 && (year % 100 != 0 || year % 400 == 0)
  }

  function DaysInMonth(year: int, month: int): (n: int)
    requires 1 <= month <= 12
    ensures 28 <= n <= 31
    ensures month == 2 ==> (n == 29 <==> IsLeapYear(year))
  {
    if month == 2 then (if IsLeapYear(year) then 29 else 28)
    else if month == 4 || month == 6 || month == 9 || month == 11 then 30
    else 31
  }

  /** The range `datetime.date` admits: years 1 through 9999, a month of the
      year, and a day that the month has. */
  predicate IsCalendarDate(d: Date) {
    && 1 <= d.year <= 9999
    && 1 <= d.month <= 12
    && 1 <= d.day <= DaysInMonth(d.year, d.month)
  }

  predicate IsDigit(c: char) {
    '0' <= c <= '9'
  }

  function DigitValue(c: char): (v: int)
    requires IsDigit(c)
    ensures 0 <= v <= 9
  {
    c as int - '0' as int
  }

  function DigitChar(v: int): (c: char)
    requires 0 <= v <= 9
    ensures IsDigit(c) && DigitValue(c) == v
  {
    ('0' as int + v) as char
  }

  function Pad2(v: int): (s: string)
    requires 0 <= v <= 99
  {
    [DigitChar(v / 10), DigitChar(v % 10)]
  }

  /** The ways `%m` writes month `m`: zero-padded, or a single digit below 10. */
  predicate WritesMonth(t: string, m: int) {
    1 <= m <= 12 && (t == Pad2(m) || (m <= 9 && t == [DigitChar(m)]))
  }

  /** The ways `%d` writes day `d`: zero-padded, or below 10 as a single digit
      or a digit after one space. */
  predicate WritesDay(t: string, d: int) {
    1 <= d <= 31 && (t == Pad2(d) || (d <= 9 && (t == [DigitChar(d)] || t == [' ', DigitChar(d)])))
  }

  /** The `%Y` directive: exactly four decimal digits. */
  function YearField(t: string): (r: Option<int>)
    ensures r.Some? <==> |t| == 4 && forall i :: 0 <= i < 4 ==> IsDigit(t[i])
    ensures r.Some? ==> 0 <= r.value <= 9999
  {
    if |t| == 4 && IsDigit(t[0]) && IsDigit(t[1]) && IsDigit(t[2]) && IsDigit(t[3])
    then Some(1000 * DigitValue(t[0]) + 100 * DigitValue(t[1]) + 10 * DigitValue(t[2]) + DigitValue(t[3]))
    else None
  }

  /** The `%m` directive, whose alternatives are `1[0-2]`, `0[1-9]` and `[1-9]`:
      a zero-padded or an unpadded month number. */
  function MonthField(t: string): (r: Option<int>)
    ensures r.Some? ==> 1 <= r.value <= 12
    ensures r.Some? ==> 1 <= |t| <= 2 && forall i :: 0 <= i < |t| ==> IsDigit(t[i])
    ensures r.Some? ==> WritesMonth(t, r.value)
  {
    if |t| == 2 && t[0] == '1' && '0' <= t[1] <= '2' then Some(10 + DigitValue(t[1]))
    else if |t| == 2 && t[0] == '0' && '1' <= t[1] <= '9' then Some(DigitValue(t[1]))
    else if |t| == 1 && '1' <= t[0] <= '9' then Some(DigitValue(t[0]))
    else None
  }

  /** The `%d` directive, whose alternatives are `3[01]`, `[12]\d`, `0[1-9]`,
      `[1-9]` and ` [1-9]`: a zero-padded, unpadded or space-padded day. */
  function DayField(t: string): (r: Option<int>)
    ensures r.Some? ==> 1 <= r.value <= 31
    ensures r.Some? ==> 1 <= |t| <= 2 && '-' !in t
    ensures r.Some? ==> WritesDay(t, r.value)
  {
    if |t| == 2 && t[0] == '3' && '0' <= t[1] <= '1' then Some(30 + DigitValue(t[1]))
    else if |t| == 2 && '1' <= t[0] <= '2' && IsDigit(t[1]) then Some(10 * DigitValue(t[0]) + DigitValue(t[1]))
    else if |t| == 2 && t[0] == '0' && '1' <= t[1] <= '9' then Some(DigitValue(t[1]))
    else if |t| == 1 && '1' <= t[0] <= '9' then Some(DigitValue(t[0]))
    else if |t| == 2 && t[0] == ' ' && '1' <= t[1] <= '9' then Some(DigitValue(t[1]))
    else None
  }

  /** Position of the first occurrence of `c` in `s`. */
  function IndexOf(s: string, c: char): (r: Option<nat>)
    ensures r.Some? ==> r.value < |s| && s[r.value] == c && c !in s[..r.value]
    ensures r.None? ==> c !in s
  {
    if s == [] then None
    else if s[0] == c then Some(0)
    else match IndexOf(s[1..], c)
      case None => None
      case Some(k) =>
        assert s[..k + 1] == [s[0]] + s[1..][..k];
        Some(k + 1)
  }

  /** The pattern stage of `strptime(s, "%Y-%m-%d")`: the whole string must be
      four year digits, a dash, a month field, a dash and a day field. The
      fields themselves contain no dash, so the month ends at the first dash
      after the year. No calendar check is made here. */
  function ParseFields(s: string): Option<Date>
  {
    if |s| < 5 || s[4] != '-' then None
    else
      var rest := s[5..];
      match IndexOf(rest, '-')
      case None => None
      case Some(k) =>
        match (YearField(s[..4]), MonthField(rest[..k]), DayField(rest[k + 1..]))
        case (Some(y), Some(m), Some(d)) => Some(Date(y, m, d))
        case _ => None
  }

  /** `strptime(s, "%Y-%m-%d")`: the pattern stage, then the range check that
      `datetime` makes when it builds the value (year 0 and 31 April fail). */
  function ParseDate(s: string): (r: Option<Date>)
    ensures r.Some? ==> IsCalendarDate(r.value)
    ensures r.Some? ==> |s| <= 10
  {
    match ParseFields(s)
    case Some(d) => if IsCalendarDate(d) then Some(d) else None
    case None => None
  }

  /** `validate_date`: the string parses as a real calendar date. */
  predicate ValidateDate(s: string): (b: bool)
    ensures b ==> ParseDate(s).Some? && WritesDate(s, ParseDate(s).value)
    ensures forall d :: WritesDate(s, d) ==> b
  {
    assert forall d :: WritesDate(s, d) ==> ParseDate(s) == Some(d) by {
      forall d | WritesDate(s, d)
        ensures ParseDate(s) == Some(d)
      {
        ParseDateIffWritten(s, d);
      }
    }
    assert ParseDate(s).Some? ==> WritesDate(s, ParseDate(s).value) by {
      if ParseDate(s).Some? {
        ParseDateIffWritten(s, ParseDate(s).value);
      }
    }
    ParseDate(s).Some?
  }

  function Pad4(v: int): (s: string)
    requires 0 <= v <= 9999
  {
    Pad2(v / 100) + Pad2(v % 100)
  }

  /** `strftime("%Y-%m-%d")`: zero-padded year, month and day. */
  function FormatDate(d: Date): (s: string)
    requires IsCalendarDate(d)
  {
    Pad4(d.year) + "-" + Pad2(d.month) + "-" + Pad2(d.day)
  }

  lemma YearFieldOfPad4(v: int)
    requires 0 <= v <= 9999
    ensures YearField(Pad4(v)) == Some(v)
  {
    var h, lo := v / 100, v % 100;
    assert v == 100 * h + lo;
    assert h == 10 * (h / 10) + h % 10;
    assert lo == 10 * (lo / 10) + lo % 10;
    var t := Pad4(v);
    assert DigitValue(t[0]) == h / 10 && DigitValue(t[1]) == h % 10;
    assert DigitValue(t[2]) == lo / 10 && DigitValue(t[3]) == lo % 10;
  }

  /** Every calendar date the formatter renders is read back unchanged. */
  lemma {:induction false} FormatParseRoundTrip(d: Date)
    requires IsCalendarDate(d)
    ensures ParseDate(FormatDate(d)) == Some(d)
  {
    var s := FormatDate(d);
    assert s[..4] == Pad4(d.year) && s[4] == '-' && s[7] == '-';
    assert s[5..7] == Pad2(d.month) && s[8..] == Pad2(d.day);
    LongMonthParses(s, d);
  }

  lemma DigitCharOfValue(c: char)
    requires IsDigit(c)
    ensures DigitChar(DigitValue(c)) == c
  {
  }

  lemma Pad4OfYearField(t: string)
    requires YearField(t).Some?
    ensures Pad4(YearField(t).value) == t
  {
    var a, b, c, e := DigitValue(t[0]), DigitValue(t[1]), DigitValue(t[2]), DigitValue(t[3]);
    var v := YearField(t).value;
    var h, lo := 10 * a + b, 10 * c + e;
    assert v == 100 * h + lo;
    assert v / 100 == h && v % 100 == lo;
    assert h / 10 == a && h % 10 == b;
    assert lo / 10 == c && lo % 10 == e;
    DigitCharOfValue(t[0]);
    DigitCharOfValue(t[1]);
    DigitCharOfValue(t[2]);
    DigitCharOfValue(t[3]);
  }

  lemma Pad2OfMonthField(t: string)
    requires |t| == 2 && MonthField(t).Some?
    ensures Pad2(MonthField(t).value) == t
  {
    DigitCharOfValue(t[0]);
    DigitCharOfValue(t[1]);
  }

  lemma Pad2OfDayField(t: string)
    requires |t| == 2 && t[0] != ' ' && DayField(t).Some?
    ensures Pad2(DayField(t).value) == t
  {
    DigitCharOfValue(t[0]);
    DigitCharOfValue(t[1]);
  }

  /** Every way `%m` writes a month is accepted, with that month's value. */
  lemma MonthFieldAccepts(t: string, m: int)
    requires WritesMonth(t, m)
    ensures MonthField(t) == Some(m)
  {
    if t == Pad2(m) {
      assert m / 10 == (if m >= 10 then 1 else 0);
    }
  }

  /** Every way `%d` writes a day is accepted, with that day's value. */
  lemma DayFieldAccepts(t: string, d: int)
    requires WritesDay(t, d)
    ensures DayField(t) == Some(d)
  {
    if t == Pad2(d) {
      assert d == 10 * (d / 10) + d % 10;
      assert d / 10 <= 3;
    }
  }

  /** The texts `strptime(s, "%Y-%m-%d")` reads as date `d`: the zero-padded
      year, a dash, a way of writing the month, a dash and a way of writing
      the day, for a real calendar date. */
  predicate WritesDate(s: string, d: Date) {
    && IsCalendarDate(d)
    && |s| >= 7 && s[..4] == Pad4(d.year) && s[4] == '-'
    && ((s[6] == '-' && WritesMonth(s[5..6], d.month) && WritesDay(s[7..], d.day))
        || (|s| >= 8 && s[7] == '-' && WritesMonth(s[5..7], d.month) && WritesDay(s[8..], d.day)))
  }

  /** What a parse accepts is a way of writing the date it yields. */
  lemma ParsedIsWritten(s: string, d: Date)
    requires ParseDate(s) == Some(d)
    ensures WritesDate(s, d)
  {
    var rest := s[5..];
    var k := IndexOf(rest, '-').value;
    assert MonthField(rest[..k]) == Some(d.month) && DayField(rest[k + 1..]) == Some(d.day);
    Pad4OfYearField(s[..4]);
    assert s[5..5 + k] == rest[..k] && s[5 + k + 1..] == rest[k + 1..] && s[5 + k] == '-';
  }

  /** A written date whose month takes one character parses back to it. */
  lemma ShortMonthParses(s: string, d: Date)
    requires IsCalendarDate(d) && |s| >= 7 && s[..4] == Pad4(d.year) && s[4] == '-'
    requires s[6] == '-' && WritesMonth(s[5..6], d.month) && WritesDay(s[7..], d.day)
    ensures ParseDate(s) == Some(d)
  {
    var rest := s[5..];
    YearFieldOfPad4(d.year);
    assert rest[0] != '-' && rest[1] == '-';
    assert IndexOf(rest, '-') == Some(1);
    assert rest[..1] == s[5..6] && rest[2..] == s[7..];
    MonthFieldAccepts(s[5..6], d.month);
    DayFieldAccepts(s[7..], d.day);
  }

  /** A written date whose month takes two characters parses back to it. */
  lemma LongMonthParses(s: string, d: Date)
    requires IsCalendarDate(d) && |s| >= 8 && s[..4] == Pad4(d.year) && s[4] == '-'
    requires s[7] == '-' && WritesMonth(s[5..7], d.month) && WritesDay(s[8..], d.day)
    ensures ParseDate(s) == Some(d)
  {
    var rest := s[5..];
    YearFieldOfPad4(d.year);
    assert rest[0] != '-' && rest[1] != '-' && rest[2] == '-';
    assert IndexOf(rest, '-') == Some(2);
    assert rest[..2] == s[5..7] && rest[3..] == s[8..];
    MonthFieldAccepts(s[5..7], d.month);
    DayFieldAccepts(s[8..], d.day);
  }

  /** A parse yields `d` exactly when the text is one of the ways of writing `d`. */
  lemma ParseDateIffWritten(s: string, d: Date)
    ensures ParseDate(s) == Some(d) <==> WritesDate(s, d)
  {
    if ParseDate(s) == Some(d) {
      ParsedIsWritten(s, d);
    }
    if WritesDate(s, d) {
      if s[6] == '-' && WritesMonth(s[5..6], d.month) && WritesDay(s[7..], d.day) {
        ShortMonthParses(s, d);
      } else {
        LongMonthParses(s, d);
      }
    }
  }

  /** A date string with no space, of the strict ten-character `YYYY-MM-DD`
      length, is accepted only in the formatter's own rendering. */
  lemma {:induction false} StrictFormIsCanonical(s: string)
    requires |s| == 10 && ' ' !in s
    requires ValidateDate(s)
    ensures s == FormatDate(ParseDate(s).value)
  {
    var d := ParseDate(s).value;
    var rest := s[5..];
    var k := IndexOf(rest, '-').value;
    var m, dd := rest[..k], rest[k + 1..];
    assert MonthField(m).Some? && DayField(dd).Some?;
    assert k == 2;
    assert dd[0] == s[8];
    Pad4OfYearField(s[..4]);
    Pad2OfMonthField(m);
    Pad2OfDayField(dd);
    assert s == s[..4] + "-" + m + "-" + dd;
  }

  /** 29 February exists in a leap year. */
  lemma LeapDayExample()
    ensures ParseDate("2024-02-29") == Some(Date(2024, 2, 29))
  {
    var s := "2024-02-29";
    assert s[..4] == "2024" && s[5..] == "02-29";
    assert IndexOf("02-29", '-') == Some(2);
    assert "02-29"[..2] == "02" && "02-29"[3..] == "29";
  }

  /** 29 February does not exist in 2023: the pattern matches but the
      calendar check refuses it. */
  lemma NonLeapDayExample()
    ensures ParseFields("2023-02-29") == Some(Date(2023, 2, 29))
    ensures !ValidateDate("2023-02-29")
  {
    var s := "2023-02-29";
    assert s[..4] == "2023" && s[5..] == "02-29";
    assert IndexOf("02-29", '-') == Some(2);
    assert "02-29"[..2] == "02" && "02-29"[3..] == "29";
  }

  /** Month 13 fails the `%m` pattern. */
  lemma MonthThirteenExample()
    ensures !ValidateDate("2024-13-01")
  {
    var s := "2024-13-01";
    assert s[..4] == "2024" && s[5..] == "13-01";
    assert IndexOf("13-01", '-') == Some(2);
    assert "13-01"[..2] == "13";
  }

  /** Unpadded month and day fields are accepted. */
  lemma UnpaddedExample()
    ensures ParseDate("2024-2-9") == Some(Date(2024, 2, 9))
  {
    var s := "2024-2-9";
    assert s[..4] == "2024" && s[5..] == "2-9";
    assert IndexOf("2-9", '-') == Some(1);
    assert "2-9"[..1] == "2" && "2-9"[2..] == "9";
  }
}
