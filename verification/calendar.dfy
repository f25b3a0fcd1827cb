/**
 * The parts of java.time the program relies on, on the proleptic Gregorian
 * calendar: `LocalDate` as a count of days from 1970-01-01 (the epoch day),
 * `DayOfWeek`, `YearMonth`, `LocalTime` as seconds of the day, `LocalDateTime`,
 * and the ISO 8601 extended text forms `YYYY-MM-DD` (ISO 8601:2004 section
 * 4.1.2.2) and `HH:MM[:SS]` that `toString` writes and `parse` reads.
 */
module Calendar {
  import opened Wrappers
  import opened Text

  // ---------------------------------------------------------------- weekdays

  datatype Weekday = Monday | Tuesday | Wednesday | Thursday | Friday | Saturday | Sunday

  const AllWeekdays: set<Weekday> := {Monday, Tuesday, Wednesday, Thursday, Friday, Saturday, Sunday}

  /** `DayOfWeek.getValue`: Monday is 1, Sunday is 7. */
  function WeekdayValue(w: Weekday): (v: int)
    ensures 1 <= v <= 7
    ensures WeekdayOfValue(v) == w
  {
    match w
    case Monday => 1
    case Tuesday => 2
    case Wednesday => 3
    case Thursday => 4
    case Friday => 5
    case Saturday => 6
    case Sunday => 7
  }

  /** `DayOfWeek.of`. */
  function WeekdayOfValue(v: int): Weekday
    requires 1 <= v <= 7
  {
    if v == 1 then Monday
    else if v == 2 then Tuesday
    else if v == 3 then Wednesday
    else if v == 4 then Thursday
    else if v == 5 then Friday
    else if v == 6 then Saturday
    else Sunday
  }

  /** `DayOfWeek.name()`. */
  function WeekdayName(w: Weekday): string {
    match w
    case Monday => "MONDAY"
    case Tuesday => "TUESDAY"
    case Wednesday => "WEDNESDAY"
    case Thursday => "THURSDAY"
    case Friday => "FRIDAY"
    case Saturday => "SATURDAY"
    case Sunday => "SUNDAY"
  }

  /** `DayOfWeek.valueOf`: None where Java throws IllegalArgumentException. */
  function WeekdayFromName(s: string): (r: Option<Weekday>)
    ensures r.Some? ==> WeekdayName(r.value) == s
    ensures forall w :: WeekdayName(w) == s ==> r == Some(w)
  {
    if s == "MONDAY" then Some(Monday)
    else if s == "TUESDAY" then Some(Tuesday)
    else if s == "WEDNESDAY" then Some(Wednesday)
    else if s == "THURSDAY" then Some(Thursday)
    else if s == "FRIDAY" then Some(Friday)
    else if s == "SATURDAY" then Some(Saturday)
    else if s == "SUNDAY" then Some(Sunday)
    else None
  }

  // ------------------------------------------------------- the civil calendar

  predicate IsLeapYear(y: int) {
    y % 4 == 0 && (y % 100 != 0 || y % 400 == 0)
  }

  function YearLength(y: int): int {
    if IsLeapYear(y) then 366 else 365
  }

  function DaysInMonth(y: int, m: int): (n: int)
    requires 1 <= m <= 12
    ensures 28 <= n <= 31
  {
    if m == 2 then (if IsLeapYear(y) then 29 else 28)
    else if m == 4 || m == 6 || m == 9 || m == 11 then 30
    else 31
  }

  /** Days of year y before the first of month m (m == 13: the whole year). */
  function DaysBeforeMonth(y: int, m: int): (n: int)
    requires 1 <= m <= 13
    ensures 0 <= n <= 31 * (m - 1)
  {
    if m == 1 then 0 else DaysBeforeMonth(y, m - 1) + DaysInMonth(y, m - 1)
  }

  lemma DaysBeforeNextMonth(y: int, m: int)
    requires 1 <= m <= 12
    ensures DaysBeforeMonth(y, m + 1) == DaysBeforeMonth(y, m) + DaysInMonth(y, m)
  {
  }

  /** Days from 0000-01-01 to the first of January of year y. */
  function DaysBeforeYear(y: nat): nat {
    if y == 0 then 0 else DaysBeforeYear(y - 1) + YearLength(y - 1)
  }

  lemma MonthsFillYear(y: int)
    ensures DaysBeforeMonth(y, 13) == YearLength(y)
  {
    var leap := if IsLeapYear(y) then 1 else 0;
    assert DaysBeforeMonth(y, 3) == 59 + leap by {
      assert DaysBeforeMonth(y, 2) == 31;
    }
    assert DaysBeforeMonth(y, 7) == 181 + leap by {
      assert DaysBeforeMonth(y, 4) == 90 + leap;
      assert DaysBeforeMonth(y, 5) == 120 + leap;
      assert DaysBeforeMonth(y, 6) == 151 + leap;
    }
    assert DaysBeforeMonth(y, 10) == 273 + leap by {
      assert DaysBeforeMonth(y, 8) == 212 + leap;
      assert DaysBeforeMonth(y, 9) == 243 + leap;
    }
    assert DaysBeforeMonth(y, 12) == 334 + leap by {
      assert DaysBeforeMonth(y, 11) == 304 + leap;
    }
  }

  lemma CeilStep4(y: int)
    ensures (y + 4) / 4 - (y + 3) / 4 == if y % 4 == 0 then 1 else 0
  {
  }

  lemma CeilStep100(y: int)
    ensures (y + 100) / 100 - (y + 99) / 100 == if y % 100 == 0 then 1 else 0
  {
  }

  lemma CeilStep400(y: int)
    ensures (y + 400) / 400 - (y + 399) / 400 == if y % 400 == 0 then 1 else 0
  {
  }

  lemma LeapDivisibility(y: int)
    ensures y % 400 == 0 ==> y % 100 == 0
    ensures y % 100 == 0 ==> y % 4 == 0
  {
    if y % 400 == 0 {
      var q := y / 400;
      assert y == 100 * (4 * q);
    }
    if y % 100 == 0 {
      var q := y / 100;
      assert y == 4 * (25 * q);
    }
  }

  lemma DaysBeforeNextYear(y: nat)
    ensures DaysBeforeYear(y + 1) == DaysBeforeYear(y) + YearLength(y)
  {
  }

  /** The count of leap years before y, in closed form: every 4th, less every 100th, plus every 400th. */
  lemma {:induction false} DaysBeforeYearClosed(y: nat)
    ensures DaysBeforeYear(y) == 365 * y + (y + 3) / 4 - (y + 99) / 100 + (y + 399) / 400
  {
    if y > 0 {
      var x := y - 1;
      DaysBeforeYearClosed(x);
      CeilStep4(x);
      CeilStep100(x);
      CeilStep400(x);
      LeapDivisibility(x);
    }
  }

  lemma {:induction false} DaysBeforeYearMonotone(a: nat, b: nat)
    requires a <= b
    ensures DaysBeforeYear(a) + 365 * (b - a) <= DaysBeforeYear(b)
    decreases b - a
  {
    if a < b {
      DaysBeforeYearMonotone(a, b - 1);
      DaysBeforeNextYear(b - 1);
    }
  }

  lemma {:induction false} DaysBeforeMonthMonotone(y: int, a: int, b: int)
    requires 1 <= a <= b <= 13
    ensures DaysBeforeMonth(y, a) + 28 * (b - a) <= DaysBeforeMonth(y, b)
    decreases b - a
  {
    if a < b {
      DaysBeforeMonthMonotone(y, a, b - 1);
      DaysBeforeNextMonth(y, b - 1);
    }
  }

  /** Days from 0000-01-01 to 1970-01-01, the epoch of `LocalDate.toEpochDay`. */
  const EpochOffset: int := 719528

  /** 0000-01-01, 9999-12-31 and 10000-12-31 as epoch days. */
  const FirstDay: int := -719528
  const LastDay: int := 2932896
  const WindowEnd: int := 2933262

  lemma WindowConstants()
    ensures DaysBeforeYear(0) == 0
    ensures DaysBeforeYear(1970) == EpochOffset
    ensures FirstDay == DaysBeforeYear(0) - EpochOffset
    ensures LastDay == DaysBeforeYear(10000) - EpochOffset - 1
    ensures WindowEnd == DaysBeforeYear(10001) - EpochOffset - 1
  {
    DaysBeforeYearClosed(1970);
    DaysBeforeYearClosed(10000);
    DaysBeforeYearClosed(10001);
  }

  /** A day the model can name in the civil calendar: years 0000 to 10000. */
  type CivilDay = d: int | FirstDay <= d <= WindowEnd

  /** A `LocalDate` of the model: years 0000 to 9999, the dates whose ISO form has no sign. */
  type Date = d: CivilDay | d <= LastDay

  datatype Civil = Civil(year: int, month: int, day: int)

  predicate ValidCivil(c: Civil) {
    0 <= c.year <= 10000 && 1 <= c.month <= 12 && 1 <= c.day <= DaysInMonth(c.year, c.month)
  }

  lemma FromCivilBounds(c: Civil)
    requires ValidCivil(c)
    ensures var k := DaysBeforeYear(c.year) + DaysBeforeMonth(c.year, c.month) + c.day - 1;
      && DaysBeforeYear(c.year) <= k < DaysBeforeYear(c.year + 1)
      && FirstDay <= k - EpochOffset <= WindowEnd
      && (c.year <= 9999 ==> k - EpochOffset <= LastDay)
  {
    WindowConstants();
    DaysBeforeMonthMonotone(c.year, c.month + 1, 13);
    MonthsFillYear(c.year);
    DaysBeforeNextYear(c.year);
    DaysBeforeYearMonotone(0, c.year);
    DaysBeforeYearMonotone(c.year + 1, 10001);
    if c.year <= 9999 {
      DaysBeforeYearMonotone(c.year + 1, 10000);
    }
  }

  /** `LocalDate.of(y, m, d).toEpochDay()`. */
  function FromCivil(c: Civil): (n: CivilDay)
    requires ValidCivil(c)
    ensures c.year <= 9999 ==> n <= LastDay
  {
    FromCivilBounds(c);
    DaysBeforeYear(c.year) + DaysBeforeMonth(c.year, c.month) + c.day - 1 - EpochOffset
  }

  /** The year y' >= y whose days hold the k-th day counted from 0000-01-01. */
  function YearContaining(k: int, y: int): (r: int)
    requires 0 <= y <= 10000 && DaysBeforeYear(y) <= k < DaysBeforeYear(10001)
    ensures y <= r <= 10000 && DaysBeforeYear(r) <= k < DaysBeforeYear(r + 1)
    decreases 10000 - y
  {
    if k < DaysBeforeYear(y + 1) then y
    else
      (if y + 1 > 10000 then DaysBeforeYearMonotone(10001, y + 1); assert false; 0
       else YearContaining(k, y + 1))
  }

  /** The month m' >= m of year y whose days hold day k of that year (counted from 0). */
  function MonthContaining(y: int, k: int, m: int): (r: int)
    requires 1 <= m <= 12 && DaysBeforeMonth(y, m) <= k < DaysBeforeMonth(y, 13)
    ensures m <= r <= 12 && DaysBeforeMonth(y, r) <= k < DaysBeforeMonth(y, r + 1)
    decreases 12 - m
  {
    if k < DaysBeforeMonth(y, m + 1) then m else MonthContaining(y, k, m + 1)
  }

  lemma YearHoldsDay(y: nat, k: int)
    requires DaysBeforeYear(y) <= k < DaysBeforeYear(y + 1)
    ensures 0 <= k - DaysBeforeYear(y) < DaysBeforeMonth(y, 13)
  {
    DaysBeforeNextYear(y);
    MonthsFillYear(y);
  }

  /** Day r of year y (counted from 0), inside month m, as a civil date that maps back to n. */
  lemma CivilOfDay(n: CivilDay, y: int, m: int, r: int)
    requires 0 <= y <= 10000 && 1 <= m <= 12
    requires DaysBeforeYear(y) <= n + EpochOffset && r == n + EpochOffset - DaysBeforeYear(y)
    requires DaysBeforeMonth(y, m) <= r < DaysBeforeMonth(y, m + 1)
    ensures ValidCivil(Civil(y, m, r - DaysBeforeMonth(y, m) + 1))
    ensures FromCivil(Civil(y, m, r - DaysBeforeMonth(y, m) + 1)) == n
    ensures n <= LastDay ==> y <= 9999
  {
    DaysBeforeNextMonth(y, m);
    WindowConstants();
  }

  /** Epoch day n, which falls in year y, split into year, month and day. */
  function CivilInYear(n: CivilDay, y: int): (c: Civil)
    requires 0 <= y <= 10000 && DaysBeforeYear(y) <= n + EpochOffset < DaysBeforeYear(y + 1)
    ensures ValidCivil(c) && FromCivil(c) == n
    ensures n <= LastDay ==> c.year <= 9999
  {
    var r := n + EpochOffset - DaysBeforeYear(y);
    YearHoldsDay(y, n + EpochOffset);
    var m := MonthContaining(y, r, 1);
    CivilOfDay(n, y, m, r);
    Civil(y, m, r - DaysBeforeMonth(y, m) + 1)
  }

  /** `LocalDate.ofEpochDay(n)` split into year, month and day. */
  function ToCivil(n: CivilDay): (c: Civil)
    ensures ValidCivil(c) && FromCivil(c) == n
    ensures n <= LastDay ==> c.year <= 9999
  {
    WindowConstants();
    CivilInYear(n, YearContaining(n + EpochOffset, 0))
  }

  lemma YearUnique(y1: nat, y2: nat, k: int)
    requires DaysBeforeYear(y1) <= k < DaysBeforeYear(y1 + 1)
    requires DaysBeforeYear(y2) <= k < DaysBeforeYear(y2 + 1)
    ensures y1 == y2
  {
    if y1 < y2 {
      DaysBeforeYearMonotone(y1 + 1, y2);
    } else if y2 < y1 {
      DaysBeforeYearMonotone(y2 + 1, y1);
    }
  }

  lemma MonthUnique(y: int, m1: int, m2: int, r: int)
    requires 1 <= m1 <= 12 && 1 <= m2 <= 12
    requires DaysBeforeMonth(y, m1) <= r < DaysBeforeMonth(y, m1 + 1)
    requires DaysBeforeMonth(y, m2) <= r < DaysBeforeMonth(y, m2 + 1)
    ensures m1 == m2
  {
    if m1 < m2 {
      DaysBeforeMonthMonotone(y, m1 + 1, m2);
    } else if m2 < m1 {
      DaysBeforeMonthMonotone(y, m2 + 1, m1);
    }
  }

  /** Within one year, distinct valid dates have distinct day numbers. */
  lemma DayOfYearInjective(c: Civil, c': Civil)
    requires ValidCivil(c) && ValidCivil(c') && c.year == c'.year
    requires DaysBeforeMonth(c.year, c.month) + c.day == DaysBeforeMonth(c.year, c'.month) + c'.day
    ensures c == c'
  {
    var r := DaysBeforeMonth(c.year, c.month) + c.day - 1;
    DaysBeforeNextMonth(c.year, c.month);
    DaysBeforeNextMonth(c.year, c'.month);
    MonthUnique(c.year, c.month, c'.month, r);
  }

  /** A valid date's epoch day falls within its year. */
  lemma FromCivilInYear(c: Civil)
    requires ValidCivil(c)
    ensures DaysBeforeYear(c.year) <= FromCivil(c) + EpochOffset < DaysBeforeYear(c.year + 1)
  {
    FromCivilBounds(c);
  }

  /** Valid dates with the same epoch day are in the same year. */
  lemma FromCivilSameYear(c: Civil, c': Civil)
    requires ValidCivil(c) && ValidCivil(c') && FromCivil(c) == FromCivil(c')
    ensures c.year == c'.year
  {
    var k := FromCivil(c) + EpochOffset;
    FromCivilInYear(c);
    FromCivilInYear(c');
    YearUnique(c.year, c'.year, k);
  }

  /** Distinct valid dates have distinct epoch days. */
  lemma FromCivilInjective(c: Civil, c': Civil)
    requires ValidCivil(c) && ValidCivil(c') && FromCivil(c) == FromCivil(c')
    ensures c == c'
  {
    FromCivilSameYear(c, c');
    DayOfYearInjective(c, c');
  }

  /** So ToCivil undoes FromCivil. */
  lemma ToCivilOfFromCivil(c: Civil)
    requires ValidCivil(c)
    ensures ToCivil(FromCivil(c)) == c
  {
    FromCivilInjective(c, ToCivil(FromCivil(c)));
  }

  /** `LocalDate.getDayOfWeek`: 1970-01-01, epoch day 0, was a Thursday. */
  function WeekdayOf(d: CivilDay): Weekday {
    WeekdayOfValue((d + 3) % 7 + 1)
  }

  lemma WeekdayOfNextDay(d: CivilDay)
    requires d < WindowEnd
    ensures WeekdayValue(WeekdayOf(d + 1)) == WeekdayValue(WeekdayOf(d)) % 7 + 1
  {
  }

  lemma EpochIsThursday()
    ensures WeekdayOf(FromCivil(Civil(1970, 1, 1))) == Thursday
  {
    WindowConstants();
  }

  lemma NewYear2024IsMonday()
    ensures WeekdayOf(FromCivil(Civil(2024, 1, 1))) == Monday
  {
    DaysBeforeYearClosed(2024);
    assert FromCivil(Civil(2024, 1, 1)) == 19723;
  }

  /** `YearMonth.from(date)`. */
  datatype YearMonth = YearMonth(year: int, month: int)

  function YearMonthOf(d: CivilDay): (ym: YearMonth)
    ensures 0 <= ym.year <= 10000 && 1 <= ym.month <= 12
  {
    var c := ToCivil(d);
    YearMonth(c.year, c.month)
  }

  // ------------------------------------------------------------- ISO dates

  /** `LocalDate.toString`: `YYYY-MM-DD`. */
  function FormatIsoDate(d: Date): (s: string)
    ensures |s| == 10 && s[4] == '-' && s[7] == '-'
  {
    var c := ToCivil(d);
    var s := Decimal(c.year, 4) + "-" + Decimal(c.month, 2) + "-" + Decimal(c.day, 2);
    DashedFields(s, Decimal(c.year, 4), Decimal(c.month, 2), Decimal(c.day, 2));
    s
  }

  /** The three fields of a `YYYY-MM-DD` text and where they sit. */
  lemma DashedFields(s: string, y: string, m: string, d: string)
    requires |y| == 4 && |m| == 2 && |d| == 2
    requires s == y + "-" + m + "-" + d
    ensures |s| == 10 && s[4] == '-' && s[7] == '-'
    ensures s[..4] == y && s[5..7] == m && s[8..] == d
  {
  }

  /**
   * `LocalDate.parse` (ISO_LOCAL_DATE, strict): four year digits, two month
   * digits, two day digits, and a day that exists. None where Java throws.
   */
  function ParseIsoDate(s: string): (r: Option<Date>)
    ensures r.Some? ==> |s| == 10
  {
    if |s| == 10 && s[4] == '-' && s[7] == '-'
       && AllDigits(s[..4]) && AllDigits(s[5..7]) && AllDigits(s[8..])
    then
      var c := Civil(DigitsValue(s[..4]), DigitsValue(s[5..7]), DigitsValue(s[8..]));
      if ValidCivil(c) then Some(FromCivil(c) as Date) else None
    else None
  }

  lemma ParseFormatIsoDate(d: Date)
    ensures ParseIsoDate(FormatIsoDate(d)) == Some(d)
  {
    var c := ToCivil(d);
    DashedFields(FormatIsoDate(d), Decimal(c.year, 4), Decimal(c.month, 2), Decimal(c.day, 2));
  }

  /** Only the canonical text of a date parses to it. */
  lemma FormatParseIsoDate(s: string)
    requires ParseIsoDate(s).Some?
    ensures FormatIsoDate(ParseIsoDate(s).value) == s
  {
    var y, m, dd := s[..4], s[5..7], s[8..];
    var c := Civil(DigitsValue(y), DigitsValue(m), DigitsValue(dd));
    ToCivilOfFromCivil(c);
    DecimalOfDigits(y);
    DecimalOfDigits(m);
    DecimalOfDigits(dd);
    DashedSplit(s);
    assert FormatIsoDate(FromCivil(c) as Date) == y + "-" + m + "-" + dd;
  }

  /** A text with dashes at 4 and 7 is its three fields joined by dashes. */
  lemma DashedSplit(s: string)
    requires |s| == 10 && s[4] == '-' && s[7] == '-'
    ensures s == s[..4] + "-" + s[5..7] + "-" + s[8..]
  {
  }

  lemma FormatIsoDateInjective(d: Date, e: Date)
    requires FormatIsoDate(d) == FormatIsoDate(e)
    ensures d == e
  {
    ParseFormatIsoDate(d);
    ParseFormatIsoDate(e);
  }

  // --------------------------------------------------------- times of day

  /** `LocalTime` to the second: seconds since midnight. */
  type Time = t: int | 0 <= t < 86400

  function TimeOf(h: int, m: int, s: int): (t: Time)
    requires 0 <= h < 24 && 0 <= m < 60 && 0 <= s < 60
  {
    h * 3600 + m * 60 + s
  }

  function Hour(t: Time): (h: int) ensures 0 <= h < 24 { t / 3600 }
  function Minute(t: Time): (m: int) ensures 0 <= m < 60 { t / 60 % 60 }
  function Second(t: Time): (s: int) ensures 0 <= s < 60 { t % 60 }

  lemma PartsOfTime(h: int, m: int, s: int)
    requires 0 <= h < 24 && 0 <= m < 60 && 0 <= s < 60
    ensures Hour(TimeOf(h, m, s)) == h && Minute(TimeOf(h, m, s)) == m && Second(TimeOf(h, m, s)) == s
  {
    var t := TimeOf(h, m, s);
    assert t == (h * 60 + m) * 60 + s;
    assert t / 60 == h * 60 + m;
    assert t / 3600 == h;
  }

  lemma TimeOfParts(t: Time)
    ensures TimeOf(Hour(t), Minute(t), Second(t)) == t
  {
  }

  /** `LocalTime.toString` for whole seconds: `HH:MM`, then `:SS` when the seconds are not zero. */
  function FormatTime(t: Time): (s: string)
    ensures |s| == 5 || |s| == 8
    ensures |s| == 5 <==> Second(t) == 0
  {
    var hm := Decimal(Hour(t), 2) + ":" + Decimal(Minute(t), 2);
    if Second(t) == 0 then hm else hm + ":" + Decimal(Second(t), 2)
  }

  /** `LocalTime.parse` (ISO_LOCAL_TIME) on `HH:MM` and `HH:MM:SS`; None where Java throws. */
  function ParseTime(s: string): (r: Option<Time>)
    ensures r.Some? ==> (|s| == 5 || |s| == 8) && s[2] == ':' && AllDigits(s[..2]) && AllDigits(s[3..5])
    ensures r.Some? ==> Hour(r.value) == DigitsValue(s[..2]) && Minute(r.value) == DigitsValue(s[3..5])
    ensures r.Some? && |s| == 5 ==> Second(r.value) == 0
    ensures r.Some? && |s| == 8 ==> s[5] == ':' && AllDigits(s[6..]) && Second(r.value) == DigitsValue(s[6..])
  {
    if (|s| == 5 || (|s| == 8 && s[5] == ':' && AllDigits(s[6..])))
       && s[2] == ':' && AllDigits(s[..2]) && AllDigits(s[3..5])
    then
      var h := DigitsValue(s[..2]);
      var m := DigitsValue(s[3..5]);
      var sec := if |s| == 8 then DigitsValue(s[6..]) else 0;
      if h < 24 && m < 60 && sec < 60 then
        PartsOfTime(h, m, sec);
        Some(TimeOf(h, m, sec))
      else None
    else None
  }

  lemma ParseFormatTime(t: Time)
    ensures ParseTime(FormatTime(t)) == Some(t)
  {
    var s := FormatTime(t);
    assert s[..2] == Decimal(Hour(t), 2);
    assert s[3..5] == Decimal(Minute(t), 2);
    if Second(t) != 0 {
      assert s[6..] == Decimal(Second(t), 2);
    }
    TimeOfParts(t);
  }

  /** `LocalDateTime`, to the second. */
  datatype DateTime = DateTime(day: CivilDay, time: Time)
}
