/**
 * Calendar arithmetic on `YYYY-MM-DD` strings: the well-formedness check, strict date
 * comparisons, whole years between two dates (holding and residence periods) and days between
 * two dates.
 *
 * A string is turned into a date the way the JavaScript engine the service runs on (V8) turns it
 * into a `Date`: it must be four digits, '-', two digits, '-', two digits, with a month from 1 to
 * 12 and a day from 1 to 31; a day past the end of its month rolls over into the next month
 * (2024-02-30 is 1 March 2024). Anything else is an invalid date (`NaN`), modelled as `None`;
 * every comparison with `NaN` is false.
 */
module DateUtils {
  import opened Wrappers

  /** A date as calendar fields: year, month (1..12) and day of month. */
  datatype Date = Date(year: int, month: int, day: int)

  // ---------------------------------------------------------------------------
  // Parsing

  predicate IsDigit(c: char) {
    '0' <= c <= '9'
  }

  function DigitValue(c: char): int
    requires IsDigit(c)
  {
    c as int - '0' as int
  }

  /** `s` matches the pattern four digits, '-', two digits, '-', two digits, and nothing else. */
  predicate HasDateShape(s: string) {
    && |s| == 10
    && s[4] == '-' && s[7] == '-'
    && IsDigit(s[0]) && IsDigit(s[1]) && IsDigit(s[2]) && IsDigit(s[3])
    && IsDigit(s[5]) && IsDigit(s[6]) && IsDigit(s[8]) && IsDigit(s[9])
  }

  /** The year, month and day written in a string of date shape, before any rollover. */
  function WrittenFields(s: string): Date
    requires HasDateShape(s)
  {
    Date(
      1000 * DigitValue(s[0]) + 100 * DigitValue(s[1]) + 10 * DigitValue(s[2]) + DigitValue(s[3]),
      10 * DigitValue(s[5]) + DigitValue(s[6]),
      10 * DigitValue(s[8]) + DigitValue(s[9]))
  }

  /** The engine accepts any month 1..12 with any day 1..31. */
  predicate EngineAccepts(d: Date) {
    1 <= d.month <= 12 && 1 <= d.day <= 31
  }

  /** `isValidDateFormat`: the shape matches and the engine yields a date (not `NaN`). */
  predicate IsValidDateFormat(dateString: string) {
    HasDateShape(dateString) && EngineAccepts(WrittenFields(dateString))
  }

  predicate IsLeapYear(y: int) {
    y % 4 == 0 && (y % 100 != 0 || y % 400 == 0)
  }

  function DaysInMonth(y: int, m: int): int
    requires 1 <= m <= 12
  {
    if m == 2 then (if IsLeapYear(y) then 29 else 28)
    else if m == 4 || m == 6 || m == 9 || m == 11 then 30
    else 31
  }

  predicate IsCalendarDate(d: Date) {
    1 <= d.month <= 12 && 1 <= d.day <= DaysInMonth(d.year, d.month)
  }

  /** The engine's rollover: a day past the end of its month moves into the following month. */
  function Normalize(d: Date): (n: Date)
    requires EngineAccepts(d)
    ensures IsCalendarDate(n) && n.year == d.year
    ensures IsCalendarDate(d) ==> n == d
    ensures !IsCalendarDate(d) ==> n.month == d.month + 1 && 1 <= n.day <= 3
  {
    if d.day <= DaysInMonth(d.year, d.month) then d
    else Date(d.year, d.month + 1, d.day - DaysInMonth(d.year, d.month))
  }

  /** `new Date(s)` for the strings the service handles: a calendar date, or `None` for `NaN`. */
  function ParseDate(s: string): (r: Option<Date>)
    ensures r.Some? <==> IsValidDateFormat(s)
    ensures r.Some? ==> IsCalendarDate(r.value) && 0 <= r.value.year <= 9999
  {
    if IsValidDateFormat(s) then Some(Normalize(WrittenFields(s))) else None
  }

  // ---------------------------------------------------------------------------
  // Rendering, the inverse of parsing

  function DigitChar(n: int): (c: char)
    requires 0 <= n < 10
    ensures IsDigit(c) && DigitValue(c) == n
  {
    (n + '0' as int) as char
  }

  /** The zero-padded `YYYY-MM-DD` rendering of a date with a four-digit year. */
  function FormatDate(d: Date): (s: string)
    requires 0 <= d.year <= 9999 && 0 <= d.month < 100 && 0 <= d.day < 100
    ensures |s| == 10
  {
    var tens := d.year / 10;
    var hundreds := tens / 10;
    [DigitChar(hundreds / 10), DigitChar(hundreds % 10), DigitChar(tens % 10), DigitChar(d.year % 10),
     '-', DigitChar(d.month / 10), DigitChar(d.month % 10),
     '-', DigitChar(d.day / 10), DigitChar(d.day % 10)]
  }

  /** Every date with a four-digit year, month 1..12 and day 1..31 renders to a valid date string that reads back as the same fields. */
  lemma FormatThenRead(d: Date)
    requires 0 <= d.year <= 9999 && EngineAccepts(d)
    ensures IsValidDateFormat(FormatDate(d)) && WrittenFields(FormatDate(d)) == d
  {
    var s := FormatDate(d);
    var tens := d.year / 10;
    var hundreds := tens / 10;
    assert d.year == 10 * tens + d.year % 10;
    assert tens == 10 * hundreds + tens % 10;
    assert hundreds == 10 * (hundreds / 10) + hundreds % 10;
    assert HasDateShape(s);
  }

  /** The rendering of a calendar date reads back as that date. */
  lemma ParsesAs(s: string, d: Date)
    requires 0 <= d.year <= 9999 && IsCalendarDate(d) && s == FormatDate(d)
    ensures ParseDate(s) == Some(d)
  {
    FormatThenRead(d);
  }

  /** Every valid date string is the rendering of the fields written in it: the format check accepts exactly those renderings. */
  lemma ReadThenFormat(s: string)
    requires IsValidDateFormat(s)
    ensures FormatDate(WrittenFields(s)) == s
  {
    var d := WrittenFields(s);
    var y0, y1, y2, y3 := DigitValue(s[0]), DigitValue(s[1]), DigitValue(s[2]), DigitValue(s[3]);
    LastDigit(100 * y0 + 10 * y1 + y2, y3);
    LastDigit(10 * y0 + y1, y2);
    LastDigit(y0, y1);
    LastDigit(DigitValue(s[5]), DigitValue(s[6]));
    LastDigit(DigitValue(s[8]), DigitValue(s[9]));
    var t := FormatDate(d);
    forall i | 0 <= i < 10 ensures t[i] == s[i] {
      if i != 4 && i != 7 {
        DigitCharOfValue(s[i]);
      }
    }
  }

  /** Splitting off the last decimal digit. */
  lemma LastDigit(q: int, r: int)
    requires q >= 0 && 0 <= r < 10
    ensures (10 * q + r) / 10 == q && (10 * q + r) % 10 == r
  {
  }

  lemma DigitCharOfValue(c: char)
    requires IsDigit(c)
    ensures DigitChar(DigitValue(c)) == c
  {
  }

  // ---------------------------------------------------------------------------
  // Comparisons

  /** Strict chronological order on calendar fields. */
  predicate Before(a: Date, b: Date) {
    a.year < b.year || (a.year == b.year && (a.month < b.month || (a.month == b.month && a.day < b.day)))
  }

  predicate AtOrBefore(a: Date, b: Date) {
    a == b || Before(a, b)
  }

  /** `isDateBefore`: both strings are dates and the first is strictly earlier. */
  predicate IsDateBefore(date1: string, date2: string) {
    var d1, d2 := ParseDate(date1), ParseDate(date2);
    d1.Some? && d2.Some? && Before(d1.value, d2.value)
  }

  /** `isDateAfter`: both strings are dates and the first is strictly later. */
  predicate IsDateAfter(date1: string, date2: string) {
    var d1, d2 := ParseDate(date1), ParseDate(date2);
    d1.Some? && d2.Some? && Before(d2.value, d1.value)
  }

  /** `isAcquiredAfter`: the acquisition is strictly after the reference date. */
  predicate IsAcquiredAfter(acquisitionDate: string, referenceDate: string) {
    IsDateAfter(acquisitionDate, referenceDate)
  }

  /** `isTransferredWithinPeriod`: the transfer lies strictly between the two dates. */
  predicate IsTransferredWithinPeriod(transferDate: string, startDate: string, endDate: string) {
    IsDateAfter(transferDate, startDate) && IsDateBefore(transferDate, endDate)
  }

  /** `isDateBefore` is a strict order: irreflexive (false on equal dates), asymmetric and transitive. */
  lemma DateBeforeIsStrictOrder(a: string, b: string, c: string)
    ensures !IsDateBefore(a, a)
    ensures IsDateBefore(a, b) ==> !IsDateBefore(b, a)
    ensures IsDateBefore(a, b) && IsDateBefore(b, c) ==> IsDateBefore(a, c)
    ensures IsValidDateFormat(a) && IsValidDateFormat(b) ==>
      (IsDateBefore(a, b) || IsDateBefore(b, a) || ParseDate(a) == ParseDate(b))
  {
  }

  /** `isDateAfter` is the converse of `isDateBefore`, and `isAcquiredAfter` is `isDateAfter`. */
  lemma DateAfterIsConverse(a: string, b: string)
    ensures IsDateAfter(a, b) == IsDateBefore(b, a)
    ensures IsAcquiredAfter(a, b) == IsDateBefore(b, a)
  {
  }

  /** A transfer on either end date is not within the period: both ends are excluded. */
  lemma WithinPeriodExcludesEnds(transferDate: string, startDate: string, endDate: string)
    ensures IsTransferredWithinPeriod(transferDate, startDate, endDate) <==>
      IsDateBefore(startDate, transferDate) && IsDateBefore(transferDate, endDate)
    ensures !IsTransferredWithinPeriod(startDate, startDate, endDate)
    ensures !IsTransferredWithinPeriod(endDate, startDate, endDate)
  {
  }

  // ---------------------------------------------------------------------------
  // Whole years between two dates

  /** Year difference, one less when the end's month and day come before the start's; 0 for equal dates, never negative. */
  function YearsBetweenDates(start: Date, end: Date): nat {
    var years := end.year - start.year;
    var whole := if end.month < start.month || (end.month == start.month && end.day < start.day) then years - 1 else years;
    if start == end then 0 else if whole < 0 then 0 else whole
  }

  /** `calculateYearsBetween`: whole years between two date strings, or `None` (`NaN`) if either is not a date. */
  function CalculateYearsBetween(startDate: string, endDate: string): (r: Option<nat>)
    ensures r.Some? <==> IsValidDateFormat(startDate) && IsValidDateFormat(endDate)
    ensures startDate == endDate && IsValidDateFormat(startDate) ==> r == Some(0)
  {
    var start, end := ParseDate(startDate), ParseDate(endDate);
    if start.Some? && end.Some? then Some(YearsBetweenDates(start.value, end.value)) else None
  }

  /** `calculateHoldingPeriodYears`: the floor of the whole years, which are already whole. */
  function CalculateHoldingPeriodYears(acquisitionDate: string, transferDate: string): Option<nat> {
    CalculateYearsBetween(acquisitionDate, transferDate)
  }

  /** `calculateResidencePeriodYears`: the whole years between the two dates. */
  function CalculateResidencePeriodYears(residenceStart: string, residenceEnd: string): Option<nat> {
    CalculateYearsBetween(residenceStart, residenceEnd)
  }

  /** The same date shifted by `n` years, field by field (29 February is kept as written). */
  function Anniversary(d: Date, n: int): Date {
    Date(d.year + n, d.month, d.day)
  }

  /**
   * The whole years between two ordered dates are the number of anniversaries of the start
   * reached by the end: the n-th anniversary is on or before the end, the (n+1)-th after it.
   * An end before the start gives 0.
   */
  lemma YearsBetweenCountsAnniversaries(start: Date, end: Date)
    ensures AtOrBefore(start, end) ==>
      && AtOrBefore(Anniversary(start, YearsBetweenDates(start, end)), end)
      && Before(end, Anniversary(start, YearsBetweenDates(start, end) + 1))
    ensures Before(end, start) ==> YearsBetweenDates(start, end) == 0
  {
  }

  /** Any count of anniversaries that brackets the end as above is the whole years between the dates. */
  lemma AnniversaryCountIsUnique(start: Date, end: Date, n: nat)
    requires AtOrBefore(Anniversary(start, n), end) && Before(end, Anniversary(start, n + 1))
    ensures YearsBetweenDates(start, end) == n
  {
  }

  /** A later end never gives fewer whole years. */
  lemma YearsBetweenMonotone(start: Date, end1: Date, end2: Date)
    requires AtOrBefore(end1, end2)
    ensures YearsBetweenDates(start, end1) <= YearsBetweenDates(start, end2)
  {
  }

  /** Values from the unit tests, including a 29 February anchor. */
  lemma YearsBetweenExamples()
    ensures CalculateYearsBetween("2020-01-01", "2023-01-01") == Some(3)
    ensures CalculateYearsBetween("2020-01-01", "2022-12-31") == Some(2)
    ensures CalculateYearsBetween("2020-02-29", "2024-02-29") == Some(4)
    ensures CalculateYearsBetween("2020-01-01", "2020-01-01") == Some(0)
  {
    ParsesAs("2020-01-01", Date(2020, 1, 1));
    ParsesAs("2023-01-01", Date(2023, 1, 1));
    ParsesAs("2022-12-31", Date(2022, 12, 31));
    ParsesAs("2020-02-29", Date(2020, 2, 29));
    ParsesAs("2024-02-29", Date(2024, 2, 29));
  }

  /** Holding-period values from the unit tests. */
  lemma HoldingPeriodExamples()
    ensures CalculateHoldingPeriodYears("2017-01-01", "2024-01-01") == Some(7)
    ensures CalculateHoldingPeriodYears("2017-01-01", "2023-12-31") == Some(6)
  {
    ParsesAs("2017-01-01", Date(2017, 1, 1));
    ParsesAs("2024-01-01", Date(2024, 1, 1));
    ParsesAs("2023-12-31", Date(2023, 12, 31));
  }

  /** A holding that starts mid-year counts only the anniversaries reached. */
  lemma HoldingPeriodMidYearExample()
    ensures CalculateHoldingPeriodYears("2017-06-15", "2024-01-01") == Some(6)
  {
    ParsesAs("2024-01-01", Date(2024, 1, 1));
    ParsesAs("2017-06-15", Date(2017, 6, 15));
  }

  /** Values from the unit tests of the format check. */
  lemma DateFormatExamples()
    ensures IsValidDateFormat("2024-01-01") && IsValidDateFormat("2024-12-31")
    ensures !IsValidDateFormat("2024-1-1") && !IsValidDateFormat("24-01-01")
    ensures !IsValidDateFormat("2024-13-01") && !IsValidDateFormat("invalid-date")
  {
    ParsesAs("2024-01-01", Date(2024, 1, 1));
    ParsesAs("2024-12-31", Date(2024, 12, 31));
    assert WrittenFields("2024-13-01").month == 13;
  }

  /** Values from the unit tests of `isDateBefore`: strictly earlier only. */
  lemma DateOrderExamples()
    ensures IsDateBefore("2020-01-01", "2020-01-02")
    ensures !IsDateBefore("2020-01-02", "2020-01-01") && !IsDateBefore("2020-01-01", "2020-01-01")
  {
    ParsesAs("2020-01-01", Date(2020, 1, 1));
    ParsesAs("2020-01-02", Date(2020, 1, 2));
  }

  // ---------------------------------------------------------------------------
  // Days between two dates

  /** Leap years among the years 0 .. y-1 of the proleptic Gregorian calendar. */
  function LeapYearsBefore(y: nat): nat {
    if y == 0 then 0 else (y - 1) / 4 - (y - 1) / 100 + (y - 1) / 400 + 1
  }

  /** Days of the year before the first of month `m`. */
  function DaysBeforeMonth(y: int, m: int): int
    requires 1 <= m <= 12
  {
    var common := [0, 31, 59, 90, 120, 151, 181, 212, 243, 273, 304, 334][m - 1];
    if m > 2 && IsLeapYear(y) then common + 1 else common
  }

  /** Days from 1 January of year 0 to the date; past-the-end days count on into the next month. */
  function DayNumber(d: Date): int
    requires 0 <= d.year && 1 <= d.month <= 12
  {
    365 * d.year + LeapYearsBefore(d.year) + DaysBeforeMonth(d.year, d.month) + d.day - 1
  }

  /** `calculateDaysBetween`: the absolute number of days between two date strings, `None` (`NaN`) if either is not a date. */
  function CalculateDaysBetween(date1: string, date2: string): (r: Option<nat>)
    ensures r.Some? <==> IsValidDateFormat(date1) && IsValidDateFormat(date2)
  {
    var d1, d2 := ParseDate(date1), ParseDate(date2);
    if d1.Some? && d2.Some? then
      var diff := DayNumber(d2.value) - DayNumber(d1.value);
      Some(if diff < 0 then -diff else diff)
    else None
  }

  lemma LeapYearsStep(y: nat)
    ensures LeapYearsBefore(y + 1) == LeapYearsBefore(y) + (if IsLeapYear(y) then 1 else 0)
  {
    var a4 := MultiplesStep(y, 4);
    var a100 := MultiplesStep(y, 100);
    var a400 := MultiplesStep(y, 400);
    if y > 0 {
      assert LeapYearsBefore(y + 1) == LeapYearsBefore(y) + a4 - a100 + a400;
    }
    DivisibilityChain(y);
  }

  /** Going from `y - 1` to `y` adds one multiple of `k` exactly when `k` divides `y`. */
  lemma MultiplesStep(y: nat, k: int) returns (added: int)
    requires k > 0
    ensures added == if y % k == 0 then 1 else 0
    ensures y > 0 ==> y / k - (y - 1) / k == added
  {
    added := if y % k == 0 then 1 else 0;
    if y > 0 {
      var q, r := (y - 1) / k, (y - 1) % k;
      if r == k - 1 {
        assert y == k * (q + 1);
        DivisionOf(y, k, q + 1, 0);
      } else {
        assert y == k * q + (r + 1);
        DivisionOf(y, k, q, r + 1);
      }
    }
  }

  /** Quotient and remainder are unique. */
  lemma DivisionOf(n: int, k: int, q: int, r: int)
    requires k > 0 && 0 <= r < k && n == k * q + r
    ensures n / k == q && n % k == r
  {
    var q', r' := n / k, n % k;
    assert n == k * q' + r';
    var d := q - q';
    assert k * q - k * q' == r' - r;
    assert k * d == r' - r;
    if d >= 1 {
      ProductAtLeast(k, d);
    } else if d <= -1 {
      ProductAtLeast(k, -d);
    }
    assert d == 0;
  }

  lemma ProductAtLeast(k: int, d: int)
    requires k > 0 && d >= 1
    ensures k * d >= k
  {
    var e := d - 1;
    assert k * d == k * e + k;
    assert k * e >= 0;
  }

  /** Multiples of 400 are multiples of 100, which are multiples of 4. */
  lemma DivisibilityChain(y: nat)
    ensures y % 400 == 0 ==> y % 100 == 0
    ensures y % 100 == 0 ==> y % 4 == 0
  {
    if y % 400 == 0 {
      var k := y / 400;
      assert y == 100 * (4 * k);
    }
    if y % 100 == 0 {
      var k := y / 100;
      assert y == 4 * (25 * k);
    }
  }

  /** The first day of a later year has a larger day number than any day of an earlier year. */
  lemma {:induction false} YearStartsIncrease(y1: nat, y2: nat)
    requires y1 < y2
    ensures 365 * y1 + LeapYearsBefore(y1) + 365 + (if IsLeapYear(y1) then 1 else 0) <= 365 * y2 + LeapYearsBefore(y2)
    decreases y2 - y1
  {
    LeapYearsStep(y1);
    if y1 + 1 < y2 {
      YearStartsIncrease(y1 + 1, y2);
      LeapYearsStep(y1 + 1);
    }
  }

  /** Day numbers follow the calendar order strictly. */
  lemma DayNumberIncreases(a: Date, b: Date)
    requires IsCalendarDate(a) && IsCalendarDate(b) && 0 <= a.year && 0 <= b.year
    requires Before(a, b)
    ensures DayNumber(a) < DayNumber(b)
  {
    assert DaysBeforeMonth(a.year, a.month) + DaysInMonth(a.year, a.month) <= 365 + (if IsLeapYear(a.year) then 1 else 0);
    if a.year < b.year {
      YearStartsIncrease(a.year, b.year);
    } else if a.month < b.month {
      assert DaysBeforeMonth(a.year, a.month) + DaysInMonth(a.year, a.month) <= DaysBeforeMonth(b.year, b.month);
    }
  }

  /** The days between two dates do not depend on their order, and are zero exactly for the same day. */
  lemma DaysBetweenSymmetricAndZeroOnSameDay(date1: string, date2: string)
    ensures CalculateDaysBetween(date1, date2) == CalculateDaysBetween(date2, date1)
    ensures IsValidDateFormat(date1) && IsValidDateFormat(date2) ==>
      (CalculateDaysBetween(date1, date2) == Some(0) <==> ParseDate(date1) == ParseDate(date2))
  {
    var d1, d2 := ParseDate(date1), ParseDate(date2);
    if d1.Some? && d2.Some? && d1 != d2 {
      if Before(d1.value, d2.value) {
        DayNumberIncreases(d1.value, d2.value);
      } else {
        DayNumberIncreases(d2.value, d1.value);
      }
    }
  }

  /** A day written past the end of its month counts on from that month's last day, as the rollover says. */
  lemma RolloverContinuesTheCount(s: string)
    requires IsValidDateFormat(s) && !IsCalendarDate(WrittenFields(s))
    ensures DayNumber(ParseDate(s).value) == DayNumber(WrittenFields(s))
  {
  }

  /** A leap year has 366 days, a common year 365. */
  lemma DaysBetweenExamples()
    ensures CalculateDaysBetween("2020-01-01", "2021-01-01") == Some(366)
    ensures CalculateDaysBetween("2021-01-01", "2022-01-01") == Some(365)
  {
    ParsesAs("2020-01-01", Date(2020, 1, 1));
    ParsesAs("2021-01-01", Date(2021, 1, 1));
    ParsesAs("2022-01-01", Date(2022, 1, 1));
  }

  /** The order of the two dates does not matter. */
  lemma DaysBetweenEitherOrderExample()
    ensures CalculateDaysBetween("2024-03-01", "2024-02-28") == Some(2)
  {
    ParsesAs("2024-03-01", Date(2024, 3, 1));
    ParsesAs("2024-02-28", Date(2024, 2, 28));
  }

  /** 30 February 2024 rolls over to 1 March 2024, so the two are no days apart. */
  lemma DaysBetweenRolloverExample()
    ensures ParseDate("2024-02-30") == Some(Date(2024, 3, 1))
    ensures CalculateDaysBetween("2024-02-30", "2024-03-01") == Some(0)
  {
    ParsesAs("2024-03-01", Date(2024, 3, 1));
  }

  // ---------------------------------------------------------------------------
  // String order

  /** JavaScript's `<` on strings: the first differing character decides, a proper prefix comes first. */
  predicate StringLess(a: string, b: string) {
    StringLessFrom(a, b, 0)
  }

  predicate StringLessFrom(a: string, b: string, i: nat)
    decreases |a| - i
  {
    if i >= |a| then i < |b|
    else if i >= |b| then false
    else if a[i] < b[i] then true
    else a[i] == b[i] && StringLessFrom(a, b, i + 1)
  }

  function TwoDigits(s: string, i: nat): int
    requires i + 1 < |s| && IsDigit(s[i]) && IsDigit(s[i + 1])
  {
    10 * DigitValue(s[i]) + DigitValue(s[i + 1])
  }

  /** Two digits at the same place compare as the number they write, then the rest decides. */
  lemma TwoDigitStep(a: string, b: string, i: nat)
    requires i + 1 < |a| && i + 1 < |b|
    requires IsDigit(a[i]) && IsDigit(a[i + 1]) && IsDigit(b[i]) && IsDigit(b[i + 1])
    ensures StringLessFrom(a, b, i) <==>
      TwoDigits(a, i) < TwoDigits(b, i) || (TwoDigits(a, i) == TwoDigits(b, i) && StringLessFrom(a, b, i + 2))
  {
    assert StringLessFrom(a, b, i + 1) ==
      (a[i + 1] < b[i + 1] || (a[i + 1] == b[i + 1] && StringLessFrom(a, b, i + 2)));
    if TwoDigits(a, i) == TwoDigits(b, i) {
      assert a[i] == b[i] && a[i + 1] == b[i + 1];
    }
  }

  /** On valid date strings, string order is the order of the written fields. */
  lemma StringOrderIsFieldOrder(a: string, b: string)
    requires IsValidDateFormat(a) && IsValidDateFormat(b)
    ensures StringLess(a, b) <==> Before(WrittenFields(a), WrittenFields(b))
  {
    StringOrderByPairs(a, b);
    var a0, a2, a5, a8 := TwoDigits(a, 0), TwoDigits(a, 2), TwoDigits(a, 5), TwoDigits(a, 8);
    var b0, b2, b5, b8 := TwoDigits(b, 0), TwoDigits(b, 2), TwoDigits(b, 5), TwoDigits(b, 8);
    assert WrittenFields(a) == Date(100 * a0 + a2, a5, a8);
    assert WrittenFields(b) == Date(100 * b0 + b2, b5, b8);
    PairOrderIsDateOrder(a0, a2, a5, a8, b0, b2, b5, b8);
  }

  /** Date-shaped strings compare pair of digits by pair of digits. */
  lemma StringOrderByPairs(a: string, b: string)
    requires HasDateShape(a) && HasDateShape(b)
    ensures StringLess(a, b) <==>
      LexLess(TwoDigits(a, 0), TwoDigits(a, 2), TwoDigits(a, 5), TwoDigits(a, 8),
              TwoDigits(b, 0), TwoDigits(b, 2), TwoDigits(b, 5), TwoDigits(b, 8))
  {
    assert !StringLessFrom(a, b, 10);
    TwoDigitStep(a, b, 8);
    assert StringLessFrom(a, b, 7) == StringLessFrom(a, b, 8);
    TwoDigitStep(a, b, 5);
    assert StringLessFrom(a, b, 4) == StringLessFrom(a, b, 5);
    TwoDigitStep(a, b, 2);
    TwoDigitStep(a, b, 0);
  }

  /** Lexicographic order on four numbers. */
  predicate LexLess(a0: int, a2: int, a5: int, a8: int, b0: int, b2: int, b5: int, b8: int) {
    a0 < b0 || (a0 == b0 && (a2 < b2 || (a2 == b2 && (a5 < b5 || (a5 == b5 && a8 < b8)))))
  }

  lemma PairOrderIsDateOrder(a0: int, a2: int, a5: int, a8: int, b0: int, b2: int, b5: int, b8: int)
    requires 0 <= a2 < 100 && 0 <= b2 < 100
    ensures LexLess(a0, a2, a5, a8, b0, b2, b5, b8) <==> Before(Date(100 * a0 + a2, a5, a8), Date(100 * b0 + b2, b5, b8))
  {
    assert 100 * a0 + a2 < 100 * b0 + b2 <==> a0 < b0 || (a0 == b0 && a2 < b2);
  }

  /**
   * For strings that name real calendar days (no rollover), comparing the strings is comparing
   * the dates.
   */
  lemma StringOrderIsDateOrder(a: string, b: string)
    requires IsValidDateFormat(a) && IsValidDateFormat(b)
    ensures IsCalendarDate(WrittenFields(a)) && IsCalendarDate(WrittenFields(b)) ==>
      (StringLess(a, b) <==> IsDateBefore(a, b))
  {
    StringOrderIsFieldOrder(a, b);
  }
}
