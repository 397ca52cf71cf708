/**
  The proleptic Gregorian calendar as Python's `datetime` computes it: the
  ordinal of a date (1 January of year 1 is day 1, `date.toordinal()`), the
  date a whole number of days after 1 January of a year (`start +
  timedelta(days=n)`), and the calendar-date form YYYY-MM-DD of ISO 8601:2004
  section 4.1.2.2 (extended format) that `strftime("%Y-%m-%d")` prints.
*/
module Calendar {
  import opened Wrappers
  import opened Text

  datatype Date = Date(year: int, month: int, day: int)

  /** `datetime.MINYEAR` and `datetime.MAXYEAR`. */
  const MinYear := 1
  const MaxYear := 9999

  predicate IsLeapYear(y: int)
  {
    y % 4 == 0 && (y % 100 != 0 || y % 400 == 0)
  }

  function DaysInYear(y: int): int
  {
    if IsLeapYear(y) then 366 else 365
  }

  function DaysInMonth(y: int, m: int): int
    requires 1 <= m <= 12
  {
    if m == 2 then (if IsLeapYear(y) then 29 else 28)
    else if m == 4 || m == 6 || m == 9 || m == 11 then 30
    else 31
  }

  /** A month and day that exist in the year (the year itself unbounded). */
  predicate IsCalendarDate(d: Date)
  {
    1 <= d.month <= 12 && 1 <= d.day <= DaysInMonth(d.year, d.month)
  }

  /** A date `datetime` can represent. */
  predicate ValidDate(d: Date)
  {
    MinYear <= d.year <= MaxYear && IsCalendarDate(d)
  }

  /** Days in the years before y (`_days_before_year`; floor and Euclidean division agree for positive divisors). */
  function DaysBeforeYear(y: int): int
  {
    var p := y - 1;
    365 * p + p / 4 - p / 100 + p / 400
  }

  /** `_DAYS_BEFORE_MONTH`: days before each month of a common year (index 0 unused). */
  const DaysBeforeMonthCommon: seq<int> := [-1, 0, 31, 59, 90, 120, 151, 181, 212, 243, 273, 304, 334]

  /** Days in the months of year y before month m (`_days_before_month`); m = 13 covers the whole year. */
  function DaysBeforeMonth(y: int, m: int): int
    requires 1 <= m <= 13
  {
    if m == 13 then DaysInYear(y)
    else DaysBeforeMonthCommon[m] + (if m > 2 && IsLeapYear(y) then 1 else 0)
  }

  /** `date.toordinal()`. */
  function Ordinal(d: Date): int
    requires IsCalendarDate(d)
  {
    DaysBeforeYear(d.year) + DaysBeforeMonth(d.year, d.month) + d.day
  }

  // ---------------------------------------------------------------------
  // Facts about the year and month tables

  lemma YearLength(y: int)
    ensures DaysBeforeYear(y + 1) == DaysBeforeYear(y) + DaysInYear(y)
  {
    assert y / 4 - (y - 1) / 4 == if y % 4 == 0 then 1 else 0;
    assert y / 100 - (y - 1) / 100 == if y % 100 == 0 then 1 else 0;
    assert y / 400 - (y - 1) / 400 == if y % 400 == 0 then 1 else 0;
  }

  lemma {:induction false} YearsMonotone(a: int, b: int)
    requires a <= b
    ensures DaysBeforeYear(a) + 365 * (b - a) <= DaysBeforeYear(b)
    decreases b - a
  {
    if a < b {
      YearsMonotone(a, b - 1);
      YearLength(b - 1);
    }
  }

  /** The table adds up: each month starts where the previous one ends. */
  lemma MonthStep(y: int, m: int)
    requires 1 <= m <= 12
    ensures DaysBeforeMonth(y, m + 1) == DaysBeforeMonth(y, m) + DaysInMonth(y, m)
  {
  }

  lemma MonthsFillYear(y: int)
    ensures DaysBeforeMonth(y, 12) + 31 == DaysInYear(y)
  {
  }

  lemma {:induction false} MonthsMonotone(y: int, m: int, k: int)
    requires 1 <= m <= k <= 13
    ensures DaysBeforeMonth(y, m) + 28 * (k - m) <= DaysBeforeMonth(y, k)
    decreases k - m
  {
    if m < k {
      MonthsMonotone(y, m, k - 1);
      MonthStep(y, k - 1);
    }
  }

  /** 1 January is the first day after the years before it. */
  lemma NewYearOrdinal(y: int)
    ensures IsCalendarDate(Date(y, 1, 1)) && Ordinal(Date(y, 1, 1)) == DaysBeforeYear(y) + 1
  {
  }

  /** A date lies within its own year's span of ordinals. */
  lemma OrdinalInYear(d: Date)
    requires IsCalendarDate(d)
    ensures DaysBeforeYear(d.year) < Ordinal(d) <= DaysBeforeYear(d.year + 1)
    ensures d.month != 12 || d.day != 31 ==> Ordinal(d) < DaysBeforeYear(d.year + 1)
  {
    MonthsMonotone(d.year, d.month + 1, 13);
    if d.month < 12 {
      MonthsMonotone(d.year, d.month + 1, 12);
    }
    MonthsFillYear(d.year);
    YearLength(d.year);
  }

  // ---------------------------------------------------------------------
  // start + timedelta(days=n), start being 1 January

  /** The date n days after the first day of month m of year y, staying within the year. */
  function FromDayOfYear(y: int, m: int, n: int): (d: Date)
    requires 1 <= m <= 12 && 0 <= n
    requires DaysBeforeMonth(y, m) + n < DaysInYear(y)
    ensures d.year == y && IsCalendarDate(d) && m <= d.month
    ensures DaysBeforeMonth(y, d.month) + d.day == DaysBeforeMonth(y, m) + n + 1
    decreases 12 - m
  {
    MonthsFillYear(y);
    MonthStep(y, m);
    if n < DaysInMonth(y, m) then Date(y, m, n + 1)
    else FromDayOfYear(y, m + 1, n - DaysInMonth(y, m))
  }

  /** The date n days after 1 January of year y: `datetime(y, 1, 1) + timedelta(days=n)`. */
  function AfterNewYear(y: int, n: nat): (d: Date)
    ensures IsCalendarDate(d) && y <= d.year
    ensures Ordinal(d) == DaysBeforeYear(y) + 1 + n
    decreases n
  {
    YearLength(y);
    if n < DaysInYear(y) then FromDayOfYear(y, 1, n)
    else AfterNewYear(y + 1, n - DaysInYear(y))
  }

  /** A date's day of the year lies within the year. */
  lemma DayOfYearBound(d: Date)
    requires IsCalendarDate(d)
    ensures DaysBeforeMonth(d.year, d.month) + d.day <= DaysInYear(d.year)
  {
    MonthsMonotone(d.year, d.month + 1, 13);
    MonthsFillYear(d.year);
  }

  /** A walk that starts past the end of month m continues from the first day of month m + 1. */
  lemma FromDayOfYearStep(y: int, m: int, n: int)
    requires 1 <= m <= 12 && DaysInMonth(y, m) <= n
    requires DaysBeforeMonth(y, m) + n < DaysInYear(y)
    ensures m < 12
    ensures FromDayOfYear(y, m, n) == FromDayOfYear(y, m + 1, n - DaysInMonth(y, m))
  {
    MonthsFillYear(y);
    MonthStep(y, m);
  }

  lemma {:induction false} FromDayOfYearReaches(y: int, m: int, d: Date)
    requires IsCalendarDate(d) && d.year == y && 1 <= m <= d.month
    ensures DaysBeforeMonth(y, m) <= DaysBeforeMonth(y, d.month)
    ensures DaysBeforeMonth(y, d.month) + d.day <= DaysInYear(y)
    ensures FromDayOfYear(y, m, DaysBeforeMonth(y, d.month) - DaysBeforeMonth(y, m) + d.day - 1) == d
    decreases d.month - m
  {
    MonthsMonotone(y, m, d.month);
    DayOfYearBound(d);
    if m == d.month {
      // the walk stops in month m
    } else {
      FromDayOfYearReaches(y, m + 1, d);
      MonthStep(y, m);
      MonthsMonotone(y, m + 1, d.month);
      FromDayOfYearStep(y, m, DaysBeforeMonth(y, d.month) - DaysBeforeMonth(y, m) + d.day - 1);
    }
  }

  /** Every date from 1 January of y on is reached: AfterNewYear inverts Ordinal. */
  lemma {:induction false} AfterNewYearReaches(y: int, d: Date)
    requires IsCalendarDate(d) && y <= d.year
    ensures Ordinal(d) - DaysBeforeYear(y) - 1 >= 0
    ensures AfterNewYear(y, Ordinal(d) - DaysBeforeYear(y) - 1) == d
    decreases d.year - y
  {
    if d.year == y {
      ReachesWithinYear(d);
    } else {
      AfterNewYearReaches(y + 1, d);
      YearLength(y);
      AfterNewYearStep(y, Ordinal(d) - DaysBeforeYear(y) - 1);
    }
  }

  /** The base case: a date is reached from 1 January of its own year. */
  lemma ReachesWithinYear(d: Date)
    requires IsCalendarDate(d)
    ensures Ordinal(d) - DaysBeforeYear(d.year) - 1 >= 0
    ensures AfterNewYear(d.year, Ordinal(d) - DaysBeforeYear(d.year) - 1) == d
  {
    var y := d.year;
    var n := DaysBeforeMonth(y, d.month) + d.day - 1;
    FromDayOfYearReaches(y, 1, d);
    assert FromDayOfYear(y, 1, n) == d;
    AfterNewYearInYear(y, n);
  }

  /** A walk that ends within year y is a walk through its months. */
  lemma AfterNewYearInYear(y: int, n: nat)
    requires n < DaysInYear(y)
    ensures AfterNewYear(y, n) == FromDayOfYear(y, 1, n)
  {
  }

  /** A walk that starts past the end of year y continues from 1 January of y + 1. */
  lemma AfterNewYearStep(y: int, n: nat)
    requires DaysInYear(y) <= n
    ensures AfterNewYear(y, n) == AfterNewYear(y + 1, n - DaysInYear(y))
  {
  }

  // ---------------------------------------------------------------------
  // YYYY-MM-DD

  /** `d.strftime("%Y-%m-%d")` for a four-digit year. */
  function FormatIsoDate(d: Date): (s: string)
    requires ValidDate(d) && 1000 <= d.year
    ensures |s| == 10 && s[4] == '-' && s[7] == '-'
    ensures forall i :: 0 <= i < 10 && i != 4 && i != 7 ==> IsDigit(s[i])
    ensures ParseIsoDate(s) == Some(d)
  {
    var y, m, dd := Padded(d.year, 4), Padded(d.month, 2), Padded(d.day, 2);
    assert Pow10(4) == 10000 && Pow10(2) == 100;
    IsoFields(y, m, dd);
    y + "-" + m + "-" + dd
  }

  /** Three digit fields of widths 4, 2 and 2 joined by '-' read back as the three numbers. */
  lemma IsoFields(y: string, m: string, dd: string)
    requires |y| == 4 && |m| == 2 && |dd| == 2 && AllDigits(y) && AllDigits(m) && AllDigits(dd)
    ensures var s := y + "-" + m + "-" + dd;
      && |s| == 10 && s[4] == '-' && s[7] == '-'
      && (forall i :: 0 <= i < 10 && i != 4 && i != 7 ==> IsDigit(s[i]))
      && ParseIsoDate(s) == Some(Date(ParseDecimal(y), ParseDecimal(m), ParseDecimal(dd)))
  {
    var s := y + "-" + m + "-" + dd;
    assert s[..4] == y && s[5..7] == m && s[8..] == dd;
  }

  /** Reads a YYYY-MM-DD text back into its three numbers; None for any other shape. */
  function ParseIsoDate(s: string): Option<Date>
  {
    if |s| == 10 && s[4] == '-' && s[7] == '-'
       && AllDigits(s[..4]) && AllDigits(s[5..7]) && AllDigits(s[8..])
    then Some(Date(ParseDecimal(s[..4]), ParseDecimal(s[5..7]), ParseDecimal(s[8..])))
    else None
  }
}
