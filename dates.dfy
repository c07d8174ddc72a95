/**
 * Calendar dates as Python's `datetime.date` sees them: the proleptic
 * Gregorian calendar, `toordinal()`, `+ timedelta(days=n)` and `isoformat()`.
 */
module Dates {
  import opened Wrappers
  import opened Text

  datatype Date = Date(year: int, month: int, day: int)

  predicate IsLeap(y: int) {
    y % 4 == 0 && (y % 100 != 0 || y % 400 == 0)
  }

  function DaysInMonth(y: int, m: int): (n: int)
    requires 1 <= m <= 12
    ensures 28 <= n <= 31
  {
    if m == 2 then (if IsLeap(y) then 29 else 28)
    else if m == 4 || m == 6 || m == 9 || m == 11 then 30
    else 31
  }

  /** A date the calendar has (Python's own year range 1..9999 is not imposed). */
  predicate Valid(d: Date) {
    1 <= d.month <= 12 && 1 <= d.day <= DaysInMonth(d.year, d.month)
  }

  function DaysInYear(y: int): int {
    if IsLeap(y) then 366 else 365
  }

  function DaysBeforeYear(y: int): int {
    var p := y - 1;
    p * 365 + p / 4 - p / 100 + p / 400
  }

  function DaysBeforeMonth(y: int, m: int): (n: int)
    requires 1 <= m <= 12
    ensures 0 <= n <= 31 * (m - 1)
  {
    if m == 1 then 0 else DaysBeforeMonth(y, m - 1) + DaysInMonth(y, m - 1)
  }

  /** `date.toordinal()`: 0001-01-01 is day 1. */
  function Ordinal(d: Date): int
    requires Valid(d)
  {
    DaysBeforeYear(d.year) + DaysBeforeMonth(d.year, d.month) + d.day
  }

  /** `d + timedelta(days=1)` */
  function NextDay(d: Date): (r: Date)
    requires Valid(d)
    ensures Valid(r) && r.year >= d.year
  {
    if d.day < DaysInMonth(d.year, d.month) then Date(d.year, d.month, d.day + 1)
    else if d.month < 12 then Date(d.year, d.month + 1, 1)
    else Date(d.year + 1, 1, 1)
  }

  /** `d - timedelta(days=1)` */
  function PrevDay(d: Date): (r: Date)
    requires Valid(d)
    ensures Valid(r)
  {
    if d.day > 1 then Date(d.year, d.month, d.day - 1)
    else if d.month > 1 then Date(d.year, d.month - 1, DaysInMonth(d.year, d.month - 1))
    else Date(d.year - 1, 12, 31)
  }

  /** A year has as many days as the ordinals of its first days are apart. */
  lemma {:induction false} YearLength(y: int)
    ensures DaysBeforeYear(y + 1) == DaysBeforeYear(y) + DaysInYear(y)
  {
    Multiples4(y);
    Multiples100(y);
    Multiples400(y);
  }

  /** Stepping from `y - 1` to `y` passes a multiple of 4 exactly when `y` is one. */
  lemma Multiples4(y: int)
    ensures y / 4 - (y - 1) / 4 == if y % 4 == 0 then 1 else 0
  {
  }

  lemma Multiples100(y: int)
    ensures y / 100 - (y - 1) / 100 == if y % 100 == 0 then 1 else 0
  {
  }

  lemma Multiples400(y: int)
    ensures y / 400 - (y - 1) / 400 == if y % 400 == 0 then 1 else 0
  {
  }

  /** The months of a year fill the year exactly. */
  lemma {:induction false} MonthsFillYear(y: int)
    ensures DaysBeforeMonth(y, 12) + DaysInMonth(y, 12) == DaysInYear(y)
  {
    var f := if IsLeap(y) then 29 else 28;
    assert DaysBeforeMonth(y, 2) == 31;
    assert DaysBeforeMonth(y, 3) == 31 + f;
    assert DaysBeforeMonth(y, 4) == 62 + f;
    assert DaysBeforeMonth(y, 5) == 92 + f;
    assert DaysBeforeMonth(y, 6) == 123 + f;
    assert DaysBeforeMonth(y, 7) == 153 + f;
    assert DaysBeforeMonth(y, 8) == 184 + f;
    assert DaysBeforeMonth(y, 9) == 215 + f;
    assert DaysBeforeMonth(y, 10) == 245 + f;
    assert DaysBeforeMonth(y, 11) == 276 + f;
    assert DaysBeforeMonth(y, 12) == 306 + f;
  }

  /** A later month of the same year starts after every day of an earlier one. */
  lemma {:induction false} MonthsAscend(y: int, m1: int, m2: int)
    requires 1 <= m1 < m2 <= 12
    ensures DaysBeforeMonth(y, m1) + DaysInMonth(y, m1) <= DaysBeforeMonth(y, m2)
    decreases m2 - m1
  {
    if m1 + 1 < m2 {
      MonthsAscend(y, m1 + 1, m2);
    }
  }

  /** The ordinal of a date lies within its year. */
  lemma {:induction false} WithinYear(d: Date)
    requires Valid(d)
    ensures DaysBeforeYear(d.year) < Ordinal(d) <= DaysBeforeYear(d.year + 1)
  {
    YearLength(d.year);
    MonthsFillYear(d.year);
    if d.month < 12 {
      MonthsAscend(d.year, d.month, 12);
    }
    assert DaysBeforeMonth(d.year, d.month) + d.day <= DaysInYear(d.year);
  }

  /** Later years start later. */
  lemma {:induction false} YearsAscend(y1: int, y2: int)
    requires y1 < y2
    ensures DaysBeforeYear(y1 + 1) <= DaysBeforeYear(y2)
    decreases y2 - y1
  {
    if y1 + 1 < y2 {
      YearsAscend(y1 + 1, y2);
      YearLength(y1 + 1);
    }
  }

  lemma {:induction false} NextDayOrdinal(d: Date)
    requires Valid(d)
    ensures Ordinal(NextDay(d)) == Ordinal(d) + 1
  {
    if d.day == DaysInMonth(d.year, d.month) && d.month == 12 {
      YearLength(d.year);
      MonthsFillYear(d.year);
    }
  }

  lemma {:induction false} PrevDayOrdinal(d: Date)
    requires Valid(d)
    ensures Ordinal(PrevDay(d)) == Ordinal(d) - 1
  {
    if d.day == 1 && d.month == 1 {
      YearLength(d.year - 1);
      MonthsFillYear(d.year - 1);
    }
  }

  /** Python's date order: by year, then month, then day. */
  predicate Before(a: Date, b: Date) {
    a.year < b.year || (a.year == b.year && (a.month < b.month || (a.month == b.month && a.day < b.day)))
  }

  /** On real dates the calendar order is the order of the ordinals, so dates
      can be compared, and stepped through, by their ordinals. */
  lemma {:induction false} OrdinalOrder(a: Date, b: Date)
    requires Valid(a) && Valid(b)
    ensures Before(a, b) <==> Ordinal(a) < Ordinal(b)
    ensures a == b <==> Ordinal(a) == Ordinal(b)
  {
    WithinYear(a);
    WithinYear(b);
    if a.year < b.year {
      YearsAscend(a.year, b.year);
    } else if b.year < a.year {
      YearsAscend(b.year, a.year);
    } else if a.month < b.month {
      MonthsAscend(a.year, a.month, b.month);
    } else if b.month < a.month {
      MonthsAscend(a.year, b.month, a.month);
    }
  }

  /** `d + timedelta(days=n)` for any whole number of days. */
  function AddDays(d: Date, n: int): (r: Date)
    requires Valid(d)
    ensures Valid(r) && Ordinal(r) == Ordinal(d) + n
    decreases if n >= 0 then n else -n
  {
    if n == 0 then d
    else if n > 0 then
      NextDayOrdinal(d);
      AddDays(NextDay(d), n - 1)
    else
      PrevDayOrdinal(d);
      AddDays(PrevDay(d), n + 1)
  }

  /** `d.isoformat()`: `YYYY-MM-DD`, each field zero-padded. */
  function IsoFormat(d: Date): (s: string)
    requires d.year >= 0 && Valid(d)
  {
    ZeroPad(d.year, 4) + "-" + ZeroPad(d.month, 2) + "-" + ZeroPad(d.day, 2)
  }

  /** Reading a `YYYY-MM-DD` date string, `None` when it is not one (the
      reading `pd.to_datetime(..., errors="coerce")` gives such strings). */
  function ParseIso(s: string): (r: Option<Date>)
    ensures r.Some? ==> Valid(r.value) && r.value.year >= 0
  {
    var parts := Split(s, '-');
    if |parts| == 3 && |parts[0]| == 4 && |parts[1]| == 2 && |parts[2]| == 2
       && AllDigits(parts[0]) && AllDigits(parts[1]) && AllDigits(parts[2])
    then
      var d := Date(DigitsValue(parts[0]), DigitsValue(parts[1]), DigitsValue(parts[2]));
      if Valid(d) then Some(d) else None
    else None
  }

  /** Formatting a date and reading it back gives the date. */
  lemma {:induction false} IsoRoundTrip(d: Date)
    requires Valid(d) && 0 <= d.year < 10000
    ensures ParseIso(IsoFormat(d)) == Some(d)
  {
    var y, m, dd := ZeroPad(d.year, 4), ZeroPad(d.month, 2), ZeroPad(d.day, 2);
    assert IsoFormat(d) == y + ['-'] + (m + ['-'] + dd);
    SplitAfter(y, '-', m + ['-'] + dd);
    SplitAfter(m, '-', dd);
    SplitNone(dd, '-');
  }
}
