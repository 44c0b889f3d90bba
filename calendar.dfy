/**
 * Proleptic Gregorian calendar dates with the semantics the billing code
 * relies on: Python's `datetime.date` (its year range, its ordering and its
 * day ordinal, used by `date - date`) and the calendar-month addition of
 * `dateutil.relativedelta`, which clamps the day to the target month's length.
 */
module Calendar {

  /** Python's `datetime.MINYEAR` and `datetime.MAXYEAR`. */
  const MinYear: int := 1
  const MaxYear: int := 9999

  datatype Date = Date(year: int, month: int, day: int)

  predicate IsLeapYear(y: int) {
    y % 4 == 0 && (y % 100 != 0 || y % 400 == 0)
  }

  function DaysInMonth(y: int, m: int): (n: int)
    requires 1 <= m <= 12
    ensures 28 <= n <= 31
  {
    if m == 2 then (if IsLeapYear(y) then 29 else 28)
    else if m == 4 || m == 6 || m == 9 || m == 11 then 30
    else 31
  }

  function DaysInYear(y: int): int {
    if IsLeapYear(y) then 366 else 365
  }

  /** A value that `datetime.date` accepts. */
  predicate ValidDate(d: Date) {
    && MinYear <= d.year <= MaxYear
    && 1 <= d.month <= 12
    && 1 <= d.day <= DaysInMonth(d.year, d.month)
  }

  /** `a < b` on Python dates: lexicographic on (year, month, day). */
  predicate Before(a: Date, b: Date) {
    || a.year < b.year
    || (a.year == b.year && a.month < b.month)
    || (a.year == b.year && a.month == b.month && a.day < b.day)
  }

  /** Months elapsed since January of year 0; day-of-month is ignored. */
  function MonthIndex(d: Date): int {
    d.year * 12 + d.month - 1
  }

  function Min(a: int, b: int): int {
    if a <= b then a else b
  }

  function Max(a: int, b: int): int {
    if a <= b then b else a
  }

  // ---------------------------------------------------------------------
  // Day ordinal (Python's `date.toordinal`): 0001-01-01 is day 1.
  // `(a - b).days` is `Ordinal(a) - Ordinal(b)`.
  // ---------------------------------------------------------------------

  /** Days in the years before `y`, as in Python's `_days_before_year`. */
  function DaysBeforeYear(y: int): int
    requires y >= 1
  {
    var p := y - 1;
    p * 365 + p / 4 - p / 100 + p / 400
  }

  /** Days in the months of year `y` before month `m`, as in Python's `_days_before_month`. */
  function DaysBeforeMonth(y: int, m: int): int
    requires 1 <= m <= 12
  {
    var common :=
      if m == 1 then 0 else if m == 2 then 31 else if m == 3 then 59
      else if m == 4 then 90 else if m == 5 then 120 else if m == 6 then 151
      else if m == 7 then 181 else if m == 8 then 212 else if m == 9 then 243
      else if m == 10 then 273 else if m == 11 then 304 else 334;
    common + (if m > 2 && IsLeapYear(y) then 1 else 0)
  }

  function Ordinal(d: Date): int
    requires ValidDate(d)
  {
    DaysBeforeYear(d.year) + DaysBeforeMonth(d.year, d.month) + d.day
  }

  /** Stepping from `y - 1` to `y` adds one to the quotient by `k` exactly when `k` divides `y`. */
  lemma QuotientStep4(y: int)
    ensures y / 4 == (y - 1) / 4 + (if y % 4 == 0 then 1 else 0)
  {
    var p := y - 1;
    assert p == 4 * (p / 4) + p % 4 && y == 4 * (y / 4) + y % 4;
  }

  lemma QuotientStep100(y: int)
    ensures y / 100 == (y - 1) / 100 + (if y % 100 == 0 then 1 else 0)
  {
    var p := y - 1;
    assert p == 100 * (p / 100) + p % 100 && y == 100 * (y / 100) + y % 100;
  }

  lemma QuotientStep400(y: int)
    ensures y / 400 == (y - 1) / 400 + (if y % 400 == 0 then 1 else 0)
  {
    var p := y - 1;
    assert p == 400 * (p / 400) + p % 400 && y == 400 * (y / 400) + y % 400;
  }

  /** Every multiple of 100 is a multiple of 4. */
  lemma Multiple100Is4(y: int)
    requires y % 100 == 0
    ensures y % 4 == 0
  {
    var k := 25 * (y / 100) - y / 4;
    assert y % 4 == 4 * k;
  }

  /** Every multiple of 400 is a multiple of 100. */
  lemma Multiple400Is100(y: int)
    requires y % 400 == 0
    ensures y % 100 == 0
  {
    var k := 4 * (y / 400) - y / 100;
    assert y % 100 == 100 * k;
  }

  /** A year contributes 366 days to the ordinal when it is leap, 365 otherwise. */
  lemma DaysBeforeNextYear(y: int)
    requires y >= 1
    ensures DaysBeforeYear(y + 1) == DaysBeforeYear(y) + DaysInYear(y)
  {
    QuotientStep4(y);
    QuotientStep100(y);
    QuotientStep400(y);
    if y % 100 == 0 {
      Multiple100Is4(y);
    }
    if y % 400 == 0 {
      Multiple400Is100(y);
    }
    var p := y - 1;
    assert DaysBeforeYear(y + 1) - DaysBeforeYear(y) == 365 + (y / 4 - p / 4) - (y / 100 - p / 100) + (y / 400 - p / 400);
  }

  lemma {:induction false} DaysBeforeYearGrows(y1: int, y2: int)
    requires 1 <= y1 <= y2
    ensures DaysBeforeYear(y1) + 365 * (y2 - y1) <= DaysBeforeYear(y2)
    decreases y2 - y1
  {
    if y1 < y2 {
      DaysBeforeNextYear(y1);
      DaysBeforeYearGrows(y1 + 1, y2);
    }
  }

  /** The days of a month fit before the next month starts, and the year ends after December. */
  lemma MonthFits(y: int, m1: int, m2: int)
    requires 1 <= m1 <= 12 && m1 < m2 <= 13
    ensures DaysBeforeMonth(y, m1) + DaysInMonth(y, m1)
            <= if m2 == 13 then DaysInYear(y) else DaysBeforeMonth(y, m2)
  {
  }

  /**
   * The ordinal is a faithful image of date order: Python's `a < b` holds
   * exactly when `a` has the smaller ordinal, so `(b - a).days > 0` means
   * `a < b`.
   */
  lemma OrdinalOrder(a: Date, b: Date)
    requires ValidDate(a) && ValidDate(b)
    ensures Before(a, b) <==> Ordinal(a) < Ordinal(b)
    ensures a == b <==> Ordinal(a) == Ordinal(b)
  {
    if Before(a, b) {
      OrdinalBefore(a, b);
    } else if Before(b, a) {
      OrdinalBefore(b, a);
    } else {
      assert a == b;
    }
  }

  lemma OrdinalBefore(a: Date, b: Date)
    requires ValidDate(a) && ValidDate(b) && Before(a, b)
    ensures Ordinal(a) < Ordinal(b)
  {
    if a.year < b.year {
      MonthFits(a.year, a.month, 13);
      DaysBeforeNextYear(a.year);
      DaysBeforeYearGrows(a.year + 1, b.year);
    } else if a.month < b.month {
      MonthFits(a.year, a.month, b.month);
    }
  }

  // ---------------------------------------------------------------------
  // dateutil.relativedelta
  // ---------------------------------------------------------------------

  /**
   * A `relativedelta(years=..., months=...)` after its own normalisation,
   * which keeps the month part below 12 (`relativedelta(months=12)` is
   * stored as one year).
   */
  datatype RelDelta = RelDelta(years: nat, months: nat)

  predicate NormalDelta(delta: RelDelta) {
    delta.months < 12
  }

  /** The length of a delta in calendar months. */
  function SpanMonths(delta: RelDelta): nat {
    12 * delta.years + delta.months
  }

  /** A date, or the `ValueError` that `date.replace` raises past `MaxYear`. */
  datatype Outcome = Ok(date: Date) | YearOutOfRange

  /**
   * `date + relativedelta(...)`: shift year and month (carrying one year when
   * the month passes December), then clamp the original day to the length
   * of the target month. The new date is built with `date.replace`, which
   * refuses a year after `MaxYear`.
   */
  function AddDelta(d: Date, delta: RelDelta): (r: Outcome)
    requires ValidDate(d) && NormalDelta(delta)
    ensures r.YearOutOfRange? <==> (MonthIndex(d) + SpanMonths(delta)) / 12 > MaxYear
    ensures r.Ok? ==> ValidDate(r.date)
    ensures r.Ok? ==> MonthIndex(r.date) == MonthIndex(d) + SpanMonths(delta)
    ensures r.Ok? ==> r.date.day == Min(d.day, DaysInMonth(r.date.year, r.date.month))
  {
    var year := d.year + delta.years;
    var month := d.month + delta.months;
    var year', month' := if month > 12 then year + 1 else year, if month > 12 then month - 12 else month;
    var day := Min(DaysInMonth(year', month'), d.day);
    if year' > MaxYear then YearOutOfRange else Ok(Date(year', month', day))
  }

  /** A later month index means a later date, whatever the days. */
  lemma MonthIndexBefore(a: Date, b: Date)
    requires ValidDate(a) && ValidDate(b)
    ensures MonthIndex(a) < MonthIndex(b) ==> Before(a, b)
    ensures Before(a, b) ==> MonthIndex(a) <= MonthIndex(b)
  {
  }

  /** Adding a non-empty delta always moves the date strictly forward. */
  lemma AddDeltaAdvances(d: Date, delta: RelDelta)
    requires ValidDate(d) && NormalDelta(delta) && SpanMonths(delta) > 0
    ensures AddDelta(d, delta).Ok? ==> Before(d, AddDelta(d, delta).date)
  {
    var r := AddDelta(d, delta);
    if r.Ok? {
      MonthIndexBefore(d, r.date);
    }
  }
}
