/**
 * The proleptic Gregorian calendar as Python's `datetime` counts it: day
 * ordinal 1 is 0001-01-01 and every later day adds one.  The pipeline parses
 * and prints dates as 'YYYY-MM-DD' strings; this model works on the ordinals
 * those strings stand for and on their (year, month, day) decomposition.
 */
module Calendar {

  datatype Date = Date(year: int, month: int, day: int)

  /** The largest year a Python `date` can hold. */
  const MaxYear: int := 9999

  predicate IsLeap(year: int) {
    year % 4 == 0 && (year % 100 != 0 || year % 400 == 0)
  }

  function DaysInYear(year: int): int {
    if IsLeap(year) then 366 else 365
  }

  function DaysInMonth(year: int, month: int): int
    requires 1 <= month <= 12
  {
    if month == 2 then (if IsLeap(year) then 29 else 28)
    else if month == 4 || month == 6 || month == 9 || month == 11 then 30
    else 31
  }

  /** Days in the months of `year` that come before `month` (month 13: the whole year). */
  function DaysBeforeMonth(year: int, month: int): (r: int)
    requires 1 <= month <= 13
    ensures month == 1 ==> r == 0
    ensures month == 13 ==> r == DaysInYear(year)
  {
    var table := [0, 0, 31, 59, 90, 120, 151, 181, 212, 243, 273, 304, 334, 365];
    table[month] + (if month > 2 && IsLeap(year) then 1 else 0)
  }

  lemma DaysBeforeNextMonth(year: int, month: int)
    requires 1 <= month <= 12
    ensures DaysBeforeMonth(year, month) + DaysInMonth(year, month) == DaysBeforeMonth(year, month + 1)
  {
  }

  lemma DaysBeforeMonthMonotone(year: int, m1: int, m2: int)
    requires 1 <= m1 < m2 <= 13
    ensures DaysBeforeMonth(year, m1) + DaysInMonth(year, m1) <= DaysBeforeMonth(year, m2)
  {
  }

  /** Days in the years 1 .. year - 1. */
  function DaysBeforeYear(year: int): int
    requires year >= 1
  {
    var y := year - 1;
    y * 365 + y / 4 - y / 100 + y / 400
  }

  predicate ValidDate(d: Date) {
    1 <= d.year && 1 <= d.month <= 12 && 1 <= d.day <= DaysInMonth(d.year, d.month)
  }

  /** Python's `date.toordinal()`. */
  function ToOrdinal(d: Date): (n: int)
    requires ValidDate(d)
    ensures 0 <= DaysBeforeYear(d.year) < n <= DaysBeforeYear(d.year) + DaysInYear(d.year)
  {
    DaysBeforeMonthMonotone(d.year, d.month, 13);
    DaysBeforeYear(d.year) + DaysBeforeMonth(d.year, d.month) + d.day
  }

  /** The ordinal of 9999-12-31, the last day a Python `date` can hold. */
  const MaxOrdinal: int := DaysBeforeYear(MaxYear + 1)

  /** Day ordinals that denote a date Python can represent. */
  predicate InRange(n: int) {
    1 <= n <= MaxOrdinal
  }

  /** Going from `year - 1` to `year`, the count of multiples of `k` grows by one exactly when `k` divides `year`. */
  lemma MultiplesStep(year: int, k: int)
    requires k == 4 || k == 100 || k == 400
    ensures year / k == (year - 1) / k + (if year % k == 0 then 1 else 0)
  {
    var q, r := (year - 1) / k, (year - 1) % k;
    assert year - 1 == q * k + r && 0 <= r < k;
    if r == k - 1 {
      assert year == (q + 1) * k;
    } else {
      assert year == q * k + (r + 1);
    }
  }

  lemma DivisibilityChain(year: int)
    ensures year % 100 == 0 ==> year % 4 == 0
    ensures year % 400 == 0 ==> year % 100 == 0
  {
    if year % 100 == 0 {
      var q := year / 100;
      assert year == 4 * (25 * q);
    }
    if year % 400 == 0 {
      var q := year / 400;
      assert year == 100 * (4 * q);
    }
  }

  lemma DaysBeforeNextYear(year: int)
    requires year >= 1
    ensures DaysBeforeYear(year + 1) == DaysBeforeYear(year) + DaysInYear(year)
  {
    MultiplesStep(year, 4);
    MultiplesStep(year, 100);
    MultiplesStep(year, 400);
    DivisibilityChain(year);
    var step := (if year % 4 == 0 then 1 else 0) - (if year % 100 == 0 then 1 else 0) + (if year % 400 == 0 then 1 else 0);
    assert step == DaysInYear(year) - 365;
    assert DaysBeforeYear(year + 1) == DaysBeforeYear(year) + 365 + step;
  }

  /** The date whose day of year is `k`, found by scanning the months from `month` down. */
  function MonthOfDay(year: int, month: int, k: int): (d: Date)
    requires 1 <= month <= 12 && 1 <= year
    requires 1 <= k <= DaysBeforeMonth(year, month + 1)
    ensures ValidDate(d) && d.year == year
    ensures DaysBeforeMonth(year, d.month) + d.day == k
    decreases month
  {
    DaysBeforeNextMonth(year, month);
    if DaysBeforeMonth(year, month) < k then Date(year, month, k - DaysBeforeMonth(year, month))
    else MonthOfDay(year, month - 1, k)
  }

  /** The date `k - 1` days after January 1st of `year`. */
  function DateFromYear(year: int, k: int): (d: Date)
    requires 1 <= year && 1 <= k
    ensures ValidDate(d) && ToOrdinal(d) == DaysBeforeYear(year) + k
    decreases k
  {
    if k <= DaysInYear(year) then MonthOfDay(year, 12, k)
    else
      DaysBeforeNextYear(year);
      DateFromYear(year + 1, k - DaysInYear(year))
  }

  /** Python's `date.fromordinal(n)`: the (year, month, day) of day ordinal `n`. */
  function FromOrdinal(n: int): (d: Date)
    requires n >= 1
    ensures ValidDate(d) && ToOrdinal(d) == n
  {
    DateFromYear(1, n)
  }

  lemma {:induction false} DaysBeforeYearMonotone(a: int, b: int)
    requires 1 <= a <= b
    ensures DaysBeforeYear(a) + 365 * (b - a) <= DaysBeforeYear(b)
    decreases b - a
  {
    if a < b {
      DaysBeforeNextYear(a);
      DaysBeforeYearMonotone(a + 1, b);
    }
  }

  /** The ordinal of a valid date lies inside its year's span of ordinals. */
  lemma OrdinalWithinYear(d: Date)
    requires ValidDate(d)
    ensures DaysBeforeYear(d.year) < ToOrdinal(d) <= DaysBeforeYear(d.year + 1)
  {
    DaysBeforeNextYear(d.year);
  }

  /** Distinct valid dates have distinct ordinals. */
  lemma ToOrdinalInjective(d1: Date, d2: Date)
    requires ValidDate(d1) && ValidDate(d2)
    requires ToOrdinal(d1) == ToOrdinal(d2)
    ensures d1 == d2
  {
    SameOrdinalSameYear(d1, d2);
    if d1.month < d2.month {
      DaysBeforeMonthMonotone(d1.year, d1.month, d2.month);
    } else if d2.month < d1.month {
      DaysBeforeMonthMonotone(d1.year, d2.month, d1.month);
    }
  }

  lemma SameOrdinalSameYear(d1: Date, d2: Date)
    requires ValidDate(d1) && ValidDate(d2)
    requires ToOrdinal(d1) == ToOrdinal(d2)
    ensures d1.year == d2.year
  {
    OrdinalWithinYear(d1);
    OrdinalWithinYear(d2);
    if d1.year < d2.year {
      DaysBeforeYearMonotone(d1.year + 1, d2.year);
    } else if d2.year < d1.year {
      DaysBeforeYearMonotone(d2.year + 1, d1.year);
    }
  }

  /** `fromordinal` and `toordinal` are inverse on valid dates. */
  lemma FromToOrdinal(d: Date)
    requires ValidDate(d)
    ensures FromOrdinal(ToOrdinal(d)) == d
  {
    OrdinalWithinYear(d);
    DaysBeforeYearMonotone(1, d.year);
    ToOrdinalInjective(FromOrdinal(ToOrdinal(d)), d);
  }

  /** Every ordinal Python can hold names a date of years 1 .. 9999. */
  lemma InRangeYears(n: int)
    requires InRange(n)
    ensures 1 <= FromOrdinal(n).year <= MaxYear
  {
    var d := FromOrdinal(n);
    OrdinalWithinYear(d);
    if d.year > MaxYear {
      DaysBeforeYearMonotone(MaxYear + 1, d.year);
      assert false;
    }
  }

  /** One more day after a date advances the day, or rolls over the month or the year. */
  lemma NextDay(n: int)
    requires n >= 1
    ensures var d, e := FromOrdinal(n), FromOrdinal(n + 1);
      if d.day < DaysInMonth(d.year, d.month) then e == Date(d.year, d.month, d.day + 1)
      else if d.month < 12 then e == Date(d.year, d.month + 1, 1)
      else e == Date(d.year + 1, 1, 1)
  {
    var d := FromOrdinal(n);
    var e: Date;
    if d.day < DaysInMonth(d.year, d.month) {
      e := Date(d.year, d.month, d.day + 1);
    } else if d.month < 12 {
      e := Date(d.year, d.month + 1, 1);
      DaysBeforeNextMonth(d.year, d.month);
    } else {
      e := Date(d.year + 1, 1, 1);
      DaysBeforeNextYear(d.year);
    }
    assert ValidDate(e) && ToOrdinal(e) == n + 1;
    FromToOrdinal(e);
  }
}
