/** The proleptic Gregorian calendar, with days counted from 1 January of year 1 as day 1. */
module Calendar {

  datatype Date = Date(year: int, month: int, day: int)

  predicate Leap(y: int) {
    y % 4 == 0 && (y % 100 != 0 || y % 400 == 0)
  }

  function DaysBeforeYear(y: int): int {
    365 * (y - 1) + (y - 1) / 4 - (y - 1) / 100 + (y - 1) / 400
  }

  function CommonMonthLength(m: int): int {
    if m == 2 then 28 else if m == 4 || m == 6 || m == 9 || m == 11 then 30 else 31
  }

  function MonthLength(y: int, m: int): int {
    if m == 2 && Leap(y) then 29 else CommonMonthLength(m)
  }

  function YearLength(y: int): int {
    if Leap(y) then 366 else 365
  }

  lemma QuotientSteps(y: int)
    ensures y / 4 == (y - 1) / 4 + if y % 4 == 0 then 1 else 0
    ensures y / 100 == (y - 1) / 100 + if y % 100 == 0 then 1 else 0
    ensures y / 400 == (y - 1) / 400 + if y % 400 == 0 then 1 else 0
  {
  }

  lemma YearStep(y: int)
    ensures DaysBeforeYear(y + 1) == DaysBeforeYear(y) + YearLength(y)
  {
    QuotientSteps(y);
    Divisibility(y);
  }

  lemma Divisibility(y: int)
    ensures y % 400 == 0 ==> y % 100 == 0
    ensures y % 100 == 0 ==> y % 4 == 0
  {
  }

  function DaysBeforeMonth(y: int, m: int): int
    decreases m
  {
    if m <= 1 then 0 else DaysBeforeMonth(y, m - 1) + MonthLength(y, m - 1)
  }

  lemma {:induction false} MonthsFitYear(y: int, m: int)
    requires 1 <= m <= 12
    ensures 0 <= DaysBeforeMonth(y, m)
    ensures DaysBeforeMonth(y, m) + MonthLength(y, m) <= YearLength(y)
    ensures DaysBeforeMonth(y, 13) == YearLength(y)
  {
    assert DaysBeforeMonth(y, 2) == 31;
    assert DaysBeforeMonth(y, 4) == DaysBeforeMonth(y, 3) + 31;
    assert DaysBeforeMonth(y, 6) == DaysBeforeMonth(y, 4) + 61;
    assert DaysBeforeMonth(y, 8) == DaysBeforeMonth(y, 6) + 61;
    assert DaysBeforeMonth(y, 10) == DaysBeforeMonth(y, 8) + 61;
    assert DaysBeforeMonth(y, 12) == DaysBeforeMonth(y, 10) + 61;
  }

  predicate ValidDate(d: Date) {
    d.year >= 1 && 1 <= d.month <= 12 && 1 <= d.day <= MonthLength(d.year, d.month)
  }

  function Ordinal(d: Date): int {
    DaysBeforeYear(d.year) + DaysBeforeMonth(d.year, d.month) + d.day
  }

  /** The year of day `n`, searching from year `y`. */
  function YearFrom(n: int, y: int): (r: int)
    requires y >= 1 && DaysBeforeYear(y) < n
    ensures r >= y && DaysBeforeYear(r) < n <= DaysBeforeYear(r + 1)
    decreases n - DaysBeforeYear(y)
  {
    YearStep(y);
    if n <= DaysBeforeYear(y + 1) then y else YearFrom(n, y + 1)
  }

  /** The month of the `k`-th day of year `y`, searching from month `m`. */
  function MonthFrom(y: int, k: int, m: int): (r: int)
    requires 1 <= m <= 12 && DaysBeforeMonth(y, m) < k <= YearLength(y)
    ensures m <= r <= 12 && DaysBeforeMonth(y, r) < k <= DaysBeforeMonth(y, r) + MonthLength(y, r)
    decreases 12 - m
  {
    MonthsFitYear(y, m);
    if k <= DaysBeforeMonth(y, m) + MonthLength(y, m) then m
    else MonthFrom(y, k, m + 1)
  }

  function DateOf(n: int): (d: Date)
    requires n >= 1
    ensures ValidDate(d) && Ordinal(d) == n
  {
    var y := YearFrom(n, 1);
    YearStep(y);
    var k := n - DaysBeforeYear(y);
    var m := MonthFrom(y, k, 1);
    Date(y, m, k - DaysBeforeMonth(y, m))
  }

  lemma {:induction false} YearsOrdered(y1: int, y2: int)
    requires 1 <= y1 < y2
    ensures DaysBeforeYear(y1 + 1) <= DaysBeforeYear(y2)
    decreases y2 - y1
  {
    if y1 + 1 < y2 {
      YearStep(y1 + 1);
      YearsOrdered(y1 + 1, y2);
    }
  }

  lemma {:induction false} MonthsOrdered(y: int, m1: int, m2: int)
    requires 1 <= m1 < m2 <= 12
    ensures DaysBeforeMonth(y, m1) + MonthLength(y, m1) <= DaysBeforeMonth(y, m2)
    decreases m2 - m1
  {
    if m1 + 1 < m2 {
      MonthsOrdered(y, m1, m2 - 1);
    }
  }

  /** Where a date lies between the beginnings of its year and of the next. */
  lemma WithinYear(d: Date)
    requires ValidDate(d)
    ensures DaysBeforeYear(d.year) < Ordinal(d) <= DaysBeforeYear(d.year + 1)
    ensures DaysBeforeYear(d.year + 1) <= DaysBeforeYear(d.year) + 366
  {
    MonthsFitYear(d.year, d.month);
    YearStep(d.year);
  }

  lemma EarlierYear(d: Date, e: Date)
    requires ValidDate(d) && ValidDate(e) && d.year < e.year
    ensures Ordinal(d) < Ordinal(e)
  {
    WithinYear(d);
    WithinYear(e);
    YearsOrdered(d.year, e.year);
  }

  lemma EarlierMonth(d: Date, e: Date)
    requires ValidDate(d) && ValidDate(e) && d.year == e.year && d.month < e.month
    ensures Ordinal(d) < Ordinal(e)
  {
    MonthsOrdered(d.year, d.month, e.month);
  }

  /** Different dates have different day numbers. */
  lemma OrdinalIsInjective(d: Date, e: Date)
    requires ValidDate(d) && ValidDate(e) && Ordinal(d) == Ordinal(e)
    ensures d == e
  {
    if d.year < e.year {
      EarlierYear(d, e);
    } else if e.year < d.year {
      EarlierYear(e, d);
    } else if d.month < e.month {
      EarlierMonth(d, e);
    } else if e.month < d.month {
      EarlierMonth(e, d);
    }
  }

  /** Each date is the date of its day number. */
  lemma DateOfOrdinal(d: Date)
    requires ValidDate(d)
    ensures Ordinal(d) >= 1 && DateOf(Ordinal(d)) == d
  {
    if d.year > 1 {
      YearsOrdered(1, d.year);
      YearStep(1);
    }
    MonthsFitYear(d.year, d.month);
    OrdinalIsInjective(DateOf(Ordinal(d)), d);
  }
}
