/**
 * The proleptic Gregorian calendar as the program's `datetime` objects see it:
 * years 1 to 9999, leap years, month lengths, and the day number (ordinal)
 * that date arithmetic works on, with 0001-01-01 as day 1.
 */
module Calendar {

  import Decimal

  const MinYear := 1
  const MaxYear := 9999

  /** The day number of 9999-12-31, the last representable date. */
  const MaxOrdinal := 3652059

  datatype Date = Date(year: int, month: int, day: int)

  /** The Gregorian rule: every fourth year is leap, except centuries not divisible by 400. */
  predicate IsLeapYear(y: int): (leap: bool)
    ensures y % 400 == 0 ==> leap
    ensures y % 100 == 0 && y % 400 != 0 ==> !leap
    ensures y % 4 == 0 && y % 100 != 0 ==> leap
    ensures y % 4 != 0 ==> !leap
  {
    y % 4 == 0 && (y % 100 != 0 || y % 400 == 0)
  }

  function DaysInYear(y: int): int { if IsLeapYear(y) then 366 else 365 }

  function DaysInMonth(y: int, m: int): (n: int)
    requires 1 <= m <= 12
    ensures 28 <= n <= 31
    ensures n == 29 <==> m == 2 && IsLeapYear(y)
  {
    if m == 2 then (if IsLeapYear(y) then 29 else 28)
    else if m == 4 || m == 6 || m == 9 || m == 11 then 30
    else 31
  }

  /**
   * A date that exists in the calendar and in the representable range: days
   * 1 to 28 of every month, 29 and 30 of every month but February, 29
   * February in leap years only, and 31 in the seven long months.
   */
  predicate ValidDate(d: Date): (valid: bool)
    ensures valid <==>
      MinYear <= d.year <= MaxYear && 1 <= d.month <= 12 && 1 <= d.day
      && (d.day <= 28
          || (d.day <= 30 && d.month != 2)
          || (d.day == 29 && d.month == 2 && IsLeapYear(d.year))
          || (d.day == 31 && d.month in {1, 3, 5, 7, 8, 10, 12}))
  {
    MinYear <= d.year <= MaxYear && 1 <= d.month <= 12 && 1 <= d.day <= DaysInMonth(d.year, d.month)
  }

  /** Number of days in the years before year `y`. */
  function DaysBeforeYear(y: int): int
    requires y >= 1
  {
    var k := y - 1;
    365 * k + k / 4 - k / 100 + k / 400
  }

  /** Number of days in year `y` before the first of month `m`. */
  function DaysBeforeMonth(y: int, m: int): int
    requires 1 <= m <= 12
  {
    [0, 31, 59, 90, 120, 151, 181, 212, 243, 273, 304, 334][m - 1]
      + (if m > 2 && IsLeapYear(y) then 1 else 0)
  }

  lemma DaysBeforeNextMonth(y: int, m: int)
    requires 1 <= m <= 12
    ensures DaysBeforeMonth(y, m) + DaysInMonth(y, m) == if m < 12 then DaysBeforeMonth(y, m + 1) else DaysInYear(y)
  {
  }

  lemma DivStep(a: int, c: int)
    requires a >= 0 && c > 0
    ensures (a + 1) / c == a / c + (if (a + 1) % c == 0 then 1 else 0)
  {
    var q, r := a / c, a % c;
    if r + 1 < c {
      Decimal.DivModUnique(a + 1, c, q, r + 1);
    } else {
      assert a + 1 == (q + 1) * c;
      Decimal.DivModUnique(a + 1, c, q + 1, 0);
    }
  }

  /** Consecutive years are consecutive blocks of day numbers. */
  lemma DaysBeforeNextYear(y: int)
    requires y >= 1
    ensures DaysBeforeYear(y + 1) == DaysBeforeYear(y) + DaysInYear(y)
  {
    var k := y - 1;
    DivStep(k, 4);
    DivStep(k, 100);
    DivStep(k, 400);
    DivisorsOfCentury(y);
    assert DaysBeforeYear(y + 1) - DaysBeforeYear(y)
        == 365 + ((y / 4 - k / 4) - (y / 100 - k / 100) + (y / 400 - k / 400));
  }

  /** A multiple of 400 is a multiple of 100, and a multiple of 100 is a multiple of 4. */
  lemma DivisorsOfCentury(y: int)
    requires y >= 1
    ensures y % 400 == 0 ==> y % 100 == 0
    ensures y % 100 == 0 ==> y % 4 == 0
  {
    if y % 400 == 0 {
      Decimal.DivModUnique(y, 100, 4 * (y / 400), 0);
    }
    if y % 100 == 0 {
      Decimal.DivModUnique(y, 4, 25 * (y / 100), 0);
    }
  }

  lemma {:induction false} DaysBeforeYearMonotone(a: int, b: int)
    requires 1 <= a <= b
    ensures DaysBeforeYear(a) + 365 * (b - a) <= DaysBeforeYear(b)
    decreases b - a
  {
    if a < b {
      DaysBeforeNextYear(a);
      DaysBeforeYearMonotone(a + 1, b);
    }
  }

  /** The day number of a date (Python's `date.toordinal`). */
  function Ordinal(d: Date): (n: int)
    requires ValidDate(d)
    ensures DaysBeforeYear(d.year) < n <= DaysBeforeYear(d.year) + DaysInYear(d.year)
    ensures 1 <= n <= MaxOrdinal
  {
    DaysBeforeNextMonth(d.year, d.month);
    MonthsBeforeYearEnd(d.year, d.month);
    DaysBeforeNextYear(d.year);
    DaysBeforeYearMonotone(d.year + 1, MaxYear + 1);
    DaysBeforeYear(d.year) + DaysBeforeMonth(d.year, d.month) + d.day
  }

  lemma MonthsBeforeYearEnd(y: int, m: int)
    requires 1 <= m <= 12
    ensures DaysBeforeMonth(y, m) + DaysInMonth(y, m) <= DaysInYear(y)
  {
  }

  /** The year whose block of day numbers holds `n`, searching upward from `y`. */
  function YearContaining(n: int, y: int): (r: int)
    requires 1 <= y && DaysBeforeYear(y) < n
    ensures y <= r && DaysBeforeYear(r) < n <= DaysBeforeYear(r) + DaysInYear(r)
    decreases n - DaysBeforeYear(y)
  {
    DaysBeforeNextYear(y);
    if n <= DaysBeforeYear(y + 1) then y else YearContaining(n, y + 1)
  }

  /** A first guess at the year of day number `n` that never lies beyond it. */
  function YearEstimate(n: int): (y: int)
    requires n >= 1
    ensures 1 <= y && DaysBeforeYear(y) < n
  {
    (n - 1) / 366 + 1
  }

  /** The month whose days hold day `r` of year `y`, searching upward from `m`. */
  function MonthContaining(y: int, r: int, m: int): (res: int)
    requires 1 <= m <= 12 && DaysBeforeMonth(y, m) < r <= DaysInYear(y)
    ensures m <= res <= 12
    ensures DaysBeforeMonth(y, res) < r <= DaysBeforeMonth(y, res) + DaysInMonth(y, res)
    decreases 12 - m
  {
    DaysBeforeNextMonth(y, m);
    if m == 12 || r <= DaysBeforeMonth(y, m + 1) then m else MonthContaining(y, r, m + 1)
  }

  /** The date with day number `n` (Python's `date.fromordinal`). */
  function FromOrdinal(n: int): (d: Date)
    requires 1 <= n <= MaxOrdinal
    ensures ValidDate(d) && Ordinal(d) == n
  {
    var y := YearContaining(n, YearEstimate(n));
    if y > MaxYear then
      DaysBeforeYearMonotone(MaxYear + 1, y);
      assert false;
      Date(MaxYear, 12, 31)
    else
      var r := n - DaysBeforeYear(y);
      var m := MonthContaining(y, r, 1);
      Date(y, m, r - DaysBeforeMonth(y, m))
  }

  /** Different valid dates have different day numbers. */
  lemma OrdinalInjective(d1: Date, d2: Date)
    requires ValidDate(d1) && ValidDate(d2) && Ordinal(d1) == Ordinal(d2)
    ensures d1 == d2
  {
    OrdinalOrder(d1, d2);
    OrdinalOrder(d2, d1);
  }

  /** Calendar order: earlier year, then earlier month, then earlier day. */
  predicate Before(d1: Date, d2: Date)
  {
    d1.year < d2.year
    || (d1.year == d2.year && d1.month < d2.month)
    || (d1.year == d2.year && d1.month == d2.month && d1.day < d2.day)
  }

  lemma {:induction false} DaysBeforeMonthMonotone(y: int, a: int, b: int)
    requires 1 <= a < b <= 12
    ensures DaysBeforeMonth(y, a) + DaysInMonth(y, a) <= DaysBeforeMonth(y, b)
    decreases b - a
  {
    DaysBeforeNextMonth(y, a);
    if a + 1 < b {
      DaysBeforeMonthMonotone(y, a + 1, b);
    }
  }

  /** Day numbers follow calendar order. */
  lemma OrdinalOrder(d1: Date, d2: Date)
    requires ValidDate(d1) && ValidDate(d2)
    ensures Before(d1, d2) ==> Ordinal(d1) < Ordinal(d2)
  {
    if d1.year < d2.year {
      DaysBeforeNextYear(d1.year);
      DaysBeforeYearMonotone(d1.year + 1, d2.year);
    } else if d1.year == d2.year && d1.month < d2.month {
      DaysBeforeMonthMonotone(d1.year, d1.month, d2.month);
    }
  }

  /** Day numbers order dates exactly as the calendar does. */
  lemma OrdinalOrderIff(d1: Date, d2: Date)
    requires ValidDate(d1) && ValidDate(d2)
    ensures Before(d1, d2) <==> Ordinal(d1) < Ordinal(d2)
    ensures d1 == d2 <==> Ordinal(d1) == Ordinal(d2)
  {
    OrdinalOrder(d1, d2);
    OrdinalOrder(d2, d1);
  }

  /** Converting to a day number and back gives the same date. */
  lemma FromOrdinalOrdinal(d: Date)
    requires ValidDate(d)
    ensures FromOrdinal(Ordinal(d)) == d
  {
    OrdinalInjective(FromOrdinal(Ordinal(d)), d);
  }

  /** `d + timedelta(days=n)`, defined only when the result stays in the representable range. */
  predicate CanAddDays(d: Date, n: int)
  {
    ValidDate(d) && 1 <= Ordinal(d) + n <= MaxOrdinal
  }

  function AddDays(d: Date, n: int): (r: Date)
    requires CanAddDays(d, n)
    ensures ValidDate(r) && Ordinal(r) == Ordinal(d) + n
    ensures n == 0 <==> r == d
    ensures n < 0 <==> Before(r, d)
    ensures n > 0 <==> Before(d, r)
  {
    var r := FromOrdinal(Ordinal(d) + n);
    OrdinalOrderIff(r, d);
    OrdinalOrderIff(d, r);
    r
  }

  /** Adding `a` days and then `b` days is adding `a + b` days. */
  lemma AddDaysCompose(d: Date, a: int, b: int)
    requires CanAddDays(d, a) && CanAddDays(AddDays(d, a), b)
    ensures CanAddDays(d, a + b) && AddDays(AddDays(d, a), b) == AddDays(d, a + b)
  {
    OrdinalInjective(AddDays(AddDays(d, a), b), AddDays(d, a + b));
  }

  /** The next day on the calendar, written out month by month. */
  function Successor(d: Date): (r: Date)
    requires ValidDate(d) && d != Date(MaxYear, 12, 31)
    ensures ValidDate(r)
  {
    if d.day < DaysInMonth(d.year, d.month) then Date(d.year, d.month, d.day + 1)
    else if d.month < 12 then Date(d.year, d.month + 1, 1)
    else Date(d.year + 1, 1, 1)
  }

  lemma SuccessorOrdinal(d: Date)
    requires ValidDate(d) && d != Date(MaxYear, 12, 31)
    ensures Ordinal(Successor(d)) == Ordinal(d) + 1
  {
    DaysBeforeNextMonth(d.year, d.month);
    if d.month == 12 && d.day == 31 {
      DaysBeforeNextYear(d.year);
    }
  }

  /** Counting forward one calendar day at a time, `n` times. */
  function StepDays(d: Date, n: nat): (r: Date)
    requires ValidDate(d) && Ordinal(d) + n <= MaxOrdinal
    ensures ValidDate(r) && Ordinal(r) == Ordinal(d) + n
  {
    if n == 0 then d
    else
      var p := StepDays(d, n - 1);
      if p == Date(MaxYear, 12, 31) then
        assert false;
        p
      else
        SuccessorOrdinal(p);
        Successor(p)
  }

  /** Adding days through day numbers agrees with counting them off on the calendar. */
  lemma AddDaysIsStepping(d: Date, n: nat)
    requires ValidDate(d) && Ordinal(d) + n <= MaxOrdinal
    ensures AddDays(d, n) == StepDays(d, n)
  {
    OrdinalInjective(AddDays(d, n), StepDays(d, n));
  }
}
