/**
 * Proleptic Gregorian calendar dates, as the date-based pages use JavaScript's
 * Date: a (year, month, day) triple with months counted from 0, a day number
 * standing in for the time value divided by the milliseconds of a day, and
 * the day-overflow normalisation of `new Date(y, m, d)` and `setDate` from
 * section 21.4.1.28 (MakeDay) of ECMA-262.  Time zones and daylight saving
 * are not part of this model: every date is midnight of one uniform clock.
 */
module Calendar {
  /** month is 0 for January through 11 for December, day is 1-based. */
  datatype Date = Date(year: int, month: int, day: int)

  predicate IsLeapYear(y: int)
  {
    y % 4 == 0 && (y % 100 != 0 || y % 400 == 0)
  }

  function DaysInMonth(y: int, m: int): (r: int)
    requires 0 <= m < 12
    ensures 28 <= r <= 31
    ensures m == 1 ==> (r == 29 <==> IsLeapYear(y))
  {
    if m == 1 then (if IsLeapYear(y) then 29 else 28)
    else if m == 3 || m == 5 || m == 8 || m == 10 then 30
    else 31
  }

  function DaysInYear(y: int): int
  {
    if IsLeapYear(y) then 366 else 365
  }

  predicate Valid(d: Date)
  {
    0 <= d.month < 12 && 1 <= d.day <= DaysInMonth(d.year, d.month)
  }

  /** Days from 1 January of year 0 to 1 January of year y. */
  function DaysBeforeYear(y: int): int
  {
    365 * y + (y + 3) / 4 - (y + 99) / 100 + (y + 399) / 400
  }

  /** Days from 1 January to the first of month m (m == 12 gives the whole year). */
  function DaysBeforeMonth(y: int, m: int): (r: int)
    requires 0 <= m <= 12
    ensures 0 <= r
  {
    [0, 31, 59, 90, 120, 151, 181, 212, 243, 273, 304, 334, 365][m]
      + (if m >= 2 && IsLeapYear(y) then 1 else 0)
  }

  /** The day number of a date; the difference of two is their distance in days. */
  function DayNumber(d: Date): int
    requires 0 <= d.month < 12
  {
    DaysBeforeYear(d.year) + DaysBeforeMonth(d.year, d.month) + d.day - 1
  }

  lemma Step4(y: int)
    ensures (y + 4) / 4 - (y + 3) / 4 == (if y % 4 == 0 then 1 else 0)
  {
  }

  lemma Step100(y: int)
    ensures (y + 100) / 100 - (y + 99) / 100 == (if y % 100 == 0 then 1 else 0)
  {
  }

  lemma Step400(y: int)
    ensures (y + 400) / 400 - (y + 399) / 400 == (if y % 400 == 0 then 1 else 0)
  {
  }

  lemma MultipleOf400(y: int)
    requires y % 400 == 0
    ensures y % 100 == 0
  {
    var k := y / 400;
    assert y == 100 * (4 * k);
  }

  lemma MultipleOf100(y: int)
    requires y % 100 == 0
    ensures y % 4 == 0
  {
    var k := y / 100;
    assert y == 4 * (25 * k);
  }

  /** Consecutive years are a year's length apart. */
  lemma YearStep(y: int)
    ensures DaysBeforeYear(y + 1) == DaysBeforeYear(y) + DaysInYear(y)
  {
    Step4(y);
    Step100(y);
    Step400(y);
    if y % 400 == 0 {
      MultipleOf400(y);
      MultipleOf100(y);
    } else if y % 100 == 0 {
      MultipleOf100(y);
    }
    assert DaysBeforeYear(y + 1) - DaysBeforeYear(y)
      == 365 + ((y + 4) / 4 - (y + 3) / 4) - ((y + 100) / 100 - (y + 99) / 100)
         + ((y + 400) / 400 - (y + 399) / 400);
  }

  /** Every day of an earlier year comes before 1 January of a later year. */
  lemma {:induction false} YearsIncrease(y1: int, y2: int)
    requires y1 < y2
    ensures DaysBeforeYear(y1) + DaysInYear(y1) <= DaysBeforeYear(y2)
    decreases y2 - y1
  {
    YearStep(y1);
    if y1 + 1 < y2 {
      YearsIncrease(y1 + 1, y2);
      YearStep(y1 + 1);
    }
  }

  lemma MonthStep(y: int, m: int)
    requires 0 <= m < 12
    ensures DaysBeforeMonth(y, m + 1) == DaysBeforeMonth(y, m) + DaysInMonth(y, m)
  {
  }

  /** A valid date lies inside its year and inside its month. */
  lemma WithinYear(d: Date)
    requires Valid(d)
    ensures DaysBeforeYear(d.year) <= DayNumber(d) < DaysBeforeYear(d.year) + DaysInYear(d.year)
    ensures DayNumber(d) < DayNumber(Date(d.year, d.month, 1)) + DaysInMonth(d.year, d.month)
  {
    MonthStep(d.year, d.month);
  }

  /** Lexicographic order of (year, month, day). */
  predicate Before(a: Date, b: Date)
  {
    a.year < b.year
    || (a.year == b.year && a.month < b.month)
    || (a.year == b.year && a.month == b.month && a.day < b.day)
  }

  /** The day number is strictly monotone in calendar order. */
  lemma BeforeOrdersDayNumbers(a: Date, b: Date)
    requires Valid(a) && Valid(b) && Before(a, b)
    ensures DayNumber(a) < DayNumber(b)
  {
    WithinYear(a);
    WithinYear(b);
    if a.year < b.year {
      YearsIncrease(a.year, b.year);
    } else if a.month < b.month {
      MonthStep(a.year, a.month);
      if a.month + 1 < b.month {
        MonthsIncrease(a.year, a.month + 1, b.month);
      }
    }
  }

  lemma MonthsIncrease(y: int, m1: int, m2: int)
    requires 0 <= m1 <= m2 <= 12
    ensures DaysBeforeMonth(y, m1) <= DaysBeforeMonth(y, m2)
  {
  }

  /** Distinct valid dates have distinct day numbers. */
  lemma DayNumberInjective(a: Date, b: Date)
    requires Valid(a) && Valid(b) && DayNumber(a) == DayNumber(b)
    ensures a == b
  {
    if Before(a, b) {
      BeforeOrdersDayNumbers(a, b);
    } else if Before(b, a) {
      BeforeOrdersDayNumbers(b, a);
    }
  }

  /** Comparing day numbers is comparing the dates in calendar order. */
  lemma DayNumberOrder(a: Date, b: Date)
    requires Valid(a) && Valid(b)
    ensures DayNumber(a) < DayNumber(b) <==> Before(a, b)
  {
    if Before(a, b) {
      BeforeOrdersDayNumbers(a, b);
    } else if Before(b, a) {
      BeforeOrdersDayNumbers(b, a);
    }
  }

  function NextDay(d: Date): Date
    requires Valid(d)
  {
    if d.day < DaysInMonth(d.year, d.month) then Date(d.year, d.month, d.day + 1)
    else if d.month < 11 then Date(d.year, d.month + 1, 1)
    else Date(d.year + 1, 0, 1)
  }

  function PrevDay(d: Date): Date
    requires Valid(d)
  {
    if d.day > 1 then Date(d.year, d.month, d.day - 1)
    else if d.month > 0 then Date(d.year, d.month - 1, DaysInMonth(d.year, d.month - 1))
    else Date(d.year - 1, 11, 31)
  }

  lemma NextDayNumber(d: Date)
    requires Valid(d)
    ensures Valid(NextDay(d)) && DayNumber(NextDay(d)) == DayNumber(d) + 1
  {
    MonthStep(d.year, d.month);
    if d.day == DaysInMonth(d.year, d.month) && d.month == 11 {
      YearStep(d.year);
    }
  }

  lemma PrevDayNumber(d: Date)
    requires Valid(d)
    ensures Valid(PrevDay(d)) && DayNumber(PrevDay(d)) == DayNumber(d) - 1
  {
    if d.day == 1 {
      if d.month > 0 {
        MonthStep(d.year, d.month - 1);
      } else {
        YearStep(d.year - 1);
      }
    }
  }

  /** The date n days after d (before it when n is negative). */
  function AddDays(d: Date, n: int): (r: Date)
    requires Valid(d)
    ensures Valid(r)
    decreases if n >= 0 then n else -n
  {
    if n == 0 then d
    else if n > 0 then (NextDayNumber(d); AddDays(NextDay(d), n - 1))
    else (PrevDayNumber(d); AddDays(PrevDay(d), n + 1))
  }

  lemma {:induction false} AddDaysNumber(d: Date, n: int)
    requires Valid(d)
    ensures DayNumber(AddDays(d, n)) == DayNumber(d) + n
  {
    if n >= 0 {
      AddDaysForward(d, n);
    } else {
      AddDaysBackward(d, -n);
    }
  }

  lemma {:induction false} AddDaysForward(d: Date, n: nat)
    requires Valid(d)
    ensures DayNumber(AddDays(d, n)) == DayNumber(d) + n
    decreases n
  {
    if n > 0 {
      NextDayNumber(d);
      assert AddDays(d, n) == AddDays(NextDay(d), n - 1);
      AddDaysForward(NextDay(d), n - 1);
    }
  }

  lemma {:induction false} AddDaysBackward(d: Date, n: nat)
    requires Valid(d)
    ensures DayNumber(AddDays(d, -(n as int))) == DayNumber(d) - n
    decreases n
  {
    if n > 0 {
      PrevDayNumber(d);
      assert AddDays(d, -(n as int)) == AddDays(PrevDay(d), -((n - 1) as int));
      AddDaysBackward(PrevDay(d), n - 1);
    }
  }

  /** AddDays(d, n) is the one valid date whose day number is n more than d's. */
  lemma AddDaysUnique(d: Date, n: int, e: Date)
    requires Valid(d) && Valid(e) && DayNumber(e) == DayNumber(d) + n
    ensures AddDays(d, n) == e
  {
    AddDaysNumber(d, n);
    DayNumberInjective(AddDays(d, n), e);
  }

  /** Moving forward n days and back n days returns to the start. */
  lemma AddDaysInverse(d: Date, n: int)
    requires Valid(d)
    ensures AddDays(AddDays(d, n), -n) == d
  {
    AddDaysNumber(d, n);
    AddDaysNumber(AddDays(d, n), -n);
    DayNumberInjective(AddDays(AddDays(d, n), -n), d);
  }

  /**
   * Day dd of month m of year y, where a dd outside the month overflows
   * into the neighbouring months (MakeDay in section 21.4.1 of ECMA-262).
   * `setFullYear` and `setDate` use the year exactly as given.
   */
  function MakeDate(y: int, m: int, dd: int): (r: Date)
    requires 0 <= m < 12
    ensures Valid(r) && DayNumber(r) == DayNumber(Date(y, m, 1)) + dd - 1
  {
    AddDaysNumber(Date(y, m, 1), dd - 1);
    AddDays(Date(y, m, 1), dd - 1)
  }

  /**
   * The year the `Date` constructor uses: a year from 0 to 99 is read as
   * 1900 + y (section 21.4.2.1 of ECMA-262).
   */
  function ConstructorYear(y: int): (r: int)
    ensures 0 <= y <= 99 ==> r == 1900 + y
    ensures !(0 <= y <= 99) ==> r == y
  {
    if 0 <= y <= 99 then 1900 + y else y
  }

  /** `new Date(y, m, dd)`: MakeDate in the constructor's year. */
  function NewDate(y: int, m: int, dd: int): (r: Date)
    requires 0 <= m < 12
    ensures Valid(r) && DayNumber(r) == DayNumber(Date(ConstructorYear(y), m, 1)) + dd - 1
    ensures !(0 <= y <= 99) ==> r == MakeDate(y, m, dd)
  {
    MakeDate(ConstructorYear(y), m, dd)
  }

  /** A day that exists in the month is kept as it is. */
  lemma MakeDateExact(d: Date)
    requires Valid(d)
    ensures MakeDate(d.year, d.month, d.day) == d
  {
    AddDaysUnique(Date(d.year, d.month, 1), d.day - 1, d);
  }

  /** Day 0 of a month is the last day of the month before it. */
  lemma MakeDateDayZero(y: int, m: int)
    requires 0 <= m < 12
    ensures MakeDate(y, m, 0) ==
      (if m == 0 then Date(y - 1, 11, 31) else Date(y, m - 1, DaysInMonth(y, m - 1)))
  {
    PrevDayNumber(Date(y, m, 1));
    AddDaysUnique(Date(y, m, 1), -1, PrevDay(Date(y, m, 1)));
  }

  /** 29 February of a common year overflows to 1 March. */
  lemma MakeDateLeapDay(y: int)
    requires !IsLeapYear(y)
    ensures MakeDate(y, 1, 29) == Date(y, 2, 1)
  {
    AddDaysUnique(Date(y, 1, 1), 28, Date(y, 2, 1));
  }

  /** `setDate(getDate() + n)` moves the date by exactly n days. */
  lemma SetDateShift(d: Date, n: int)
    requires Valid(d)
    ensures MakeDate(d.year, d.month, d.day + n) == AddDays(d, n)
  {
    var first := Date(d.year, d.month, 1);
    var e := AddDays(d, n);
    AddDaysNumber(d, n);
    FirstOfMonth(d);
    AddDaysUnique(first, d.day + n - 1, e);
  }

  lemma FirstOfMonth(d: Date)
    requires Valid(d)
    ensures Valid(Date(d.year, d.month, 1)) && DayNumber(d) == DayNumber(Date(d.year, d.month, 1)) + d.day - 1
  {
  }
}
