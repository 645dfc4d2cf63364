/**
 * The age calculator: the years, months and days from a birth date to a
 * target date, the whole-day and whole-week totals, and the next birthday.
 */
module AgeCalculator {
  import opened Common
  import opened Calendar

  datatype AgeResult = AgeResult(
    years: int, months: int, days: int,
    totalDays: int, totalWeeks: int, totalMonths: int,
    nextBirthday: Date, daysUntilBirthday: int)

  /**
   * Whole months lived: the calendar-month distance, less one when the
   * target's day of the month has not reached the birth day.
   */
  function ElapsedMonths(birth: Date, target: Date): int
  {
    (target.year - birth.year) * 12 + (target.month - birth.month)
      - (if target.day < birth.day then 1 else 0)
  }

  /**
   * The length of the month before the target's month, read off day 0 of the
   * target's month as `new Date` builds it, so in the constructor's year.
   */
  function PreviousMonthLength(target: Date): (r: int)
    requires 0 <= target.month < 12
    ensures 28 <= r <= 31
  {
    if target.month == 0 then 31 else DaysInMonth(ConstructorYear(target.year), target.month - 1)
  }

  /**
   * The month borrowed is the one before the target's in the target's own
   * year, except in March of year 0: `new Date` reads that year as 1900,
   * whose February has 28 days where year 0's has 29.
   */
  lemma PreviousMonthOwnYear(target: Date)
    requires 0 <= target.month < 12
    ensures !(target.year == 0 && target.month == 2) ==>
      PreviousMonthLength(target) == (if target.month == 0 then 31 else DaysInMonth(target.year, target.month - 1))
    ensures target.year == 0 && target.month == 2 ==>
      PreviousMonthLength(target) == 28 && DaysInMonth(target.year, 1) == 29
  {
    if 1 <= target.year <= 99 {
      LeapCentury(target.year);
    }
  }

  /** A year from 1 to 99 is a leap year exactly when 1900 more is. */
  lemma LeapCentury(y: int)
    requires 1 <= y <= 99
    ensures IsLeapYear(1900 + y) == IsLeapYear(y)
  {
    assert (1900 + y) % 4 == y % 4;
    assert (1900 + y) % 100 != 0 && (1900 + y) % 400 != 0;
  }

  /**
   * The next birthday: the birth month and day in the target's year, built by
   * `new Date`, if that is after the target; else that date moved on a year by
   * `setFullYear`. NextBirthdayAhead shows it lies strictly after the target.
   */
  function NextBirthday(birth: Date, target: Date): Date
    requires Valid(birth) && Valid(target)
  {
    var thisYear := NewDate(target.year, birth.month, birth.day);
    if DayNumber(target) < DayNumber(thisYear) then thisYear
    else MakeDate(target.year + 1, thisYear.month, thisYear.day)
  }

  /** What the page shows for a birth date and a target date; None when birth is later. */
  function Age(birth: Date, target: Date): Option<AgeResult>
    requires Valid(birth) && Valid(target)
  {
    if Before(target, birth) then None
    else
      var elapsed := ElapsedMonths(birth, target);
      var totalDays := DayNumber(target) - DayNumber(birth);
      var next := NextBirthday(birth, target);
      Some(AgeResult(
        elapsed / 12, elapsed % 12,
        target.day - birth.day + (if target.day < birth.day then PreviousMonthLength(target) else 0),
        totalDays, totalDays / 7, elapsed,
        next, DayNumber(next) - DayNumber(target)))
  }

  lemma SplitMonths(years: int, months: int, total: int)
    requires years * 12 + months == total && 0 <= months < 12
    ensures years == total / 12 && months == total % 12
  {
  }

  /** Birth month and day in the target's year, moved on a year by setFullYear when not ahead. */
  method ComputeNextBirthday(birth: Date, target: Date) returns (next: Date)
    requires Valid(birth) && Valid(target)
    ensures next == NextBirthday(birth, target)
  {
    next := NewDate(target.year, birth.month, birth.day);
    if DayNumber(next) <= DayNumber(target) {
      NextBirthdayIsLater(birth, target);
      next := MakeDate(target.year + 1, next.month, next.day);
    } else {
      NextBirthdayIsThisYear(birth, target);
    }
  }

  /** The day and month borrowing steps of the handler. */
  method Borrow(birth: Date, target: Date) returns (years: int, months: int, days: int)
    requires Valid(birth) && Valid(target)
    ensures years == ElapsedMonths(birth, target) / 12
    ensures months == ElapsedMonths(birth, target) % 12
    ensures years * 12 + months == ElapsedMonths(birth, target)
    ensures days == target.day - birth.day
      + (if target.day < birth.day then PreviousMonthLength(target) else 0)
  {
    years := target.year - birth.year;
    months := target.month - birth.month;
    days := target.day - birth.day;
    if days < 0 {
      months := months - 1;
      var lastMonth := NewDate(target.year, target.month, 0);
      MakeDateDayZero(ConstructorYear(target.year), target.month);
      days := days + lastMonth.day;
    }
    if months < 0 {
      years := years - 1;
      months := months + 12;
    }
    SplitMonths(years, months, ElapsedMonths(birth, target));
  }

  /** The handler's steps compute Age. */
  method ComputeAge(birth: Date, target: Date) returns (r: Option<AgeResult>)
    requires Valid(birth) && Valid(target)
    ensures r == Age(birth, target)
  {
    DayNumberOrder(target, birth);
    if DayNumber(birth) > DayNumber(target) {
      return None;
    }
    var years, months, days := Borrow(birth, target);
    var totalDays := DayNumber(target) - DayNumber(birth);
    var totalWeeks := totalDays / 7;
    var totalMonths := years * 12 + months;
    var nextBirthday := ComputeNextBirthday(birth, target);
    var daysUntilBirthday := DayNumber(nextBirthday) - DayNumber(target);
    AgeInSteps(birth, target, years, months, days, totalDays, totalWeeks, totalMonths, nextBirthday, daysUntilBirthday);
    r := Some(AgeResult(years, months, days, totalDays, totalWeeks, totalMonths,
                        nextBirthday, daysUntilBirthday));
  }

  /** The components the handler computes one by one make up Age. */
  lemma AgeInSteps(birth: Date, target: Date, years: int, months: int, days: int,
                   totalDays: int, totalWeeks: int, totalMonths: int, next: Date, daysUntil: int)
    requires Valid(birth) && Valid(target) && !Before(target, birth)
    requires years == ElapsedMonths(birth, target) / 12 && months == ElapsedMonths(birth, target) % 12
    requires years * 12 + months == ElapsedMonths(birth, target)
    requires days == target.day - birth.day + (if target.day < birth.day then PreviousMonthLength(target) else 0)
    requires totalDays == DayNumber(target) - DayNumber(birth) && totalWeeks == totalDays / 7
    requires totalMonths == years * 12 + months
    requires next == NextBirthday(birth, target) && daysUntil == DayNumber(next) - DayNumber(target)
    ensures Age(birth, target).Some?
    ensures Age(birth, target).value.years == years && Age(birth, target).value.months == months
    ensures Age(birth, target).value.days == days
    ensures Age(birth, target).value.totalDays == totalDays && Age(birth, target).value.totalWeeks == totalWeeks
    ensures Age(birth, target).value.totalMonths == totalMonths
    ensures Age(birth, target).value.nextBirthday == next
    ensures Age(birth, target).value.daysUntilBirthday == daysUntil
  {
  }

  /** There is a result exactly when the birth date is not after the target. */
  lemma AgeDefined(birth: Date, target: Date)
    requires Valid(birth) && Valid(target)
    ensures Age(birth, target).Some? <==> !Before(target, birth)
  {
    DayNumberOrder(target, birth);
  }

  /** The components and totals of an age are in range and agree with each other. */
  lemma AgeBounds(birth: Date, target: Date)
    requires Valid(birth) && Valid(target) && Age(birth, target).Some?
    ensures var a := Age(birth, target).value;
      && 0 <= a.months <= 11 && a.years >= 0
      && a.totalMonths == a.years * 12 + a.months
      && a.totalDays == DayNumber(target) - DayNumber(birth) >= 0
      && 7 * a.totalWeeks <= a.totalDays < 7 * a.totalWeeks + 7
      && a.daysUntilBirthday >= 1
      && (!(0 <= target.year <= 99) ==> a.daysUntilBirthday <= 366)
  {
    DayNumberOrder(target, birth);
    NextBirthdayAhead(birth, target);
  }

  /** The day component borrows the length of the month before the target's. */
  lemma AgeDaysBorrow(birth: Date, target: Date)
    requires Valid(birth) && Valid(target) && Age(birth, target).Some?
    ensures target.day >= birth.day ==> Age(birth, target).value.days == target.day - birth.day
    ensures target.day < birth.day ==>
      Age(birth, target).value.days == target.day - birth.day + PreviousMonthLength(target)
  {
  }

  /** Born 31 January, measured on 1 March of a common year: the day component is -2. */
  lemma AgeNegativeDays()
    ensures Age(Date(2023, 0, 31), Date(2023, 2, 1))
      == Some(AgeResult(0, 1, -2, 29, 4, 1, Date(2024, 0, 31), 336))
  {
    var birth := Date(2023, 0, 31);
    var target := Date(2023, 2, 1);
    MakeDateExact(birth);
    assert NewDate(2023, 0, 31) == birth;
    assert DayNumber(target) - DayNumber(birth) == 29;
    NextBirthdayIsLater(birth, target);
    MakeDateExact(Date(2024, 0, 31));
    assert NextBirthday(birth, target) == Date(2024, 0, 31);
  }

  /** The same month one year later is a year's length on, counting the later February when it is passed. */
  lemma YearLater(y: int, m: int)
    requires 0 <= m < 12
    ensures DayNumber(Date(y + 1, m, 1)) - DayNumber(Date(y, m, 1))
      == (if m >= 2 then DaysInYear(y + 1) else DaysInYear(y))
  {
    YearStep(y);
  }

  /** A birthday in year y moved on a year by setFullYear lands at most 366 days later, in year y + 1. */
  lemma OneYearOn(c: Date, y: int)
    requires Valid(c) && c.year == y
    ensures var next := MakeDate(y + 1, c.month, c.day);
      && DayNumber(c) < DayNumber(next) <= DayNumber(c) + 366
      && next.year == y + 1
  {
    ThisYearBirthday(c, y + 1);
    YearLater(y, c.month);
    if c.month == 1 && c.day == 29 && !IsLeapYear(y + 1) {
      YearLater(y, 2);
      MonthStep(y, 1);
    }
  }

  /**
   * The next birthday lies strictly after the target. For a target year from
   * 0 to 99 it is the birth month and day in year 1900 + y; for any other year
   * it is in the target's year or the next, at most 366 days ahead.
   */
  lemma NextBirthdayAhead(birth: Date, target: Date)
    requires Valid(birth) && Valid(target)
    ensures var next := NextBirthday(birth, target);
      && DayNumber(target) < DayNumber(next)
      && (0 <= target.year <= 99 ==>
            next == NewDate(target.year, birth.month, birth.day) && next.year == 1900 + target.year)
      && (!(0 <= target.year <= 99) ==>
            DayNumber(next) <= DayNumber(target) + 366
            && (next.year == target.year || next.year == target.year + 1))
  {
    if DayNumber(NewDate(target.year, birth.month, birth.day)) <= DayNumber(target) {
      BirthdayPassed(birth, target);
      NextBirthdayIsLater(birth, target);
    } else {
      BirthdayToCome(birth, target);
    }
  }

  /**
   * When this year's birthday is after the target, it is the next one, in the
   * constructor's year, and less than 366 days on unless the year has two digits.
   */
  lemma BirthdayToCome(birth: Date, target: Date)
    requires Valid(birth) && Valid(target)
    requires DayNumber(target) < DayNumber(NewDate(target.year, birth.month, birth.day))
    ensures var next := NextBirthday(birth, target);
      && next == NewDate(target.year, birth.month, birth.day)
      && next.year == ConstructorYear(target.year)
      && (!(0 <= target.year <= 99) ==> DayNumber(next) <= DayNumber(target) + 366)
  {
    var thisYear := NewDate(target.year, birth.month, birth.day);
    NextBirthdayIsThisYear(birth, target);
    BirthdayYear(birth, target.year);
    if !(0 <= target.year <= 99) {
      SameYear(thisYear, target);
    }
  }

  /**
   * When this year's birthday is not after the target, the target's year is
   * not a two-digit one, and the birthday moved on a year by `setFullYear`
   * lies within 366 days after the target, in the next year.
   */
  lemma BirthdayPassed(birth: Date, target: Date)
    requires Valid(birth) && Valid(target)
    requires DayNumber(NewDate(target.year, birth.month, birth.day)) <= DayNumber(target)
    ensures !(0 <= target.year <= 99)
    ensures var thisYear := NewDate(target.year, birth.month, birth.day);
      var later := MakeDate(target.year + 1, thisYear.month, thisYear.day);
      && DayNumber(target) < DayNumber(later) <= DayNumber(target) + 366
      && later.year == target.year + 1
  {
    var thisYear := NewDate(target.year, birth.month, birth.day);
    BirthdayYear(birth, target.year);
    if 0 <= target.year <= 99 {
      BeforeOrdersDayNumbers(target, thisYear);
    }
    LaterWithinYear(thisYear, target);
  }

  /** A birthday already passed this year is moved on a year by `setFullYear`. */
  lemma NextBirthdayIsLater(birth: Date, target: Date)
    requires Valid(birth) && Valid(target)
    requires DayNumber(NewDate(target.year, birth.month, birth.day)) <= DayNumber(target)
    ensures var thisYear := NewDate(target.year, birth.month, birth.day);
      NextBirthday(birth, target) == MakeDate(target.year + 1, thisYear.month, thisYear.day)
  {
    var thisYear := NewDate(target.year, birth.month, birth.day);
    assert !(DayNumber(target) < DayNumber(thisYear));
  }

  /** A birthday still to come this year is the next birthday. */
  lemma NextBirthdayIsThisYear(birth: Date, target: Date)
    requires Valid(birth) && Valid(target)
    requires DayNumber(target) < DayNumber(NewDate(target.year, birth.month, birth.day))
    ensures NextBirthday(birth, target) == NewDate(target.year, birth.month, birth.day)
  {
  }

  /** A birthday in the target's year, not after the target, moved on a year lands within the window. */
  lemma LaterWithinYear(thisYear: Date, target: Date)
    requires Valid(thisYear) && Valid(target) && thisYear.year == target.year
    requires DayNumber(thisYear) <= DayNumber(target)
    ensures var later := MakeDate(target.year + 1, thisYear.month, thisYear.day);
      && DayNumber(target) < DayNumber(later) <= DayNumber(target) + 366
      && later.year == target.year + 1
  {
    OneYearOn(thisYear, target.year);
    PassedWindow(target, thisYear, MakeDate(target.year + 1, thisYear.month, thisYear.day));
  }

  lemma PassedWindow(t: Date, c: Date, n: Date)
    requires Valid(t) && Valid(c) && Valid(n) && n.year == t.year + 1
    requires DayNumber(c) <= DayNumber(t) && DayNumber(n) <= DayNumber(c) + 366
    ensures DayNumber(t) < DayNumber(n) <= DayNumber(t) + 366
  {
    BeforeOrdersDayNumbers(t, n);
  }

  /** `new Date` places the birthday in the constructor's year, `setFullYear` in the year given. */
  lemma BirthdayYear(birth: Date, y: int)
    requires Valid(birth)
    ensures NewDate(y, birth.month, birth.day).year == ConstructorYear(y)
    ensures MakeDate(y, birth.month, birth.day).year == y
  {
    ThisYearBirthday(birth, y);
  }

  lemma SameYear(c: Date, t: Date)
    requires Valid(c) && Valid(t) && c.year == t.year
    ensures DayNumber(c) < DayNumber(t) + 366
  {
    WithinYear(c);
    WithinYear(t);
  }

  /**
   * The birthday placed in a year stays in that year: itself, or 1 March for
   * 29 February of a common year. `setFullYear` places it in the year given,
   * `new Date` in the constructor's year.
   */
  lemma ThisYearBirthday(birth: Date, y: int)
    requires Valid(birth)
    ensures var b := MakeDate(y, birth.month, birth.day);
      if birth.month == 1 && birth.day == 29 && !IsLeapYear(y) then b == Date(y, 2, 1)
      else b == Date(y, birth.month, birth.day)
    ensures var c := ConstructorYear(y); var b := NewDate(y, birth.month, birth.day);
      if birth.month == 1 && birth.day == 29 && !IsLeapYear(c) then b == Date(c, 2, 1)
      else b == Date(c, birth.month, birth.day)
  {
    PlacedBirthday(birth, y);
    PlacedBirthday(birth, ConstructorYear(y));
  }

  lemma PlacedBirthday(birth: Date, y: int)
    requires Valid(birth)
    ensures var b := MakeDate(y, birth.month, birth.day);
      if birth.month == 1 && birth.day == 29 && !IsLeapYear(y) then b == Date(y, 2, 1)
      else b == Date(y, birth.month, birth.day)
  {
    if birth.month == 1 && birth.day == 29 && !IsLeapYear(y) {
      MakeDateLeapDay(y);
    } else {
      MakeDateExact(Date(y, birth.month, birth.day));
    }
  }

  /** Apart from 29 February, the next birthday falls on the birth month and day. */
  lemma NextBirthdayDate(birth: Date, target: Date)
    requires Valid(birth) && Valid(target) && !(birth.month == 1 && birth.day == 29)
    ensures var next := NextBirthday(birth, target);
      next.month == birth.month && next.day == birth.day
  {
    ThisYearBirthday(birth, target.year);
    ThisYearBirthday(birth, target.year + 1);
  }

  /**
   * Born on 29 February, measured in a common year that is not a two-digit
   * one: this year's birthday overflows to 1 March, and once that has passed,
   * moving it on a year gives 1 March of the next year, even when 29 February
   * exists there.
   */
  lemma LeapDayBirthday(birth: Date, target: Date)
    requires Valid(birth) && Valid(target) && birth.month == 1 && birth.day == 29
    requires !IsLeapYear(target.year) && !(0 <= target.year <= 99)
    ensures DayNumber(target) < DayNumber(Date(target.year, 2, 1)) ==>
      NextBirthday(birth, target) == Date(target.year, 2, 1)
    ensures DayNumber(Date(target.year, 2, 1)) <= DayNumber(target) ==>
      NextBirthday(birth, target) == Date(target.year + 1, 2, 1)
  {
    MakeDateLeapDay(target.year);
    MakeDateExact(Date(target.year + 1, 2, 1));
  }

  /** What the page shows: an age, or the NaN figures an unreadable target date gives. */
  datatype AgeDisplay = Shown(age: AgeResult) | InvalidTarget

  /** The page; results keeps the last computed age. */
  class AgePage {
    var results: Option<AgeDisplay>

    constructor ()
      ensures results == None
    {
      results := None;
    }

    /**
     * The Calculate button. An empty birth date, or a birth after the target,
     * changes nothing. An empty target date is an invalid Date: the guard's
     * comparison with it is false, so the page stores NaN figures and an
     * invalid next birthday.
     */
    method CalculateAge(birthDate: Option<Date>, targetDate: Option<Date>)
      requires birthDate.Some? ==> Valid(birthDate.value)
      requires targetDate.Some? ==> Valid(targetDate.value)
      modifies this
      ensures birthDate.None? ==> results == old(results)
      ensures birthDate.Some? && targetDate.None? ==> results == Some(InvalidTarget)
      ensures birthDate.Some? && targetDate.Some? && Age(birthDate.value, targetDate.value).None? ==>
        results == old(results)
      ensures birthDate.Some? && targetDate.Some? && Age(birthDate.value, targetDate.value).Some? ==>
        results == Some(Shown(Age(birthDate.value, targetDate.value).value))
    {
      if birthDate.None? {
        return;
      }
      if targetDate.None? {
        results := Some(InvalidTarget);
        return;
      }
      var r := ComputeAge(birthDate.value, targetDate.value);
      if r.Some? {
        results := Some(Shown(r.value));
      }
    }
  }
}
