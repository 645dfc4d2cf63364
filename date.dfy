/**
 * The date calculator: shifting a date by a number of days, and the
 * distance between two dates in days, weeks, months and years.
 */
module DateCalculator {
  import opened Common
  import opened Calendar

  /** The date n days after (operation "add") or before (any other operation) the start. */
  function Shift(start: Date, n: int, operation: string): (r: Date)
    requires Valid(start)
    ensures Valid(r)
    ensures DayNumber(r) == DayNumber(start) + (if operation == "add" then n else -n)
  {
    AddDaysNumber(start, if operation == "add" then n else -n);
    AddDays(start, if operation == "add" then n else -n)
  }

  /** The handler's setDate(getDate() + k), with k = n to add and k = -n to subtract, lands on Shift. */
  lemma SetDateIsShift(start: Date, n: int, operation: string, k: int)
    requires Valid(start) && k == (if operation == "add" then n else -n)
    ensures MakeDate(start.year, start.month, start.day + k) == Shift(start, n, operation)
  {
    SetDateShift(start, k);
  }

  /** Subtracting n days is adding -n days. */
  lemma SubtractIsAddNegated(start: Date, n: int, operation: string)
    requires Valid(start) && operation != "add"
    ensures Shift(start, n, operation) == Shift(start, -n, "add")
  {
  }

  /** Adding n days and then subtracting n days returns the start date. */
  lemma ShiftRoundTrip(start: Date, n: int)
    requires Valid(start)
    ensures Shift(Shift(start, n, "add"), n, "subtract") == start
  {
    DayNumberInjective(Shift(Shift(start, n, "add"), n, "subtract"), start);
  }

  datatype Difference = Difference(days: int, weeks: int, months: int, years: int)

  /**
   * The month count of the difference: 12 for each year and 1 for each month
   * of absolute distance, taken separately, less one when the second date's
   * day of the month is smaller than the first's.
   */
  function MonthsApart(d1: Date, d2: Date): int
  {
    IntAbs(d2.year - d1.year) * 12 + IntAbs(d2.month - d1.month)
      - (if d2.day < d1.day then 1 else 0)
  }

  /** What the difference tab shows for two dates. */
  function DateDifference(d1: Date, d2: Date): Difference
    requires Valid(d1) && Valid(d2)
  {
    var days := IntAbs(DayNumber(d2) - DayNumber(d1));
    var months := MonthsApart(d1, d2);
    Difference(days, days / 7, months, months / 12)
  }

  lemma SplitMonths(years: int, months: int, total: int)
    requires years * 12 + months == total && 0 <= months < 12
    ensures years == total / 12
  {
  }

  /** The handler's steps: absolute differences, then a month and a year borrow. */
  method ComputeDifference(d1: Date, d2: Date) returns (r: Difference)
    requires Valid(d1) && Valid(d2)
    ensures r == DateDifference(d1, d2)
  {
    var diffDays := IntAbs(DayNumber(d2) - DayNumber(d1));
    var diffWeeks := diffDays / 7;
    var years, months := YearsAndMonths(d1, d2);
    SplitMonths(years, months, MonthsApart(d1, d2));
    var totalMonths := years * 12 + months;
    r := Difference(diffDays, diffWeeks, totalMonths, years);
  }

  /**
   * The year and month components: absolute differences of the fields, less
   * a month when the second day of the month is smaller, and a year borrowed
   * when the months went below 0.  Together they make the month count.
   */
  method YearsAndMonths(d1: Date, d2: Date) returns (years: int, months: int)
    ensures years * 12 + months == MonthsApart(d1, d2)
    ensures 0 <= d1.month < 12 && 0 <= d2.month < 12 ==> 0 <= months < 12
  {
    years := IntAbs(d2.year - d1.year);
    months := IntAbs(d2.month - d1.month);
    if d2.day < d1.day {
      months := months - 1;
    }
    if months < 0 {
      years := years - 1;
      months := months + 12;
    }
  }

  /** Days and weeks do not depend on the order of the two dates, and are whole counts. */
  lemma DifferenceDays(d1: Date, d2: Date)
    requires Valid(d1) && Valid(d2)
    ensures DateDifference(d1, d2).days == DateDifference(d2, d1).days >= 0
    ensures DateDifference(d1, d2).weeks == DateDifference(d2, d1).weeks
    ensures var r := DateDifference(d1, d2); 7 * r.weeks <= r.days < 7 * r.weeks + 7
    ensures DateDifference(d1, d2).days == 0 <==> d1 == d2
  {
    if DayNumber(d1) == DayNumber(d2) {
      DayNumberInjective(d1, d2);
    }
  }

  /** The reported month total splits into whole years and a month component 0..11. */
  lemma DifferenceMonths(d1: Date, d2: Date)
    requires Valid(d1) && Valid(d2)
    ensures var r := DateDifference(d1, d2); 0 <= r.months - 12 * r.years <= 11
  {
  }

  /**
   * The year count is -1 exactly when both dates are in the same month of the
   * same year and the second has the smaller day of the month.
   */
  lemma NegativeYears(d1: Date, d2: Date)
    requires Valid(d1) && Valid(d2)
    ensures DateDifference(d1, d2).years == -1 <==>
      (d1.year == d2.year && d1.month == d2.month && d2.day < d1.day)
    ensures DateDifference(d1, d2).years >= -1
  {
  }

  /** From 1 January 2024 to 1 March 2024: 60 days, 8 weeks, 2 months, 0 years. */
  lemma LeapYearExample()
    ensures DateDifference(Date(2024, 0, 1), Date(2024, 2, 1)) == Difference(60, 8, 2, 0)
  {
  }

  /** The add/subtract tab's text: a date, or "Invalid Date" for an unreadable start date. */
  datatype DateText = ShownDate(date: Date) | InvalidDate

  /** The page's two result fields; None stands for nothing shown yet. */
  class DatePage {
    var result1: Option<DateText>
    var result2: Option<Difference>

    constructor ()
      ensures result1 == None && result2 == None
    {
      result1 := None;
      result2 := None;
    }

    /**
     * The add/subtract tab; a day count that does not parse changes nothing.
     * An empty start date is an invalid Date, which setDate leaves invalid.
     */
    method CalculateDateAddSubtract(startDate: Option<Date>, daysToAdd: Option<int>, operation: string)
      requires startDate.Some? ==> Valid(startDate.value)
      modifies this
      ensures daysToAdd.None? ==> result1 == old(result1)
      ensures daysToAdd.Some? && startDate.None? ==> result1 == Some(InvalidDate)
      ensures daysToAdd.Some? && startDate.Some? ==>
        result1 == Some(ShownDate(Shift(startDate.value, daysToAdd.value, operation)))
      ensures result2 == old(result2)
    {
      if daysToAdd.None? {
        return;
      }
      if startDate.None? {
        result1 := Some(InvalidDate);
        return;
      }
      var days := daysToAdd.value;
      var date := startDate.value;
      if operation == "add" {
        date := MakeDate(date.year, date.month, date.day + days);
        SetDateIsShift(startDate.value, days, operation, days);
      } else {
        date := MakeDate(date.year, date.month, date.day - days);
        SetDateIsShift(startDate.value, days, operation, -days);
      }
      result1 := Some(ShownDate(date));
    }

    /** The difference tab; a missing date changes nothing. */
    method CalculateDateDifference(date1: Option<Date>, date2: Option<Date>)
      requires date1.Some? ==> Valid(date1.value)
      requires date2.Some? ==> Valid(date2.value)
      modifies this
      ensures date1.None? || date2.None? ==> result2 == old(result2)
      ensures date1.Some? && date2.Some? ==>
        result2 == Some(DateDifference(date1.value, date2.value))
      ensures result1 == old(result1)
    {
      if date1.None? || date2.None? {
        return;
      }
      var r := ComputeDifference(date1.value, date2.value);
      result2 := Some(r);
    }
  }
}
