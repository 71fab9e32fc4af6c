/**
 * Dates as whole day numbers, the part of java.util.Calendar the warranty
 * rules use (day of week, adding days), and the proleptic Gregorian
 * calendar that turns a dd/MM/yyyy date into a day number.
 *
 * A day number counts days from 1970-01-01, which was a Thursday.
 */
module Calendario {

  // Day-of-week values as java.util.Calendar numbers them.
  const SUNDAY: int := 1
  const MONDAY: int := 2
  const TUESDAY: int := 3
  const WEDNESDAY: int := 4
  const THURSDAY: int := 5
  const FRIDAY: int := 6
  const SATURDAY: int := 7

  /** Calendar.get(DAY_OF_WEEK) of the day numbered d. */
  function DayOfWeek(d: int): (w: int)
    ensures SUNDAY <= w <= SATURDAY
  {
    (d + 4) % 7 + 1
  }

  /** The weekday advances by one each day, wrapping from Saturday to Sunday. */
  lemma DayOfWeekNext(d: int)
    ensures DayOfWeek(d + 1) == if DayOfWeek(d) == SATURDAY then SUNDAY else DayOfWeek(d) + 1
  {
  }

  /** The weekday repeats every seven days. */
  lemma DayOfWeekPeriod(d: int, k: int)
    ensures DayOfWeek(d + 7 * k) == DayOfWeek(d)
  {
  }

  /**
   * The stand-in for a java.util.Calendar: one instant, held as a day number
   * (time of day, time zone and daylight saving time are not modelled).
   */
  class Calendar {
    var time: int

    /** Calendar.getInstance() followed by setTime(t). */
    constructor (t: int)
      ensures time == t
    {
      time := t;
    }

    /** Calendar.get(DAY_OF_WEEK). */
    function GetDayOfWeek(): (w: int)
      reads this
      ensures SUNDAY <= w <= SATURDAY
      ensures w == DayOfWeek(time)
    {
      DayOfWeek(time)
    }

    /** Calendar.add(DAY_OF_YEAR, days): moves this calendar by whole days. */
    method AddDays(days: int)
      modifies this
      ensures time == old(time) + days
    {
      time := time + days;
    }
  }

  /** A date as day, month and year (the dd/MM/yyyy format). */
  datatype CivilDate = CivilDate(year: int, month: int, day: int)

  predicate IsLeapYear(y: int)
  {
    y % 4 == 0 && (y % 100 != 0 || y % 400 == 0)
  }

  function DaysInMonth(y: int, m: int): (n: int)
    requires 1 <= m <= 12
    ensures 28 <= n <= 31
    ensures m == 2 ==> (n == 29 <==> IsLeapYear(y))
  {
    if m == 2 then (if IsLeapYear(y) then 29 else 28)
    else if m == 4 || m == 6 || m == 9 || m == 11 then 30
    else 31
  }

  predicate IsValidDate(c: CivilDate)
  {
    1 <= c.month <= 12 && 1 <= c.day <= DaysInMonth(c.year, c.month)
  }

  /** The calendar date of the following day. */
  function NextDate(c: CivilDate): (r: CivilDate)
    requires IsValidDate(c)
    ensures IsValidDate(r)
    ensures r.year == c.year || (r.year == c.year + 1 && r.month == 1 && r.day == 1)
  {
    if c.day < DaysInMonth(c.year, c.month) then CivilDate(c.year, c.month, c.day + 1)
    else if c.month < 12 then CivilDate(c.year, c.month + 1, 1)
    else CivilDate(c.year + 1, 1, 1)
  }

  // Day numbering works on years that start on March 1, so that the leap
  // day is the last day of its year. A year y of that kind lies in era
  // y / 400; position y % 400 within the era.

  /** Days from 0000-03-01 to the March 1 that starts March-based year y. */
  function MarchYearStart(y: int): int
  {
    (y / 400) * 146097 + (y % 400) * 365 + (y % 400) / 4 - (y % 400) / 100
  }

  /** Days from March 1 to the first of month mp, months counted from March (0-based). */
  function MonthOffset(mp: int): int
  {
    (153 * mp + 2) / 5
  }

  /** The day number of 1 January of calendar year y (the March-based year y - 1 is 306 days old then). */
  function YearStart(y: int): int
  {
    MarchYearStart(y - 1) + MonthOffset(10) - 719468
  }

  /**
   * The day number of a calendar date (SimpleDateFormat("dd/MM/yyyy").parse):
   * a valid date falls inside its own year, counted from that year's 1 January.
   */
  function DaysFromCivil(c: CivilDate): (n: int)
    ensures IsValidDate(c) ==>
      YearStart(c.year) <= n < YearStart(c.year) + 365 + (if IsLeapYear(c.year) then 1 else 0)
  {
    MarchYearLength(c.year - 1);
    var y := if c.month <= 2 then c.year - 1 else c.year;
    var mp := if c.month > 2 then c.month - 3 else c.month + 9;
    MarchYearStart(y) + MonthOffset(mp) + c.day - 1 - 719468
  }

  /** Adding whole multiples of 4 keeps the remainder by 4. */
  lemma Mod4Shift(k: int, b: int)
    ensures (4 * k + b) % 4 == b % 4
  {
  }

  /** Adding whole multiples of 100 keeps the remainder by 100. */
  lemma Mod100Shift(k: int, b: int)
    ensures (100 * k + b) % 100 == b % 100
  {
  }

  /** The quotient and remainder of a year by the 400-year era. */
  lemma EraPosition(y: int, era: int, yoe: int)
    requires y == era * 400 + yoe && 0 <= yoe < 400
    ensures y / 400 == era && y % 400 == yoe
    ensures IsLeapYear(y) <==> IsLeapYear(yoe)
  {
    Mod4Shift(era * 100, yoe);
    Mod100Shift(era * 4, yoe);
  }

  /** Within an era, a March-based year has 366 days exactly when the next calendar year is leap. */
  lemma PositionStep(yoe: int)
    requires 0 <= yoe < 399
    ensures (yoe + 1) * 365 + (yoe + 1) / 4 - (yoe + 1) / 100 ==
            yoe * 365 + yoe / 4 - yoe / 100 + 365 + (if IsLeapYear(yoe + 1) then 1 else 0)
  {
    assert (yoe + 1) / 4 == yoe / 4 + (if (yoe + 1) % 4 == 0 then 1 else 0);
    assert (yoe + 1) / 100 == yoe / 100 + (if (yoe + 1) % 100 == 0 then 1 else 0);
  }

  /** A March-based year y has 366 days exactly when the calendar year y + 1 is a leap year. */
  lemma MarchYearLength(y: int)
    ensures MarchYearStart(y + 1) == MarchYearStart(y) + 365 + (if IsLeapYear(y + 1) then 1 else 0)
  {
    var era, yoe := y / 400, y % 400;
    EraPosition(y, era, yoe);
    if yoe == 399 {
      EraPosition(y + 1, era + 1, 0);
    } else {
      EraPosition(y + 1, era, yoe + 1);
      PositionStep(yoe);
    }
  }

  /** Day numbering agrees with the calendar: the next date has the next day number. */
  lemma {:induction false} DaysFromCivilNext(c: CivilDate)
    requires IsValidDate(c)
    ensures DaysFromCivil(NextDate(c)) == DaysFromCivil(c) + 1
  {
    var n := NextDate(c);
    if c.day < DaysInMonth(c.year, c.month) {
      assert n == CivilDate(c.year, c.month, c.day + 1);
      WithinMonthNext(c);
    } else if c.month == 2 {
      assert n == CivilDate(c.year, 3, 1);
      FebruaryEndNext(c);
    } else if c.month < 12 {
      assert n == CivilDate(c.year, c.month + 1, 1);
      MonthEndNext(c);
    } else {
      assert n == CivilDate(c.year + 1, 1, 1);
      YearEndNext(c);
    }
  }

  /** Inside a month, the next day is the next day of the same month. */
  lemma WithinMonthNext(c: CivilDate)
    requires IsValidDate(c) && c.day < DaysInMonth(c.year, c.month)
    ensures DaysFromCivil(CivilDate(c.year, c.month, c.day + 1)) == DaysFromCivil(c) + 1
  {
  }

  /** The day after 31 December is 1 January of the next year. */
  lemma YearEndNext(c: CivilDate)
    requires IsValidDate(c) && c.month == 12 && c.day == 31
    ensures DaysFromCivil(CivilDate(c.year + 1, 1, 1)) == DaysFromCivil(c) + 1
  {
  }

  /** The day after the last of February is 1 March, whether or not the year is leap. */
  lemma FebruaryEndNext(c: CivilDate)
    requires IsValidDate(c) && c.month == 2 && c.day == DaysInMonth(c.year, 2)
    ensures DaysFromCivil(CivilDate(c.year, 3, 1)) == DaysFromCivil(c) + 1
  {
    MarchYearLength(c.year - 1);
  }

  /** At the end of a month other than February and December, the next day is the 1st of the next month. */
  lemma MonthEndNext(c: CivilDate)
    requires IsValidDate(c) && c.day == DaysInMonth(c.year, c.month) && c.month != 2 && c.month < 12
    ensures DaysFromCivil(CivilDate(c.year, c.month + 1, 1)) == DaysFromCivil(c) + 1
  {
  }

  /** Day 0 is 1970-01-01, a Thursday. */
  lemma Epoch()
    ensures DaysFromCivil(CivilDate(1970, 1, 1)) == 0
    ensures DayOfWeek(0) == THURSDAY
  {
  }
}
