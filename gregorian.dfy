/**
  A proleptic-Gregorian model of the part of Foundation's `Calendar` that the
  calendar view models use: day-level dates as (year, month, day) triples,
  month lengths, the weekday in Foundation numbering (1 = Sunday ... 7 =
  Saturday), `date(byAdding:value:to:)` for months and years, and
  `isDate(_:equalTo:toGranularity:)`.

  Dates are already at the start of their day, so `startOfDay` is the identity
  on them.
 */
module Gregorian {

  /** A calendar date at the start of its day. */
  datatype Date = Date(year: int, month: int, day: int)

  /** The calendar components the view models add to or compare at. */
  datatype Granularity = Day | Month | Year

  /** Leap years: divisible by 4, except centuries not divisible by 400. */
  predicate IsLeapYear(year: int): (r: bool)
    ensures r ==> year % 4 == 0
    ensures year % 4 == 0 && year % 100 != 0 ==> r
    ensures year % 400 == 0 ==> r
    ensures year % 100 == 0 && year % 400 != 0 ==> !r
  {
    CenturyRule(year);
    year % 4 == 0 && (year % 100 != 0 || year % 400 == 0)
  }

  function DaysInYear(year: int): (n: int) {
    if IsLeapYear(year) then 366 else 365
  }

  /** The number of days of `month` in `year`. */
  function DaysInMonth(year: int, month: int): (n: int)
    requires 1 <= month <= 12
    ensures 28 <= n <= 31
  {
    if month == 2 then (if IsLeapYear(year) then 29 else 28)
    else if month == 4 || month == 6 || month == 9 || month == 11 then 30
    else 31
  }

  /** A date that names an existing day. */
  predicate IsValid(d: Date) {
    1 <= d.month <= 12 && 1 <= d.day <= DaysInMonth(d.year, d.month)
  }

  /** The days of the years before `year`, counted from 1 January of year 1. */
  function DaysBeforeYear(year: int): int {
    var p := year - 1;
    365 * p + p / 4 - p / 100 + p / 400
  }

  /** The days of the months of `year` before `month`. */
  function DaysBeforeMonth(year: int, month: int): (n: int)
    requires 1 <= month <= 13
    decreases month
  {
    if month == 1 then 0 else DaysBeforeMonth(year, month - 1) + DaysInMonth(year, month - 1)
  }

  /** The day number of `d`, where 1 January of year 1 is day 1. */
  function DayNumber(d: Date): int
    requires 1 <= d.month <= 12
  {
    DaysBeforeYear(d.year) + DaysBeforeMonth(d.year, d.month) + d.day
  }

  /** Foundation's weekday: 1 = Sunday ... 7 = Saturday (day 1 is a Monday). */
  function Weekday(d: Date): (w: int)
    requires 1 <= d.month <= 12
    ensures 1 <= w <= 7
  {
    DayNumber(d) % 7 + 1
  }

  /** The day after `d`. */
  function NextDay(d: Date): Date
    requires IsValid(d)
  {
    if d.day < DaysInMonth(d.year, d.month) then Date(d.year, d.month, d.day + 1)
    else if d.month < 12 then Date(d.year, d.month + 1, 1)
    else Date(d.year + 1, 1, 1)
  }

  /** The months of a year add up to the year's length. */
  lemma {:induction false} MonthsFillYear(year: int)
    ensures DaysBeforeMonth(year, 13) == DaysInYear(year)
  {
  }

  /** Consecutive years are `DaysInYear` apart. */
  lemma YearsAreConsecutive(year: int)
    ensures DaysBeforeYear(year + 1) == DaysBeforeYear(year) + DaysInYear(year)
  {
    LeapCount(year);
  }

  /** The leap days up to `year` exceed those up to `year - 1` by one exactly in leap years. */
  lemma LeapCount(year: int)
    ensures year / 4 - year / 100 + year / 400
            == (year - 1) / 4 - (year - 1) / 100 + (year - 1) / 400 + (if IsLeapYear(year) then 1 else 0)
  {
    FloorStep4(year);
    FloorStep100(year);
    FloorStep400(year);
    CenturyRule(year);
  }

  /** Every multiple of 400 is a multiple of 100, and every multiple of 100 one of 4. */
  lemma CenturyRule(year: int)
    ensures year % 400 == 0 ==> year % 100 == 0
    ensures year % 100 == 0 ==> year % 4 == 0
  {
  }

  /** Floor division by 4, 100 and 400 steps up exactly at the multiples. */
  lemma FloorStep4(year: int)
    ensures year / 4 == (year - 1) / 4 + (if year % 4 == 0 then 1 else 0)
  {
  }

  lemma FloorStep100(year: int)
    ensures year / 100 == (year - 1) / 100 + (if year % 100 == 0 then 1 else 0)
  {
  }

  lemma FloorStep400(year: int)
    ensures year / 400 == (year - 1) / 400 + (if year % 400 == 0 then 1 else 0)
  {
  }

  /** The day numbers of consecutive days are consecutive. */
  lemma NextDayNumber(d: Date)
    requires IsValid(d)
    ensures IsValid(NextDay(d))
    ensures DayNumber(NextDay(d)) == DayNumber(d) + 1
  {
    if d.day == DaysInMonth(d.year, d.month) && d.month == 12 {
      MonthsFillYear(d.year);
      YearsAreConsecutive(d.year);
    }
  }

  /** The weekday advances by one, cyclically, from each day to the next. */
  lemma NextWeekday(d: Date)
    requires IsValid(d)
    ensures Weekday(NextDay(d)) == Weekday(d) % 7 + 1
  {
    NextDayNumber(d);
    var n := DayNumber(d);
    assert DayNumber(NextDay(d)) == n + 1;
    ModAddLeft(n, 1);
  }

  /** Within a month, day `day` falls `day - 1` weekdays after the 1st. */
  lemma WeekdayInMonth(year: int, month: int, day: int)
    requires 1 <= month <= 12
    ensures Weekday(Date(year, month, day)) - 1 == (Weekday(Date(year, month, 1)) - 1 + day - 1) % 7
  {
    var n := DayNumber(Date(year, month, 1));
    assert DayNumber(Date(year, month, day)) == n + day - 1;
    ModAddLeft(n, day - 1);
  }

  lemma ModAddLeft(a: int, b: int)
    ensures (a % 7 + b) % 7 == (a + b) % 7
  {
    var q := a / 7;
    assert a == 7 * q + a % 7;
    assert a + b == 7 * q + (a % 7 + b);
  }

  /** The position of a (year, month) pair on a line of consecutive months. */
  function MonthIndex(d: Date): int {
    d.year * 12 + d.month - 1
  }

  /** Within the valid month range, the month index identifies year and month. */
  lemma MonthIndexInjective(a: Date, b: Date)
    requires 1 <= a.month <= 12 && 1 <= b.month <= 12
    ensures MonthIndex(a) == MonthIndex(b) <==> a.year == b.year && a.month == b.month
  {
  }

  /** Foundation adds months with year carry and clamps the day to the month's end. */
  function AddMonths(d: Date, value: int): (r: Date)
    requires 1 <= d.month <= 12
    ensures 1 <= r.month <= 12
    ensures MonthIndex(r) == MonthIndex(d) + value
    ensures r.day == if d.day <= DaysInMonth(r.year, r.month) then d.day else DaysInMonth(r.year, r.month)
    ensures IsValid(d) ==> IsValid(r)
  {
    var t := MonthIndex(d) + value;
    var year, month := t / 12, t % 12 + 1;
    var last := DaysInMonth(year, month);
    Date(year, month, if d.day <= last then d.day else last)
  }

  /** Foundation adds years keeping the month and clamps 29 February to the 28th. */
  function AddYears(d: Date, value: int): (r: Date)
    requires 1 <= d.month <= 12
    ensures r.year == d.year + value && r.month == d.month
    ensures r.day == if d.day <= DaysInMonth(r.year, r.month) then d.day else DaysInMonth(r.year, r.month)
    ensures IsValid(d) ==> IsValid(r)
  {
    var last := DaysInMonth(d.year + value, d.month);
    Date(d.year + value, d.month, if d.day <= last then d.day else last)
  }

  /** `calendar.date(byAdding: component, value: value, to: d)` for months and years. */
  function DateByAdding(component: Granularity, value: int, d: Date): (r: Date)
    requires component != Day
    requires 1 <= d.month <= 12
    ensures 1 <= r.month <= 12
    ensures IsValid(d) ==> IsValid(r)
  {
    match component
    case Month => AddMonths(d, value)
    case Year => AddYears(d, value)
  }

  /** `calendar.isDate(a, equalTo: b, toGranularity: g)`: the components down to `g` agree. */
  predicate IsSame(a: Date, b: Date, g: Granularity): (r: bool)
    ensures r ==> a.year == b.year
    ensures g == Day ==> (r <==> a == b)
    ensures g == Month && 1 <= a.month <= 12 && 1 <= b.month <= 12 ==> (r <==> MonthIndex(a) == MonthIndex(b))
    ensures g == Year ==> (r <==> a.year == b.year)
  {
    match g
    case Day => a == b
    case Month => a.year == b.year && a.month == b.month
    case Year => a.year == b.year
  }

  /** Each granularity is coarser than the one before: the same day is the same month, the same month the same year. */
  lemma SameIsCoarser(a: Date, b: Date)
    ensures IsSame(a, b, Day) ==> IsSame(a, b, Month)
    ensures IsSame(a, b, Month) ==> IsSame(a, b, Year)
  {
  }

  /** Adding whole months never skips or repeats a month, even when the day is clamped. */
  lemma {:induction false} AddMonthsInverse(d: Date, value: int)
    requires 1 <= d.month <= 12
    ensures var back := AddMonths(AddMonths(d, value), -value);
            back.year == d.year && back.month == d.month
  {
    MonthIndexInjective(AddMonths(AddMonths(d, value), -value), d);
  }

  /** The leap rule at a 400-year century, a plain century and ordinary years. */
  lemma LeapRuleFacts()
    ensures DaysInMonth(2000, 2) == 29 && DaysInMonth(1900, 2) == 28
    ensures DaysInMonth(2024, 2) == 29 && DaysInMonth(2023, 2) == 28
  {
  }

  /** 1 January of year 1 is a Monday (2) and 1 January 2022 a Saturday (7). */
  lemma WeekdayFacts()
    ensures Weekday(Date(1, 1, 1)) == 2
    ensures Weekday(Date(2022, 1, 1)) == 7
  {
    assert DaysBeforeMonth(1, 1) == 0 && DaysBeforeMonth(2022, 1) == 0;
    assert DaysBeforeYear(2022) == 738155;
  }
}
