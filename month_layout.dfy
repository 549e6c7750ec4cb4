/**
  The rules both revisions of the calendar view model share line for line:
  where day 1 of a month lands in a week row (`firstDay`), the weekday header
  (`weekDays`), the title, and the date a navigation step selects
  (`didSelect(month:on:)` and `setSelectedDate(on:by:)`).
 */
module MonthLayout {
  import opened Gregorian
  import opened Options
  import opened Decimal

  /** What the view models read from Foundation's `Calendar.current`. */
  datatype CalendarConfig = CalendarConfig(
    firstWeekday: int,
    monthSymbols: seq<string>,
    shortMonthSymbols: seq<string>,
    shortWeekdaySymbols: seq<string>)

  predicate IsValidConfig(cal: CalendarConfig) {
    && 1 <= cal.firstWeekday <= 7
    && |cal.monthSymbols| == 12
    && |cal.shortMonthSymbols| == 12
    && |cal.shortWeekdaySymbols| == 7
  }

  /**
    `firstDay(on:in:)`: the number of blank cells before day 1, that is the
    column of day 1 when the week starts on `firstWeekday`.
   */
  function FirstDay(firstWeekday: int, month: int, year: int): (lead: int)
    requires 1 <= firstWeekday <= 7 && 1 <= month <= 12
    ensures 0 <= lead <= 6
    ensures (lead + firstWeekday - 1) % 7 + 1 == Weekday(Date(year, month, 1))
  {
    (Weekday(Date(year, month, 1)) - firstWeekday + 7) % 7
  }

  /** `daysRange(for:and:)`: the day numbers 1 ... DaysInMonth of the month. */
  function DaysRange(month: int, year: int): (r: seq<int>)
    requires 1 <= month <= 12
    ensures |r| == DaysInMonth(year, month)
    ensures forall i :: 0 <= i < |r| ==> r[i] == i + 1
  {
    seq(DaysInMonth(year, month), i => i + 1)
  }

  /** `weekDays`: the seven short weekday names, starting at `firstWeekday`. */
  function WeekDays(cal: CalendarConfig): (r: seq<string>)
    requires IsValidConfig(cal)
    ensures |r| == 7
    ensures forall i :: 0 <= i < 7 ==> r[i] == cal.shortWeekdaySymbols[(i + cal.firstWeekday - 1) % 7]
  {
    seq(7, i requires 0 <= i < 7 => cal.shortWeekdaySymbols[(i + cal.firstWeekday - 1) % 7])
  }

  /** The weekday header is the symbol table rotated to start at `firstWeekday`. */
  lemma WeekDaysIsRotation(cal: CalendarConfig)
    requires IsValidConfig(cal)
    ensures var k := cal.firstWeekday - 1;
            WeekDays(cal) == cal.shortWeekdaySymbols[k..] + cal.shortWeekdaySymbols[..k]
  {
    var k := cal.firstWeekday - 1;
    var syms := cal.shortWeekdaySymbols;
    var rotated := syms[k..] + syms[..k];
    forall i | 0 <= i < 7
      ensures WeekDays(cal)[i] == rotated[i]
    {
      if i < 7 - k {
        assert rotated[i] == syms[i + k];
      } else {
        assert rotated[i] == syms[i + k - 7];
      }
    }
  }

  /**
    Day `day` of a month sits, in the week rows of the grid, in the column whose
    header names that day's weekday: the cell at position FirstDay + day - 1
    is in column (FirstDay + day - 1) % 7.
   */
  lemma DayUnderItsWeekday(cal: CalendarConfig, month: int, year: int, day: int)
    requires IsValidConfig(cal) && 1 <= month <= 12 && 1 <= day
    ensures var column := (FirstDay(cal.firstWeekday, month, year) + day - 1) % 7;
            WeekDays(cal)[column] == cal.shortWeekdaySymbols[Weekday(Date(year, month, day)) - 1]
  {
    var fw := cal.firstWeekday;
    var lead := FirstDay(fw, month, year);
    var column := (lead + day - 1) % 7;
    var w1 := Weekday(Date(year, month, 1));
    WeekdayInMonth(year, month, day);
    ModAddLeft(lead + day - 1, fw - 1);
    ModAddLeft(lead + fw - 1, day - 1);
    assert (column + fw - 1) % 7 == (w1 - 1 + day - 1) % 7;
  }

  /** `title`: "<month name> <year>" in month view, "<year>" in year view. */
  function Title(cal: CalendarConfig, isDetail: bool, selected: Date): (r: string)
    requires IsValidConfig(cal) && 1 <= selected.month <= 12
    ensures var year := IntToString(selected.year);
            |year| <= |r| && r[|r| - |year|..] == year
    ensures !isDetail ==> r == IntToString(selected.year) && ParseInt(r) == Some(selected.year)
    ensures isDetail ==> var name := cal.monthSymbols[selected.month - 1];
                         && |r| == |name| + 1 + |IntToString(selected.year)|
                         && r[..|name|] == name && r[|name|] == ' '
  {
    IntRoundTrip(selected.year);
    var year := IntToString(selected.year);
    if isDetail then cal.monthSymbols[selected.month - 1] + " " + year else year
  }

  /**
    `didSelect(month:on:)`'s new selection: today when (month, year) is today's
    month, otherwise the 1st of (month, year).
   */
  function MonthSelection(current: Date, month: int, year: int): (r: Date)
    requires IsValid(current) && 1 <= month <= 12
    ensures IsValid(r)
    ensures r.year == year && r.month == month
    ensures r == current <==> current.year == year && current.month == month
    ensures r != current ==> r.day == 1
  {
    var checkDate := Date(year, month, 1);
    if IsSame(current, checkDate, Month) then current else checkDate
  }

  /**
    `setSelectedDate(on:by:)`'s new selection: add `value` months or years to
    the selection; land on today when that candidate is in today's month
    (month steps) or year (year steps), else on the 1st of the candidate's
    month.
   */
  function StepSelection(current: Date, selected: Date, component: Granularity, value: int): (r: Date)
    requires component != Day && IsValid(current) && IsValid(selected)
    ensures IsValid(r)
    ensures var checkDate := DateByAdding(component, value, selected);
            && (r == current <==> IsSame(current, checkDate, component))
            && (r != current ==> r == Date(checkDate.year, checkDate.month, 1))
    ensures component == Month ==> MonthIndex(r) == MonthIndex(selected) + value
    ensures component == Year ==> r.year == selected.year + value
    ensures component == Year && r != current ==> r.month == selected.month && r.day == 1
  {
    var checkDate := DateByAdding(component, value, selected);
    if IsSame(current, checkDate, component) then current
    else Date(checkDate.year, checkDate.month, 1)
  }

  /**
    A month forward then a month back returns to the selection's month: to
    today in today's month, to the 1st elsewhere; from today, exactly to today.
   */
  lemma {:induction false} MonthStepsRoundTrip(current: Date, selected: Date)
    requires IsValid(current) && IsValid(selected)
    ensures var back := StepSelection(current, StepSelection(current, selected, Month, 1), Month, -1);
            && back.year == selected.year && back.month == selected.month
            && (back == current <==> current.year == selected.year && current.month == selected.month)
            && (back != current ==> back.day == 1)
  {
    var forth := StepSelection(current, selected, Month, 1);
    var back := StepSelection(current, forth, Month, -1);
    MonthIndexInjective(back, selected);
    MonthIndexInjective(current, selected);
  }

  /** A year forward then a year back returns to the selection's year, and from today to today. */
  lemma {:induction false} YearStepsRoundTrip(current: Date, selected: Date)
    requires IsValid(current) && IsValid(selected)
    ensures var back := StepSelection(current, StepSelection(current, selected, Year, 1), Year, -1);
            && back.year == selected.year
            && (back == current <==> current.year == selected.year)
            && (selected == current ==> back == current)
  {
  }

  /**
    Day clamping never changes the month a step lands in: from 31 January a
    month step lands on 1 February, and from 29 February 2024 a year step
    lands on 1 February 2025.
   */
  lemma ClampedStepsExample()
    ensures StepSelection(Date(2026, 10, 14), Date(2022, 1, 31), Month, 1) == Date(2022, 2, 1)
    ensures StepSelection(Date(2026, 10, 14), Date(2024, 2, 29), Year, 1) == Date(2025, 2, 1)
    ensures StepSelection(Date(2025, 10, 14), Date(2024, 2, 29), Year, 1) == Date(2025, 10, 14)
  {
  }
}
