/**
  The earlier revision of the calendar view model (`CalendarViewModel`):
  the same navigation without a delegate, and a month grid whose event flags
  are fixed (every day has an event, odd days a health event).
 */
module LegacyCalendar {
  import opened Options
  import opened Gregorian
  import opened Decimal
  import opened MonthLayout

  /** `CalendarViewModel.DayItem`, an immutable cell; `day` is absent for a blank. */
  datatype DayItem = DayItem(
    id: int,
    day: Option<string>,
    isCurrentDate: bool,
    isSelectedDate: bool,
    hasEvent: bool,
    hasHealthEvent: bool)

  /** `fillDates(for:and:)`: one all-false blank per column before day 1, ids 0 ... lead - 1. */
  function FillDates(cal: CalendarConfig, month: int, year: int): (r: seq<DayItem>)
    requires IsValidConfig(cal) && 1 <= month <= 12
    ensures |r| == FirstDay(cal.firstWeekday, month, year)
    ensures forall i :: 0 <= i < |r| ==> r[i] == DayItem(i, None, false, false, false, false)
  {
    seq(FirstDay(cal.firstWeekday, month, year), i => DayItem(i, None, false, false, false, false))
  }

  /** One cell of `dayItems(for:and:)`. */
  function DayCell(cal: CalendarConfig, month: int, year: int, current: Date, selected: Date, day: int): (r: DayItem)
    requires IsValidConfig(cal) && 1 <= month <= 12
    ensures r.id == FirstDay(cal.firstWeekday, month, year) + day
    ensures r.day == Some(IntToString(day)) && ParseInt(r.day.value) == Some(day)
    ensures r.hasEvent && (r.hasHealthEvent <==> day % 2 == 1)
    ensures r.isCurrentDate <==> Date(year, month, day) == current
    ensures r.isSelectedDate <==> Date(year, month, day) == selected
  {
    IntRoundTrip(day);
    var date := Date(year, month, day);
    DayItem(FirstDay(cal.firstWeekday, month, year) + day, Some(IntToString(day)),
            IsSame(current, date, Day), IsSame(selected, date, Day),
            true, day % 2 == 1)
  }

  /**
    `dayItems(for:and:)`: day 1 ... DaysInMonth in order; day `d` has id
    FirstDay + d, an event always, a health event exactly on odd days, and is
    marked today or selected exactly when its date is today or the selection.
   */
  function DayItems(cal: CalendarConfig, month: int, year: int, current: Date, selected: Date): (r: seq<DayItem>)
    requires IsValidConfig(cal) && 1 <= month <= 12
    ensures |r| == DaysInMonth(year, month)
    ensures forall i :: 0 <= i < |r| ==>
              var d := i + 1;
              && r[i].id == FirstDay(cal.firstWeekday, month, year) + d
              && r[i].day == Some(IntToString(d))
              && r[i].hasEvent
              && (r[i].hasHealthEvent <==> d % 2 == 1)
              && (r[i].isCurrentDate <==> Date(year, month, d) == current)
              && (r[i].isSelectedDate <==> Date(year, month, d) == selected)
  {
    var days := DaysRange(month, year);
    seq(|days|, i requires 0 <= i < |days| => DayCell(cal, month, year, current, selected, days[i]))
  }

  /** At most one day cell is today and at most one is the selection. */
  lemma DayItemsMarkOneCell(cal: CalendarConfig, month: int, year: int, current: Date, selected: Date)
    requires IsValidConfig(cal) && 1 <= month <= 12
    ensures var r := DayItems(cal, month, year, current, selected);
            && (forall i, j :: 0 <= i < |r| && 0 <= j < |r| && r[i].isCurrentDate && r[j].isCurrentDate ==> i == j)
            && (forall i, j :: 0 <= i < |r| && 0 <= j < |r| && r[i].isSelectedDate && r[j].isSelectedDate ==> i == j)
  {
  }

  /** The view model, without delegate; `currentDate` is set once, in the initializer. */
  class CalendarViewModel {
    const calendar: CalendarConfig
    const currentDate: Date
    var selectedDate: Date
    var isDetail: bool
    var monthViewIsHidded: bool

    ghost predicate Valid()
      reads this
    {
      IsValidConfig(calendar) && IsValid(currentDate) && IsValid(selectedDate)
    }

    /** `init(calendarData:hideMonthView:)`, with today passed in. */
    constructor (calendar: CalendarConfig, today: Date, hideMonthView: bool)
      requires IsValidConfig(calendar) && IsValid(today)
      ensures Valid() && this.calendar == calendar
      ensures currentDate == today && selectedDate == today
      ensures isDetail && monthViewIsHidded == hideMonthView
    {
      this.calendar := calendar;
      currentDate := today;
      selectedDate := today;
      isDetail := true;
      monthViewIsHidded := hideMonthView;
    }

    /** `title`. */
    function Title(): (r: string)
      reads this
      requires Valid()
      ensures r == MonthLayout.Title(calendar, isDetail, selectedDate)
      ensures !isDetail ==> ParseInt(r) == Some(selectedDate.year)
    {
      MonthLayout.Title(calendar, isDetail, selectedDate)
    }

    /** `weekDays`. */
    function WeekDays(): (r: seq<string>)
      reads this
      requires Valid()
      ensures |r| == 7 && r == MonthLayout.WeekDays(calendar)
      ensures r[0] == calendar.shortWeekdaySymbols[calendar.firstWeekday - 1]
    {
      MonthLayout.WeekDays(calendar)
    }

    /** `selectedYear`. */
    function SelectedYear(): (r: int)
      reads this
      ensures r == selectedDate.year
    {
      selectedDate.year
    }

    /** `selectedMonth`. */
    function SelectedMonth(): (r: int)
      reads this
      requires Valid()
      ensures 1 <= r <= 12 && r == selectedDate.month
    {
      selectedDate.month
    }

    /** `items(for:and:)`: the fill cells, then the day cells appended. */
    method Items(month: int, year: int) returns (calendarItems: seq<DayItem>)
      requires Valid() && 1 <= month <= 12
      ensures var lead := FirstDay(calendar.firstWeekday, month, year);
              && |calendarItems| == lead + DaysInMonth(year, month)
              && calendarItems[..lead] == FillDates(calendar, month, year)
              && calendarItems[lead..] == DayItems(calendar, month, year, currentDate, selectedDate)
              && (forall i :: 0 <= i < |calendarItems| ==> (calendarItems[i].day.None? <==> i < lead))
              && (forall i :: 0 <= i < |calendarItems| ==> calendarItems[i].id == if i < lead then i else i + 1)
    {
      calendarItems := FillDates(calendar, month, year);
      calendarItems := calendarItems + DayItems(calendar, month, year, currentDate, selectedDate);
    }

    /** `didSelect(day:)`: the same year and month, the given day. */
    method DidSelectDay(day: int)
      requires Valid() && 1 <= day <= DaysInMonth(selectedDate.year, selectedDate.month)
      modifies this`selectedDate
      ensures Valid()
      ensures selectedDate == Date(old(selectedDate).year, old(selectedDate).month, day)
    {
      selectedDate := Date(selectedDate.year, selectedDate.month, day);
    }

    /** `didSelect(month:on:)`: month view, then today if in that month, else its 1st. */
    method DidSelectMonth(month: int, year: int)
      requires Valid() && 1 <= month <= 12
      modifies this`isDetail, this`selectedDate
      ensures Valid() && isDetail
      ensures selectedDate == MonthSelection(currentDate, month, year)
    {
      isDetail := true;
      var checkDate := Date(year, month, 1);
      if IsSame(currentDate, checkDate, Month) {
        selectedDate := currentDate;
      } else {
        selectedDate := checkDate;
      }
    }

    /** `setSelectedDate(on:by:)`: step the selection, snapping to today in today's month or year. */
    method SetSelectedDate(component: Granularity, value: int)
      requires Valid() && component != Day
      modifies this`selectedDate
      ensures Valid()
      ensures selectedDate == StepSelection(currentDate, old(selectedDate), component, value)
    {
      var checkDate := DateByAdding(component, value, selectedDate);
      if IsSame(currentDate, checkDate, component) {
        selectedDate := currentDate;
      } else {
        selectedDate := Date(checkDate.year, checkDate.month, 1);
      }
    }

    /** `nextMonth()`. */
    method NextMonth()
      requires Valid()
      modifies this`selectedDate
      ensures Valid() && selectedDate == StepSelection(currentDate, old(selectedDate), Month, 1)
    {
      SetSelectedDate(Month, 1);
    }

    /** `previousMonth()`. */
    method PreviousMonth()
      requires Valid()
      modifies this`selectedDate
      ensures Valid() && selectedDate == StepSelection(currentDate, old(selectedDate), Month, -1)
    {
      SetSelectedDate(Month, -1);
    }

    /** `nextYear()`. */
    method NextYear()
      requires Valid()
      modifies this`selectedDate
      ensures Valid() && selectedDate == StepSelection(currentDate, old(selectedDate), Year, 1)
    {
      SetSelectedDate(Year, 1);
    }

    /** `previousYear()`. */
    method PreviousYear()
      requires Valid()
      modifies this`selectedDate
      ensures Valid() && selectedDate == StepSelection(currentDate, old(selectedDate), Year, -1)
    {
      SetSelectedDate(Year, -1);
    }

    /** `monthYearToggle()`: flip between month and year view. */
    method MonthYearToggle()
      modifies this`isDetail
      ensures isDetail == !old(isDetail)
    {
      isDetail := !isDetail;
    }
  }
}
