/**
  The current revision of the calendar view model (`KSCalendarViewModel`):
  the month grid with event flags merged from the host's data source, and
  the navigation state with its delegate callbacks.
 */
module KSCalendar {
  import opened Options
  import opened Gregorian
  import opened Decimal
  import opened MonthLayout

  /** One grid cell; `day` is the day number as text, absent for a blank. */
  datatype DayItem = DayItem(
    id: int,
    day: Option<string>,
    isCurrentDate: bool,
    isSelectedDate: bool,
    hasPrimaryEvent: bool,
    hasSecondaryEvent: bool)

  /** One entry of the host's event data for a month. */
  datatype CalendarDayItem = CalendarDayItem(day: int, hasPrimaryEvent: bool, hasSecondaryEvent: bool)

  /** The host's `calendarDayItems(for: month, and: year)`. */
  type DataSource = (int, int) -> seq<CalendarDayItem>

  /** A delegate callback: `didChangeView(toMonthView:)` or `didChangeDate(to:)`. */
  datatype Change = ViewChanged(toMonthView: bool) | DateChanged(to: Date)

  function Blank(id: int): DayItem {
    DayItem(id, None, false, false, false, false)
  }

  /** A day cell before any flag is stamped on it. */
  function BareDay(id: int, day: int): DayItem {
    DayItem(id, Some(IntToString(day)), false, false, false, false)
  }

  /** `startOfWeekFillDates(for:and:)`: one blank per column before day 1. */
  function StartOfWeekFillDates(cal: CalendarConfig, month: int, year: int): (r: seq<DayItem>)
    requires IsValidConfig(cal) && 1 <= month <= 12
    ensures |r| == FirstDay(cal.firstWeekday, month, year)
    ensures forall i :: 0 <= i < |r| ==> r[i] == Blank(i)
  {
    seq(FirstDay(cal.firstWeekday, month, year), i => Blank(i))
  }

  /**
    `dayItemsForMonthView(for:and:)`: the blanks, then day 1 ... DaysInMonth in
    order. A blank's id is its position; day `d` at position lead + d - 1 gets
    id lead + d, so the value lead is never used as an id.
   */
  function DayItemsForMonthView(cal: CalendarConfig, month: int, year: int): (r: seq<DayItem>)
    requires IsValidConfig(cal) && 1 <= month <= 12
    ensures var lead := FirstDay(cal.firstWeekday, month, year);
            && |r| == lead + DaysInMonth(year, month)
            && (forall i :: 0 <= i < lead ==> r[i] == Blank(i))
            && (forall i :: lead <= i < |r| ==> r[i] == BareDay(i + 1, i - lead + 1))
  {
    var fill := StartOfWeekFillDates(cal, month, year);
    var days := DaysRange(month, year);
    fill + seq(|days|, i requires 0 <= i < |days| => BareDay(|fill| + days[i], days[i]))
  }

  /** The ids of a month grid strictly increase, and the id FirstDay is skipped. */
  lemma GridIds(cal: CalendarConfig, month: int, year: int)
    requires IsValidConfig(cal) && 1 <= month <= 12
    ensures var r := DayItemsForMonthView(cal, month, year);
            && (forall i, j :: 0 <= i < j < |r| ==> r[i].id < r[j].id)
            && (forall i :: 0 <= i < |r| ==> r[i].id != FirstDay(cal.firstWeekday, month, year))
  {
  }

  /** The cells that hold a day hold text that `Int(_:)` reads back as that day. */
  lemma GridDaysParse(cal: CalendarConfig, month: int, year: int)
    requires IsValidConfig(cal) && 1 <= month <= 12
    ensures var r := DayItemsForMonthView(cal, month, year);
            var lead := FirstDay(cal.firstWeekday, month, year);
            forall i :: 0 <= i < |r| && r[i].day.Some? ==>
              lead <= i && ParseInt(r[i].day.value) == Some(i - lead + 1)
  {
    var r := DayItemsForMonthView(cal, month, year);
    var lead := FirstDay(cal.firstWeekday, month, year);
    forall i | lead <= i < |r| ensures ParseInt(r[i].day.value) == Some(i - lead + 1) {
      IntRoundTrip(i - lead + 1);
    }
  }

  /** `first(where:)` with the Swift predicate: the item's day, as text, equals the cell's text. */
  function FirstMatching(items: seq<CalendarDayItem>, day: string): (r: Option<CalendarDayItem>)
    ensures r.None? <==> forall j :: 0 <= j < |items| ==> IntToString(items[j].day) != day
    ensures r.Some? ==> exists k :: 0 <= k < |items| && r.value == items[k] && IntToString(items[k].day) == day
                                    && forall j :: 0 <= j < k ==> IntToString(items[j].day) != day
    decreases |items|
  {
    if |items| == 0 then None
    else if IntToString(items[0].day) == day then Some(items[0])
    else FirstMatching(items[1..], day)
  }

  /** The independent reading: the first item whose day number is `day`. */
  predicate IsFirstWithDay(items: seq<CalendarDayItem>, day: int, k: int) {
    0 <= k < |items| && items[k].day == day && forall j :: 0 <= j < k ==> items[j].day != day
  }

  /** Comparing the texts is comparing the day numbers: `FirstMatching` finds the first item for the day. */
  lemma FirstMatchingFindsDay(items: seq<CalendarDayItem>, day: int)
    ensures var r := FirstMatching(items, IntToString(day));
            && (r.None? <==> forall j :: 0 <= j < |items| ==> items[j].day != day)
            && (r.Some? ==> exists k :: IsFirstWithDay(items, day, k) && r.value == items[k])
  {
    var r := FirstMatching(items, IntToString(day));
    forall j | 0 <= j < |items|
      ensures IntToString(items[j].day) == IntToString(day) <==> items[j].day == day
    {
      IntToStringInjective(items[j].day, day);
    }
    if r.Some? {
      var k :| 0 <= k < |items| && r.value == items[k] && IntToString(items[k].day) == IntToString(day)
               && forall j :: 0 <= j < k ==> IntToString(items[j].day) != IntToString(day);
      assert IsFirstWithDay(items, day, k);
    }
  }

  /** The primary and secondary flags `items` copies for a cell: those of the first match, or none. */
  function EventFlags(events: seq<CalendarDayItem>, day: string): (bool, bool) {
    match FirstMatching(events, day)
    case Some(e) => (e.hasPrimaryEvent, e.hasSecondaryEvent)
    case None => (false, false)
  }

  /** The body of the `map` in `items(for:and:)`, applied to one cell. */
  function Stamp(item: DayItem, month: int, year: int, current: Date, selected: Date,
                 events: seq<CalendarDayItem>): (r: DayItem)
    requires item.day.Some? ==> ParseInt(item.day.value).Some?
    ensures r.id == item.id && r.day == item.day
    ensures item.day.None? ==> r == item
    ensures item.day.Some? ==>
              var date := Date(year, month, ParseInt(item.day.value).value);
              && (r.isCurrentDate <==> current == date)
              && (r.isSelectedDate <==> selected == date)
              && match FirstMatching(events, item.day.value)
                 case Some(e) => r.hasPrimaryEvent == e.hasPrimaryEvent && r.hasSecondaryEvent == e.hasSecondaryEvent
                 case None => r.hasPrimaryEvent == item.hasPrimaryEvent && r.hasSecondaryEvent == item.hasSecondaryEvent
  {
    if item.day.None? then item
    else
      var flags := match FirstMatching(events, item.day.value)
                   case Some(e) => (e.hasPrimaryEvent, e.hasSecondaryEvent)
                   case None => (item.hasPrimaryEvent, item.hasSecondaryEvent);
      var date := Date(year, month, ParseInt(item.day.value).value);
      item.(hasPrimaryEvent := flags.0, hasSecondaryEvent := flags.1,
            isCurrentDate := IsSame(current, date, Day),
            isSelectedDate := IsSame(selected, date, Day))
  }

  /**
    What `items` makes of the day cell `id` holding day `day`: the flags of the
    first host item for the day, today exactly when its date is `current`,
    selected exactly when its date is `selected`.
   */
  predicate IsStampedDay(c: DayItem, id: int, day: int, month: int, year: int, current: Date, selected: Date,
                         events: seq<CalendarDayItem>)
  {
    var flags := EventFlags(events, IntToString(day));
    && c.id == id && c.day == Some(IntToString(day))
    && c.hasPrimaryEvent == flags.0 && c.hasSecondaryEvent == flags.1
    && (c.isCurrentDate <==> Date(year, month, day) == current)
    && (c.isSelectedDate <==> Date(year, month, day) == selected)
  }

  lemma StampDay(id: int, day: int, month: int, year: int, current: Date, selected: Date,
                 events: seq<CalendarDayItem>)
    ensures ParseInt(IntToString(day)) == Some(day)
    ensures IsStampedDay(Stamp(BareDay(id, day), month, year, current, selected, events),
                         id, day, month, year, current, selected, events)
  {
    IntRoundTrip(day);
  }

  /** The `map` of `items(for:and:)` over a grid. */
  function StampAll(grid: seq<DayItem>, month: int, year: int, current: Date, selected: Date,
                    events: seq<CalendarDayItem>): (r: seq<DayItem>)
    requires forall i :: 0 <= i < |grid| && grid[i].day.Some? ==> ParseInt(grid[i].day.value).Some?
    ensures |r| == |grid|
    ensures forall i :: 0 <= i < |grid| ==> r[i] == Stamp(grid[i], month, year, current, selected, events)
  {
    seq(|grid|, i requires 0 <= i < |grid| => Stamp(grid[i], month, year, current, selected, events))
  }

  lemma StampGrid(cal: CalendarConfig, month: int, year: int, current: Date, selected: Date,
                  events: seq<CalendarDayItem>)
    requires IsValidConfig(cal) && 1 <= month <= 12
    ensures var grid := DayItemsForMonthView(cal, month, year);
            var lead := FirstDay(cal.firstWeekday, month, year);
            && (forall i :: 0 <= i < |grid| && grid[i].day.Some? ==> ParseInt(grid[i].day.value).Some?)
            && var r := StampAll(grid, month, year, current, selected, events);
               && |r| == lead + DaysInMonth(year, month)
               && (forall i :: 0 <= i < lead ==> r[i] == Blank(i))
               && (forall i :: lead <= i < |r| ==>
                     IsStampedDay(r[i], i + 1, i - lead + 1, month, year, current, selected, events))
  {
    var grid := DayItemsForMonthView(cal, month, year);
    var lead := FirstDay(cal.firstWeekday, month, year);
    GridDaysParse(cal, month, year);
    var r := StampAll(grid, month, year, current, selected, events);
    forall i | 0 <= i < lead
      ensures r[i] == Blank(i)
    {
      assert grid[i] == Blank(i);
    }
    forall i | lead <= i < |r|
      ensures IsStampedDay(r[i], i + 1, i - lead + 1, month, year, current, selected, events)
    {
      assert grid[i] == BareDay(i + 1, i - lead + 1);
      StampDay(i + 1, i - lead + 1, month, year, current, selected, events);
    }
  }

  /**
    `items(for:and:)` with the host's data for the month already fetched: the
    grid of `DayItemsForMonthView`, blanks untouched, every day cell stamped
    with the event flags of its first data item and with whether it is today
    and whether it is the selected date.
   */
  function MonthItems(cal: CalendarConfig, month: int, year: int, current: Date, selected: Date,
                      events: seq<CalendarDayItem>): (r: seq<DayItem>)
    requires IsValidConfig(cal) && 1 <= month <= 12
    ensures var lead := FirstDay(cal.firstWeekday, month, year);
            && |r| == lead + DaysInMonth(year, month)
            && (forall i :: 0 <= i < lead ==> r[i] == Blank(i))
            && (forall i :: lead <= i < |r| ==>
                  IsStampedDay(r[i], i + 1, i - lead + 1, month, year, current, selected, events))
  {
    StampGrid(cal, month, year, current, selected, events);
    StampAll(DayItemsForMonthView(cal, month, year), month, year, current, selected, events)
  }

  /** At most one cell is marked as today and at most one as selected; today's month marks today's cell. */
  lemma FlagsMarkOneCell(cal: CalendarConfig, month: int, year: int, current: Date, selected: Date,
                         events: seq<CalendarDayItem>)
    requires IsValidConfig(cal) && 1 <= month <= 12 && IsValid(current)
    ensures var r := MonthItems(cal, month, year, current, selected, events);
            && (forall i, j :: 0 <= i < |r| && 0 <= j < |r| && r[i].isCurrentDate && r[j].isCurrentDate ==> i == j)
            && (forall i, j :: 0 <= i < |r| && 0 <= j < |r| && r[i].isSelectedDate && r[j].isSelectedDate ==> i == j)
            && (current.year == year && current.month == month ==>
                  r[FirstDay(cal.firstWeekday, month, year) + current.day - 1].isCurrentDate)
  {
  }

  /** Day cells take the flags of the first host item for their day, and none when no item names it. */
  lemma EventsMergeByDay(cal: CalendarConfig, month: int, year: int, current: Date, selected: Date,
                         events: seq<CalendarDayItem>, i: int)
    requires IsValidConfig(cal) && 1 <= month <= 12
    requires FirstDay(cal.firstWeekday, month, year) <= i < FirstDay(cal.firstWeekday, month, year) + DaysInMonth(year, month)
    ensures var r := MonthItems(cal, month, year, current, selected, events);
            var d := i - FirstDay(cal.firstWeekday, month, year) + 1;
            && ((forall j :: 0 <= j < |events| ==> events[j].day != d) ==>
                  !r[i].hasPrimaryEvent && !r[i].hasSecondaryEvent)
            && (forall k :: IsFirstWithDay(events, d, k) ==>
                  r[i].hasPrimaryEvent == events[k].hasPrimaryEvent &&
                  r[i].hasSecondaryEvent == events[k].hasSecondaryEvent)
  {
    var d := i - FirstDay(cal.firstWeekday, month, year) + 1;
    FirstMatchingFindsDay(events, d);
    forall k | IsFirstWithDay(events, d, k)
      ensures FirstMatching(events, IntToString(d)) == Some(events[k])
    {
      var k' :| IsFirstWithDay(events, d, k') && FirstMatching(events, IntToString(d)).value == events[k'];
      assert k == k';
    }
  }

  /** First weekday Sunday, January 2022: the 1st is a Saturday, so six blanks precede 31 days. */
  lemma January2022Grid(cal: CalendarConfig)
    requires IsValidConfig(cal) && cal.firstWeekday == 1
    ensures FirstDay(1, 1, 2022) == 6
    ensures |DayItemsForMonthView(cal, 1, 2022)| == 37
  {
    WeekdayFacts();
    assert FirstDay(1, 1, 2022) == (7 - 1 + 7) % 7;
    assert DaysInMonth(2022, 1) == 31;
  }

  /** In that grid, an event (primary only) for the 15th marks the cell "15" and no other cell. */
  lemma January2022Events(cal: CalendarConfig, current: Date, selected: Date)
    requires IsValidConfig(cal) && cal.firstWeekday == 1
    ensures var r := MonthItems(cal, 1, 2022, current, selected, [CalendarDayItem(15, true, false)]);
            && |r| == 37
            && r[20].day == Some("15") && r[20].hasPrimaryEvent && !r[20].hasSecondaryEvent
            && forall i :: 6 <= i < 37 && i != 20 ==> !r[i].hasPrimaryEvent && !r[i].hasSecondaryEvent
  {
    January2022Grid(cal);
    var events := [CalendarDayItem(15, true, false)];
    assert IsFirstWithDay(events, 15, 0);
    EventsMergeByDay(cal, 1, 2022, current, selected, events, 20);
    forall i | 6 <= i < 37 && i != 20 {
      EventsMergeByDay(cal, 1, 2022, current, selected, events, i);
    }
    assert IntToString(15) == "15";
  }

  /**
    The view model. `currentDate` is set once, in the initializer. Every
    assignment to `selectedDate` or `isDetail` runs its `willSet` observer,
    which sends one delegate callback with the new value before the value is
    stored; `sent` records those callbacks in order. Assignments in the
    initializer do not run observers.
   */
  class KSCalendarViewModel {
    const calendar: CalendarConfig
    const calendarData: DataSource
    const currentDate: Date
    var selectedDate: Date
    var isDetail: bool
    var monthViewIsHidded: bool
    var sent: seq<Change>

    ghost predicate Valid()
      reads this
    {
      IsValidConfig(calendar) && IsValid(currentDate) && IsValid(selectedDate)
    }

    /** `init(calendarData:hideMonthView:delegate:)`, with today passed in. */
    constructor (calendar: CalendarConfig, today: Date, calendarData: DataSource, hideMonthView: bool)
      requires IsValidConfig(calendar) && IsValid(today)
      ensures Valid()
      ensures this.calendar == calendar && this.calendarData == calendarData
      ensures currentDate == today && selectedDate == today
      ensures isDetail && monthViewIsHidded == hideMonthView && sent == []
    {
      this.calendar := calendar;
      this.calendarData := calendarData;
      currentDate := today;
      selectedDate := today;
      monthViewIsHidded := hideMonthView;
      isDetail := true;
      sent := [];
    }

    /** `sendIsDetailChange(with:)`: tell the delegate the view mode's new value. */
    method SendIsDetailChange(newValue: bool)
      modifies this`sent
      ensures sent == old(sent) + [ViewChanged(newValue)]
    {
      sent := sent + [ViewChanged(newValue)];
    }

    /** `sendDateChange(with:)`: tell the delegate the selection's new value. */
    method SendDateChange(date: Date)
      modifies this`sent
      ensures sent == old(sent) + [DateChanged(date)]
    {
      sent := sent + [DateChanged(date)];
    }

    /** `selectedDate = newValue` with its `willSet` observer. */
    method AssignSelectedDate(newValue: Date)
      modifies this`selectedDate, this`sent
      ensures selectedDate == newValue
      ensures sent == old(sent) + [DateChanged(newValue)]
    {
      SendDateChange(newValue);
      selectedDate := newValue;
    }

    /** `isDetail = newValue` with its `willSet` observer. */
    method AssignIsDetail(newValue: bool)
      modifies this`isDetail, this`sent
      ensures isDetail == newValue
      ensures sent == old(sent) + [ViewChanged(newValue)]
    {
      SendIsDetailChange(newValue);
      isDetail := newValue;
    }

    /** `title`. */
    function Title(): (r: string)
      reads this
      requires Valid()
      ensures r == MonthLayout.Title(calendar, isDetail, selectedDate)
      ensures !isDetail ==> ParseInt(r) == Some(selectedDate.year)
    {
      MonthLayout.Title(calendar, isDetail, selectedDate)
    }

    /** `weekDays`. */
    function WeekDays(): (r: seq<string>)
      reads this
      requires Valid()
      ensures |r| == 7 && r == MonthLayout.WeekDays(calendar)
      ensures r[0] == calendar.shortWeekdaySymbols[calendar.firstWeekday - 1]
    {
      MonthLayout.WeekDays(calendar)
    }

    /** `months`: the short month names. */
    function Months(): (r: seq<string>)
      reads this
      requires Valid()
      ensures |r| == 12 && r == calendar.shortMonthSymbols
    {
      calendar.shortMonthSymbols
    }

    /** `selectedYear`. */
    function SelectedYear(): (r: int)
      reads this
      ensures r == selectedDate.year
    {
      selectedDate.year
    }

    /** `selectedMonth`. */
    function SelectedMonth(): (r: int)
      reads this
      requires Valid()
      ensures 1 <= r <= 12 && r == selectedDate.month
    {
      selectedDate.month
    }

    /** `items(for:and:)`: the month grid with the host's data for (month, year); `isDetail` plays no part. */
    function Items(month: int, year: int): (r: seq<DayItem>)
      reads this
      requires Valid() && 1 <= month <= 12
      ensures r == MonthItems(calendar, month, year, currentDate, selectedDate, calendarData(month, year))
      ensures |r| == FirstDay(calendar.firstWeekday, month, year) + DaysInMonth(year, month)
      ensures forall i :: 0 <= i < |r| && r[i].isSelectedDate ==>
                r[i].day == Some(IntToString(selectedDate.day)) && year == selectedDate.year && month == selectedDate.month
    {
      MonthItems(calendar, month, year, currentDate, selectedDate, calendarData(month, year))
    }

    /** `didSelect(day:)`: the same year and month, the given day. */
    method DidSelectDay(day: int)
      requires Valid() && 1 <= day <= DaysInMonth(selectedDate.year, selectedDate.month)
      modifies this`selectedDate, this`sent
      ensures Valid()
      ensures selectedDate == Date(old(selectedDate).year, old(selectedDate).month, day)
      ensures sent == old(sent) + [DateChanged(selectedDate)]
    {
      var newDate := Date(selectedDate.year, selectedDate.month, day);
      AssignSelectedDate(newDate);
    }

    /** `didSelect(month:on:)`: month view, then today if in that month, else its 1st. */
    method DidSelectMonth(month: int, year: int)
      requires Valid() && 1 <= month <= 12
      modifies this`isDetail, this`selectedDate, this`sent
      ensures Valid() && isDetail
      ensures selectedDate == MonthSelection(currentDate, month, year)
      ensures selectedDate.year == year && selectedDate.month == month
      ensures sent == old(sent) + [ViewChanged(true), DateChanged(selectedDate)]
    {
      AssignIsDetail(true);
      var checkDate := Date(year, month, 1);
      if IsSame(currentDate, checkDate, Month) {
        AssignSelectedDate(currentDate);
      } else {
        AssignSelectedDate(checkDate);
      }
    }

    /** `setSelectedDate(on:by:)`: step the selection, snapping to today in today's month or year. */
    method SetSelectedDate(component: Granularity, value: int)
      requires Valid() && component != Day
      modifies this`selectedDate, this`sent
      ensures Valid()
      ensures selectedDate == StepSelection(currentDate, old(selectedDate), component, value)
      ensures sent == old(sent) + [DateChanged(selectedDate)]
    {
      var checkDate := DateByAdding(component, value, selectedDate);
      if IsSame(currentDate, checkDate, component) {
        AssignSelectedDate(currentDate);
      } else {
        AssignSelectedDate(Date(checkDate.year, checkDate.month, 1));
      }
    }

    /** `nextMonth()`. */
    method NextMonth()
      requires Valid()
      modifies this`selectedDate, this`sent
      ensures Valid()
      ensures selectedDate == StepSelection(currentDate, old(selectedDate), Month, 1)
      ensures MonthIndex(selectedDate) == MonthIndex(old(selectedDate)) + 1
      ensures sent == old(sent) + [DateChanged(selectedDate)]
    {
      SetSelectedDate(Month, 1);
    }

    /** `previousMonth()`. */
    method PreviousMonth()
      requires Valid()
      modifies this`selectedDate, this`sent
      ensures Valid()
      ensures selectedDate == StepSelection(currentDate, old(selectedDate), Month, -1)
      ensures MonthIndex(selectedDate) == MonthIndex(old(selectedDate)) - 1
      ensures sent == old(sent) + [DateChanged(selectedDate)]
    {
      SetSelectedDate(Month, -1);
    }

    /** `nextYear()`. */
    method NextYear()
      requires Valid()
      modifies this`selectedDate, this`sent
      ensures Valid()
      ensures selectedDate == StepSelection(currentDate, old(selectedDate), Year, 1)
      ensures selectedDate.year == old(selectedDate).year + 1
      ensures sent == old(sent) + [DateChanged(selectedDate)]
    {
      SetSelectedDate(Year, 1);
    }

    /** `previousYear()`. */
    method PreviousYear()
      requires Valid()
      modifies this`selectedDate, this`sent
      ensures Valid()
      ensures selectedDate == StepSelection(currentDate, old(selectedDate), Year, -1)
      ensures selectedDate.year == old(selectedDate).year - 1
      ensures sent == old(sent) + [DateChanged(selectedDate)]
    {
      SetSelectedDate(Year, -1);
    }

    /** `monthYearToggle()`: flip between month and year view. */
    method MonthYearToggle()
      modifies this`isDetail, this`sent
      ensures isDetail == !old(isDetail)
      ensures sent == old(sent) + [ViewChanged(isDetail)]
    {
      AssignIsDetail(!isDetail);
    }
  }

  /** From today, a month forward and a month back lands on today again, with one callback per step. */
  method NextThenPreviousMonthFromToday(vm: KSCalendarViewModel)
    requires vm.Valid() && vm.selectedDate == vm.currentDate
    modifies vm
    ensures vm.Valid() && vm.selectedDate == vm.currentDate
    ensures |vm.sent| == |old(vm.sent)| + 2 && vm.sent[|vm.sent| - 1] == DateChanged(vm.currentDate)
    ensures vm.isDetail == old(vm.isDetail)
  {
    MonthStepsRoundTrip(vm.currentDate, vm.selectedDate);
    vm.NextMonth();
    vm.PreviousMonth();
  }

  /** Toggling twice restores the view mode and sends both new values in turn. */
  method ToggleTwice(vm: KSCalendarViewModel)
    modifies vm
    ensures vm.isDetail == old(vm.isDetail) && vm.selectedDate == old(vm.selectedDate)
    ensures vm.sent == old(vm.sent) + [ViewChanged(!old(vm.isDetail)), ViewChanged(old(vm.isDetail))]
  {
    vm.MonthYearToggle();
    vm.MonthYearToggle();
  }
}
