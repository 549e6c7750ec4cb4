# KSCalendar view models in Dafny

KSCalendar is a SwiftUI calendar widget. It shows a month grid or a year
overview, tracks today's date and a selected date, and marks days with up to
two event flags supplied by the host app. All of its logic lives in the view
model, which exists in two revisions. This project models both of them:

- `KSCalendarViewModel`, the current revision, with a delegate and a host
  data source (module `KSCalendar`, file `ks_calendar_view_model.dfy`);
- `CalendarViewModel`, the earlier revision, with fixed event flags and no
  delegate (module `LegacyCalendar`, file `calendar_view_model.dfy`).

Each revision has two parts:

- A **month grid builder**. For a (month, year) it returns the leading blank
  cells, then one cell per day, stamped with "is today" and "is selected".
  The current revision also stamps event flags taken from the host's data.
- A **navigation state machine**. It holds `currentDate` (fixed at init),
  `selectedDate` and `isDetail` (month view when true, year view when false).
  Its operations select a day or a month, step by a month or a year with the
  snap-to-today rule, and toggle the view.

Some rules are the same code in both revisions. They are defined once, in
module `MonthLayout` (`month_layout.dfy`):

- where day 1 falls in its week row (`firstDay`);
- the weekday header;
- the title;
- the date that `didSelect(month:on:)` and `setSelectedDate(on:by:)` select.

Foundation's `Calendar` is replaced by a proleptic-Gregorian model of
(year, month, day) triples (module `Gregorian`, `gregorian.dfy`). It covers:

- the 4/100/400 leap rule;
- the weekday in Foundation numbering (1 = Sunday … 7 = Saturday), computed
  from a day number where 1 January of year 1 is day 1, a Monday;
- month and year addition with year carry, clamping the day to the target
  month's length, as `date(byAdding:)` does;
- comparison at day, month or year granularity.

Dates are always at the start of their day, so `startOfDay` is the identity.

The source stores day numbers in the grid as text (`String(d)`). It matches
the host's items by comparing texts, and reads the text back with `Int(_:)`.
The model keeps the text. Module `Decimal` (`decimal.dfy`) proves that writing
and reading decimal text round-trips, so matching by text is matching by
number.

Inputs from outside become parameters of the initializers:

- today's date (`Date()`);
- the calendar configuration: first weekday and the month and weekday name
  tables, which are treated as opaque lists of 12 and 7 strings;
- the host data source, a function from (month, year) to the host's day
  items.

The delegate callbacks of the current revision are recorded in order in the
field `sent`. Each assignment to `selectedDate` or `isDetail` adds exactly one
entry carrying the new value. Swift does not run property observers for the
assignments in an initializer, so `sent` starts empty. `currentDate` is a
`const` field, so nothing outside the initializer can write it.

In these points the model follows the code exactly:

- The code has no error path for a month outside 1–12 or a day outside the
  month. It force-unwraps Foundation's lenient date construction. The model
  states these ranges as preconditions.
- `items` always sets `isSelectedDate`, whatever `isDetail` is. Hiding the
  selection in year view is done by the month-grid view
  (Sources/KSCalendar/KSCalendarMonthGrid.swift:65), not by the view model.
- The callbacks are sent from `willSet`. They fire before the new value is
  stored, but they carry the new value.
- Selecting a month always lands on its 1st, unless it is today's month.
  There is no "last day of a past month" variant; the code has that idea
  only as a comment.

## Model

| member | source | states |
|---|---|---|
| `Gregorian.IsLeapYear` | Sources/KSCalendar/KSCalendarViewModel.swift:250-258 | a year divisible by 4 is a leap year unless it is a century; a century is one exactly when it is divisible by 400; no other year is |
| `Gregorian.DaysInMonth` | Sources/KSCalendar/KSCalendarViewModel.swift:250-258 | every month has 28 to 31 days |
| `Gregorian.MonthsFillYear` | Sources/KSCalendar/KSCalendarViewModel.swift:250-258 | the month lengths of a year add up to 366 in leap years and 365 otherwise |
| `Gregorian.LeapRuleFacts` | Sources/KSCalendar/KSCalendarViewModel.swift:250-258 | February has 29 days in 2000 and 2024 and 28 in 1900 and 2023 |
| `Gregorian.WeekdayFacts` | Sources/KSCalendar/KSCalendarViewModel.swift:224-229 | 1 January 2022 is a Saturday (weekday 7) and 1 January of year 1 a Monday (weekday 2) |
| `Gregorian.Weekday` | Sources/KSCalendar/KSCalendarViewModel.swift:227 | the weekday component is always in 1..7 |
| `Gregorian.YearsAreConsecutive` | Sources/KSCalendar/KSCalendarViewModel.swift:227 | the first day of the next year comes one year length after the first day of this year |
| `Gregorian.NextDayNumber` | Sources/KSCalendar/KSCalendarViewModel.swift:227 | the day after a valid date is valid, and its day number is one more |
| `Gregorian.NextWeekday` | Sources/KSCalendar/KSCalendarViewModel.swift:227 | the weekday advances by one from each day to the next, wrapping from Saturday (7) to Sunday (1) |
| `Gregorian.WeekdayInMonth` | Sources/KSCalendar/KSCalendarViewModel.swift:227 | day d of a month falls d − 1 weekdays, modulo 7, after the 1st |
| `Gregorian.AddMonths` | Sources/KSCalendar/KSCalendarViewModel.swift:211 | adding months moves exactly that many months along the month line, with year carry; the day is kept unless the target month is shorter, and then clamped to its last day; the result of a valid date is valid |
| `Gregorian.AddYears` | Sources/KSCalendar/KSCalendarViewModel.swift:211 | adding years keeps the month, moves the year by the amount, and clamps the day to the target month's length |
| `Gregorian.DateByAdding` | Sources/KSCalendar/KSCalendarViewModel.swift:211 | adding months or years to a valid date gives a valid date |
| `Gregorian.AddMonthsInverse` | Sources/KSCalendar/KSCalendarViewModel.swift:211 | adding n months and then −n months gets back to the original year and month, even when the day was clamped |
| `Gregorian.IsSame` | Sources/KSCalendar/KSCalendarViewModel.swift:139-152 | at day granularity the dates are equal; at month granularity they have the same month index (the same year and month); at year granularity the same year; every granularity implies the same year |
| `Gregorian.SameIsCoarser` | Sources/KSCalendar/KSCalendarViewModel.swift:174 | the same day implies the same month, and the same month the same year |
| `Decimal.Digits` | Sources/KSCalendar/KSCalendarViewModel.swift:241 | the digits of a number are non-empty decimal digits, with a leading zero only for 0 |
| `Decimal.IntToString` | Sources/KSCalendar/KSCalendarViewModel.swift:241 | the text of a number is never empty |
| `Decimal.ParseInt` | Sources/KSCalendar/KSCalendarViewModel.swift:144 | `Int(_:)` accepts only non-empty text |
| `Decimal.DigitsRoundTrip` | Sources/KSCalendar/KSCalendarViewModel.swift:144 | reading back the digits of n gives n |
| `Decimal.IntRoundTrip` | Sources/KSCalendar/KSCalendarViewModel.swift:144 | `Int(String(n))` is n, for negative numbers too |
| `Decimal.IntToStringInjective` | Sources/KSCalendar/KSCalendarViewModel.swift:135 | two numbers have the same text exactly when they are equal |
| `MonthLayout.FirstDay` | Sources/KSCalendar/KSCalendarViewModel.swift:224-229 | the number of leading blanks is in 0..6, and counting that many columns from `firstWeekday` reaches the weekday of the 1st |
| `MonthLayout.DaysRange` | Sources/KSCalendar/KSCalendarViewModel.swift:250-258 | the days of a month are 1 ... DaysInMonth, in order |
| `MonthLayout.WeekDays` | Sources/KSCalendar/KSCalendarViewModel.swift:101-103 | the header has 7 entries, and entry i is the weekday symbol at (i + firstWeekday − 1) mod 7 |
| `MonthLayout.WeekDaysIsRotation` | Sources/KSCalendar/KSCalendarViewModel.swift:101-103 | the header is the weekday symbol table rotated to start at `firstWeekday` |
| `MonthLayout.DayUnderItsWeekday` | Sources/KSCalendar/KSCalendarViewModel.swift:224-248 | the grid cell of day d falls in the column whose header is the symbol of d's weekday |
| `MonthLayout.Title` | Sources/KSCalendar/KSCalendarViewModel.swift:231-236 | in year view the title is exactly the year's text, and `Int(title)` is that year. In month view it is the month's name, a space and the year's text, with nothing else |
| `MonthLayout.MonthSelection` | Sources/KSCalendar/KSCalendarViewModel.swift:169-181 | selecting (month, year) lands in that month. The result is today exactly when today is in that month, and otherwise the 1st |
| `MonthLayout.StepSelection` | Sources/KSCalendar/KSCalendarViewModel.swift:210-222 | the result is today exactly when the candidate (the selection plus the step) is in today's month (month steps) or year (year steps); otherwise it is the 1st of the candidate's month. A month step moves exactly that many months; a year step moves the year by the step and, unless it snaps, keeps the month and lands on day 1 |
| `MonthLayout.MonthStepsRoundTrip` | Sources/KSCalendar/KSCalendarViewModel.swift:184-190 | next then previous month returns to the selection's month. It lands on today exactly when that is today's month, and otherwise on the 1st; from today it returns to today |
| `MonthLayout.YearStepsRoundTrip` | Sources/KSCalendar/KSCalendarViewModel.swift:192-198 | next then previous year returns to the selection's year. It lands on today exactly when that is today's year; from today it returns to today |
| `MonthLayout.ClampedStepsExample` | Sources/KSCalendar/KSCalendarViewModel.swift:215-220 | from 31 January a month step lands on 1 February; from 29 February 2024 a year step lands on 1 February 2025, or on today when today is in 2025 |
| `KSCalendar.StartOfWeekFillDates` | Sources/KSCalendar/KSCalendarViewModel.swift:245-248 | there is one blank per leading column; blank i has id i, no day and every flag false |
| `KSCalendar.DayItemsForMonthView` | Sources/KSCalendar/KSCalendarViewModel.swift:238-243 | the grid is lead blanks (ids 0..lead−1), then exactly DaysInMonth day cells for days 1..DaysInMonth in order; the cell at position i holds day i − lead + 1 with id i + 1 |
| `KSCalendar.GridIds` | Sources/KSCalendar/KSCalendarViewModel.swift:241 | the grid's ids strictly increase, so none repeats, and the value lead is never an id |
| `KSCalendar.GridDaysParse` | Sources/KSCalendar/KSCalendarViewModel.swift:144 | only cells at or after lead hold a day, and `Int(_:)` reads each one's text back as its day number |
| `KSCalendar.FirstMatching` | Sources/KSCalendar/KSCalendarViewModel.swift:135 | `first(where:)` finds nothing exactly when no host item's day text equals the cell's text; otherwise it finds the first item whose text does |
| `KSCalendar.Stamp` | Sources/KSCalendar/KSCalendarViewModel.swift:132-154 | the cell keeps its id and text; a blank comes back unchanged; a day cell is today exactly when its date is `currentDate`, selected exactly when its date is `selectedDate`, takes both event flags from the first host item whose day text matches, and keeps its own flags when there is none |
| `KSCalendar.StampAll` | Sources/KSCalendar/KSCalendarViewModel.swift:132-154 | the `map` keeps the grid's length and treats each cell on its own, at its own position |
| `KSCalendar.FirstMatchingFindsDay` | Sources/KSCalendar/KSCalendarViewModel.swift:135 | `first(where:)` with the text comparison finds nothing exactly when no host item has the day. Otherwise it finds the first host item whose day number is the day |
| `KSCalendar.MonthItems` | Sources/KSCalendar/KSCalendarViewModel.swift:129-155 | `items` has the grid's length and ids. Blanks come out unchanged with every flag false. Each day cell takes both event flags from the first host item for its day (both false when there is none). It is today exactly when its date is `currentDate`, and selected exactly when its date is `selectedDate` |
| `KSCalendar.FlagsMarkOneCell` | Sources/KSCalendar/KSCalendarViewModel.swift:139-152 | at most one cell is today and at most one is selected; in today's month, today's cell is the one at position lead + day − 1 |
| `KSCalendar.EventsMergeByDay` | Sources/KSCalendar/KSCalendarViewModel.swift:133-138 | a day cell that no host item names has both event flags false; otherwise it has exactly the flags of the first host item with its day |
| `KSCalendar.January2022Grid` | Sources/KSCalendar/KSCalendarViewModel.swift:224-258 | with Sunday first, January 2022 has 6 blanks and 37 cells |
| `KSCalendar.January2022Events` | Sources/KSCalendar/KSCalendarViewModel.swift:224-258 | an event (primary only) on the 15th marks the cell "15" and no other |
| `KSCalendar.KSCalendarViewModel.constructor` | Sources/KSCalendar/KSCalendarViewModel.swift:65-72 | today is current and selected, month view is on, the hide flag is stored, and no callback has been sent |
| `KSCalendar.KSCalendarViewModel.SendIsDetailChange` | Sources/KSCalendar/KSCalendarViewModel.swift:260-265 | sends one view-change callback with the new value |
| `KSCalendar.KSCalendarViewModel.SendDateChange` | Sources/KSCalendar/KSCalendarViewModel.swift:267-272 | sends one date-change callback with the new value |
| `KSCalendar.KSCalendarViewModel.AssignSelectedDate` | Sources/KSCalendar/KSCalendarViewModel.swift:52-57 | an assignment to `selectedDate` stores the value and sends exactly one date-change callback with it |
| `KSCalendar.KSCalendarViewModel.AssignIsDetail` | Sources/KSCalendar/KSCalendarViewModel.swift:88-93 | an assignment to `isDetail` stores the value and sends exactly one view-change callback with it |
| `KSCalendar.KSCalendarViewModel.Title` | Sources/KSCalendar/KSCalendarViewModel.swift:95-99 | the title of the current state; in year view it reads back as the selected year |
| `KSCalendar.KSCalendarViewModel.WeekDays` | Sources/KSCalendar/KSCalendarViewModel.swift:101-103 | seven names, the first being the configured first weekday's |
| `KSCalendar.KSCalendarViewModel.Months` | Sources/KSCalendar/KSCalendarViewModel.swift:105-107 | the twelve short month names |
| `KSCalendar.KSCalendarViewModel.SelectedYear` | Sources/KSCalendar/KSCalendarViewModel.swift:109-111 | the selected date's year |
| `KSCalendar.KSCalendarViewModel.SelectedMonth` | Sources/KSCalendar/KSCalendarViewModel.swift:113-115 | the selected date's month, in 1..12 |
| `KSCalendar.KSCalendarViewModel.Items` | Sources/KSCalendar/KSCalendarViewModel.swift:129-155 | the grid for (month, year) with the host's data for that month; it does not depend on `isDetail`; a selected cell is the selected day of the selected month |
| `KSCalendar.KSCalendarViewModel.DidSelectDay` | Sources/KSCalendar/KSCalendarViewModel.swift:157-165 | keeps the selection's year and month and sets the day. `isDetail` is not touched, and one date callback is sent |
| `KSCalendar.KSCalendarViewModel.DidSelectMonth` | Sources/KSCalendar/KSCalendarViewModel.swift:167-182 | switches to month view, then selects today (in today's month) or the 1st of the month. Two callbacks are sent in that order |
| `KSCalendar.KSCalendarViewModel.SetSelectedDate` | Sources/KSCalendar/KSCalendarViewModel.swift:210-222 | the new selection is `StepSelection` of the old one, and one date callback is sent |
| `KSCalendar.KSCalendarViewModel.NextMonth` | Sources/KSCalendar/KSCalendarViewModel.swift:184-186 | the selection moves one month forward, with the snap rule; one callback |
| `KSCalendar.KSCalendarViewModel.PreviousMonth` | Sources/KSCalendar/KSCalendarViewModel.swift:188-190 | the selection moves one month back, with the snap rule; one callback |
| `KSCalendar.KSCalendarViewModel.NextYear` | Sources/KSCalendar/KSCalendarViewModel.swift:192-194 | the selection moves one year forward, with the snap rule; one callback |
| `KSCalendar.KSCalendarViewModel.PreviousYear` | Sources/KSCalendar/KSCalendarViewModel.swift:196-198 | the selection moves one year back, with the snap rule; one callback |
| `KSCalendar.KSCalendarViewModel.MonthYearToggle` | Sources/KSCalendar/KSCalendarViewModel.swift:200-202 | flips `isDetail` and sends one callback with the new value |
| `KSCalendar.NextThenPreviousMonthFromToday` | Sources/KSCalendar/KSCalendarViewModel.swift:184-190 | from today, next month then previous month selects today again; the last callback carries today |
| `KSCalendar.ToggleTwice` | Sources/KSCalendar/KSCalendarViewModel.swift:200-202 | toggling twice restores the view mode and sends both new values in turn |
| `LegacyCalendar.FillDates` | Sources/KSCalendar/CalendarViewModel.swift:179-188 | there is one blank per leading column; blank i has id i, no day and every flag false |
| `LegacyCalendar.DayCell` | Sources/KSCalendar/CalendarViewModel.swift:193-210 | the cell for day d has id lead + d, text that `Int(_:)` reads back as d, an event, a health event exactly when d is odd, and is today or selected exactly when its date is |
| `LegacyCalendar.DayItems` | Sources/KSCalendar/CalendarViewModel.swift:190-210 | days 1..DaysInMonth in order. Day d has id lead + d and always has an event. It has a health event exactly when d is odd, is today exactly when its date is `currentDate`, and is selected exactly when its date is `selectedDate` |
| `LegacyCalendar.DayItemsMarkOneCell` | Sources/KSCalendar/CalendarViewModel.swift:195-208 | at most one day cell is today and at most one is selected |
| `LegacyCalendar.CalendarViewModel.constructor` | Sources/KSCalendar/CalendarViewModel.swift:47-53 | today is current and selected, month view is on, and the hide flag is stored |
| `LegacyCalendar.CalendarViewModel.Title` | Sources/KSCalendar/CalendarViewModel.swift:72-76 | the title of the current state; in year view it reads back as the selected year |
| `LegacyCalendar.CalendarViewModel.WeekDays` | Sources/KSCalendar/CalendarViewModel.swift:78-80 | seven names, the first being the configured first weekday's |
| `LegacyCalendar.CalendarViewModel.SelectedYear` | Sources/KSCalendar/CalendarViewModel.swift:86-88 | the selected date's year |
| `LegacyCalendar.CalendarViewModel.SelectedMonth` | Sources/KSCalendar/CalendarViewModel.swift:90-92 | the selected date's month, in 1..12 |
| `LegacyCalendar.CalendarViewModel.Items` | Sources/KSCalendar/CalendarViewModel.swift:94-98 | the fill cells followed by the day cells, lead + DaysInMonth in all. Exactly the first lead cells are blank, and ids are the position for blanks and the position + 1 for days |
| `LegacyCalendar.CalendarViewModel.DidSelectDay` | Sources/KSCalendar/CalendarViewModel.swift:100-108 | keeps the selection's year and month and sets the day; nothing else changes |
| `LegacyCalendar.CalendarViewModel.DidSelectMonth` | Sources/KSCalendar/CalendarViewModel.swift:110-125 | switches to month view, then selects today (in today's month) or the 1st of the month |
| `LegacyCalendar.CalendarViewModel.SetSelectedDate` | Sources/KSCalendar/CalendarViewModel.swift:149-161 | the new selection is `StepSelection` of the old one |
| `LegacyCalendar.CalendarViewModel.NextMonth` | Sources/KSCalendar/CalendarViewModel.swift:127-129 | the selection moves one month forward, with the snap rule |
| `LegacyCalendar.CalendarViewModel.PreviousMonth` | Sources/KSCalendar/CalendarViewModel.swift:131-133 | the selection moves one month back, with the snap rule |
| `LegacyCalendar.CalendarViewModel.NextYear` | Sources/KSCalendar/CalendarViewModel.swift:135-137 | the selection moves one year forward, with the snap rule |
| `LegacyCalendar.CalendarViewModel.PreviousYear` | Sources/KSCalendar/CalendarViewModel.swift:139-141 | the selection moves one year back, with the snap rule |
| `LegacyCalendar.CalendarViewModel.MonthYearToggle` | Sources/KSCalendar/CalendarViewModel.swift:143-145 | flips `isDetail` |

## Left out

- The SwiftUI views (KSCalendarView.swift, KSCalendarMonthGrid.swift, CalendarView.swift, CalendarYearGrid.swift, KSCalendarYearGrid.swift) are layout, geometry, gestures and colours. Two rules there belong to the view, not the view model: the selection is highlighted only when `isDetail` (KSCalendarMonthGrid.swift:65), and taps are ignored in year view (KSCalendarMonthGrid.swift:52).
- CalendarData.swift and KSCalendarData.swift hold only Combine subjects and an empty stub. The host's data source is a function value in the model.
- The Combine subscriptions and the `@Published update` toggling are asynchronous UI plumbing. This includes the later changes of `monthViewIsHidded` through the host's `hideMonthView` subject. The model has only the value given to the initializer.
- The `NotificationCenter` posts are a process-wide broadcast and are not modelled. `sent` records the delegate callbacks each send makes.
- The delegate is a weak optional. `sent` records every send as if a delegate were attached; when none is, `delegate?.` does nothing.
- `currentSize` / `didChangeGeometry` only pass a `CGSize` through.
- The colour accessors (KSCalendarViewModel.swift:117-127) return theme values from the host.
- The earlier revision keeps a `CalendarData` object but never queries it for the grid; the query is commented out. It is not modelled.
- The calendar is the proleptic Gregorian calendar with astronomical year numbers. The program uses `Calendar.current`, the user's calendar, which may be Buddhist, Japanese, Hebrew or another system with other month lengths, weekdays and year numbers. Foundation's own Gregorian calendar also follows Julian rules before 15 October 1582 and numbers years by era, with no year 0. For such calendars or dates, `DaysInMonth`, `Weekday`, `FirstDay` and `Title` can differ from the program's. For example, Foundation gives February 1500 29 days, and `WeekdayFacts`' Monday for 1 January of year 1 holds only in the proleptic calendar.
- Foundation internals are not modelled: time zones, daylight saving, `startOfDay` on real timestamps, `Date()` and the locale's name tables. Today's date and the tables are initializer parameters.
- Years and ids are unbounded integers. Swift's 64-bit `Int` and the range of `Date` cannot overflow for any calendar year, so this makes no difference.
- `firstDay`'s `guard … else { return 0 }` branch cannot be taken for a month in 1..12, so it is not modelled.
- Swift's `%` truncates toward zero and Dafny's is Euclidean. In `firstDay` and `weekDays` the left operand is never negative, so the two agree.
- `Gregorian.DateByAdding`: models Foundation's addition only for the month and year components, the only ones the view models add.
- KSCalendarView.swift:25-30 calls an initializer taking `selectedDate` and `hideSecondaryEvent`. That initializer is from another revision and is not in KSCalendarViewModel.swift, which is modelled.
- The commented-out "last day of the month when in the past" idea (KSCalendarViewModel.swift:177-179) is not implemented in the code.
- The host data source is the `const` field `calendarData`, fixed for the view model's lifetime. A host update between renders (`calendarDataHasBeenUpdated`, KSCalendarData.swift:47-49) cannot happen in the model. Calling `items` twice therefore always gives equal grids, because `Items` is a function of the fixed data. `MonthItems` takes the host's items as a parameter, so its properties hold for any data the host supplies.
