/**
 * The events page: the type filter over the page's event list, the badge
 * colour of each type, the upcoming events in date order, and the 35-cell
 * month grid of the calendar view. Dates are day keys; "now" is an instant
 * in milliseconds since the epoch.
 */
module Events {
  import opened Seqs
  import opened CivilDates

  datatype Event = Event(
    id: int,
    title: string,
    date: int,
    time: string,
    location: string,
    eventType: string,
    description: string,
    registrationRequired: bool,
    contact: string)

  /** The page's ten events. */
  const AllEvents: seq<Event> := [
    Event(1, "Town Hall Meeting - Budget Review", DayKey(2024, 2, 15), "7:00 PM", "Bridgewater Community Center", "Government",
      "Public meeting to review and discuss the proposed 2024 municipal budget.", false, "Town Clerk: (860) 555-0123"),
    Event(2, "Volunteer Training Session", DayKey(2024, 2, 18), "10:00 AM", "Town Hall Conference Room", "Volunteer",
      "Training session for new campaign volunteers covering phone banking and canvassing.", true, "volunteer@bridgewaterdems.org"),
    Event(3, "Community Coffee with Curtis Read", DayKey(2024, 2, 22), "9:00 AM", "Bridgewater Diner", "Community",
      "Informal coffee meeting with First Selectman Curtis Read. Come discuss local issues.", false, "curtis.read@bridgewater.gov"),
    Event(4, "Environmental Committee Meeting", DayKey(2024, 2, 25), "6:30 PM", "Virtual Meeting (Zoom)", "Committee",
      "Monthly meeting of the Environmental Protection Committee to discuss ongoing initiatives.", true, "env.committee@bridgewaterdems.org"),
    Event(5, "Senior Citizens Forum", DayKey(2024, 2, 28), "2:00 PM", "Senior Center", "Community",
      "Monthly forum addressing senior services and programs in Bridgewater.", false, "seniors@bridgewater.gov"),
    Event(6, "Campaign Strategy Meeting", DayKey(2024, 3, 5), "7:30 PM", "Democratic Town Committee Office", "Political",
      "Strategic planning meeting for upcoming campaign activities and events.", true, "info@bridgewaterdems.org"),
    Event(7, "Infrastructure Public Hearing", DayKey(2024, 3, 8), "7:00 PM", "Town Hall Auditorium", "Government",
      "Public hearing on proposed infrastructure improvements for Route 133.", false, "planning@bridgewater.gov"),
    Event(8, "Volunteer Appreciation Dinner", DayKey(2024, 3, 15), "6:00 PM", "Bridgewater Country Club", "Volunteer",
      "Annual dinner celebrating our dedicated volunteers and their contributions.", true, "events@bridgewaterdems.org"),
    Event(9, "Board of Education Meeting", DayKey(2024, 3, 18), "7:00 PM", "Bridgewater Elementary School", "Government",
      "Regular monthly meeting of the Board of Education.", false, "boe@bridgewater.edu"),
    Event(10, "Spring Town Clean-Up Day", DayKey(2024, 3, 22), "8:00 AM", "Town Green (Meeting Point)", "Community",
      "Community-wide clean-up day. Volunteers needed! Supplies provided.", true, "volunteer@bridgewaterdems.org")
  ]

  /** The filter buttons. */
  const EventTypes: seq<string> := ["All", "Government", "Community", "Volunteer", "Committee", "Political"]

  // ------------------------------------------------------------------
  // type filter

  /** `selectedType === 'All' ? events : events.filter(event => event.type === selectedType)`. */
  function FilteredEvents(events: seq<Event>, selectedType: string): (r: seq<Event>)
    ensures selectedType == "All" ==> r == events
    ensures selectedType != "All" ==>
      forall e :: multiset(r)[e] == if e.eventType == selectedType then multiset(events)[e] else 0
  {
    if selectedType == "All" then events
    else
      var r := Filter(events, (e: Event) => e.eventType == selectedType);
      assert forall e :: multiset(r)[e] == if e.eventType == selectedType then multiset(events)[e] else 0 by {
        forall e ensures multiset(r)[e] == if e.eventType == selectedType then multiset(events)[e] else 0 {
          FilterCount(events, (e: Event) => e.eventType == selectedType, e);
        }
      }
      r
  }

  /** Filtering keeps the list order: the events of a prefix of the list come first. */
  lemma FilteredEventsKeepOrder(front: seq<Event>, back: seq<Event>, selectedType: string)
    ensures FilteredEvents(front + back, selectedType)
      == FilteredEvents(front, selectedType) + FilteredEvents(back, selectedType)
  {
    if selectedType != "All" {
      FilterAppend(front, back, (e: Event) => e.eventType == selectedType);
    }
  }

  /** `getTypeColor(type)`: the class of the five known types, grey for any other. */
  function TypeColor(eventType: string): (r: string)
    ensures eventType == "Government" ==> r == "bg-blue-100 text-blue-800"
    ensures eventType == "Community" ==> r == "bg-green-100 text-green-800"
    ensures eventType == "Volunteer" ==> r == "bg-purple-100 text-purple-800"
    ensures eventType == "Committee" ==> r == "bg-yellow-100 text-yellow-800"
    ensures eventType == "Political" ==> r == "bg-red-100 text-red-800"
    ensures eventType !in EventTypes[1..] ==> r == "bg-gray-100 text-gray-800"
  {
    if eventType == "Government" then "bg-blue-100 text-blue-800"
    else if eventType == "Community" then "bg-green-100 text-green-800"
    else if eventType == "Volunteer" then "bg-purple-100 text-purple-800"
    else if eventType == "Committee" then "bg-yellow-100 text-yellow-800"
    else if eventType == "Political" then "bg-red-100 text-red-800"
    else "bg-gray-100 text-gray-800"
  }

  // ------------------------------------------------------------------
  // upcoming events

  /** `event.date`, the key the upcoming list is sorted by. */
  function EventDate(e: Event): int {
    e.date
  }

  /** `event => isUpcoming(event.date)`. */
  function UpcomingAt(now: int): Event -> bool {
    (e: Event) => IsUpcoming(e.date, now)
  }

  /**
   * `filteredEvents.filter(event => isUpcoming(event.date)).sort(by date)`:
   * the events at or after `now`, each as often as in the list, in ascending
   * date order.
   */
  function UpcomingEvents(filtered: seq<Event>, now: int): (r: seq<Event>)
    ensures forall i :: 0 <= i < |r| ==> IsUpcoming(r[i].date, now) && r[i] in filtered
    ensures forall e :: multiset(r)[e] == if IsUpcoming(e.date, now) then multiset(filtered)[e] else 0
    ensures forall i, j :: 0 <= i < j < |r| ==> r[i].date <= r[j].date
  {
    var r := SortBy(Filter(filtered, UpcomingAt(now)), EventDate);
    UpcomingCount(filtered, now, r);
    UpcomingMembers(filtered, now, r);
    r
  }

  /** A list with the multiset of the upcoming events counts each event as often as the list does, if it lies ahead. */
  lemma UpcomingCount(filtered: seq<Event>, now: int, r: seq<Event>)
    requires multiset(r) == multiset(Filter(filtered, UpcomingAt(now)))
    ensures forall e :: multiset(r)[e] == if IsUpcoming(e.date, now) then multiset(filtered)[e] else 0
  {
    forall e
      ensures multiset(r)[e] == if IsUpcoming(e.date, now) then multiset(filtered)[e] else 0
    {
      FilterCount(filtered, UpcomingAt(now), e);
    }
  }

  /** Every event of a list with the multiset of the upcoming events lies ahead and comes from the list. */
  lemma UpcomingMembers(filtered: seq<Event>, now: int, r: seq<Event>)
    requires multiset(r) == multiset(Filter(filtered, UpcomingAt(now)))
    ensures forall i :: 0 <= i < |r| ==> IsUpcoming(r[i].date, now) && r[i] in filtered
  {
    var upcoming := Filter(filtered, UpcomingAt(now));
    forall i | 0 <= i < |r|
      ensures r[i] in upcoming
    {
      assert r[i] in multiset(r);
    }
  }

  /** The sort is stable: upcoming events of the same day keep the order of the list. */
  lemma UpcomingSameDayInListOrder(filtered: seq<Event>, now: int, day: int)
    requires IsUpcoming(day, now)
    ensures WithKey(UpcomingEvents(filtered, now), EventDate, day) == WithKey(filtered, EventDate, day)
  {
    SortByStable(Filter(filtered, UpcomingAt(now)), EventDate, day);
    WithKeyOfFilter(filtered, UpcomingAt(now), EventDate, day);
  }

  /** The "no upcoming events" message shows exactly when no event of the selected type lies ahead. */
  lemma NoUpcomingMessage(filtered: seq<Event>, now: int)
    ensures |UpcomingEvents(filtered, now)| == 0 <==> forall i :: 0 <= i < |filtered| ==> !IsUpcoming(filtered[i].date, now)
  {
    var r := UpcomingEvents(filtered, now);
    if |r| == 0 {
      forall i | 0 <= i < |filtered|
        ensures !IsUpcoming(filtered[i].date, now)
      {
        assert filtered[i] in multiset(filtered);
        assert multiset(r)[filtered[i]] == 0;
      }
    } else {
      assert r[0] in r;
    }
  }

  // ------------------------------------------------------------------
  // calendar grid

  /** One cell of the grid: its day, whether it lies in the selected month, and its events. */
  datatype CalendarCell = CalendarCell(day: int, inMonth: bool, events: seq<Event>)

  /** A cell of `day`: the upcoming events whose date is that day, in upcoming order. */
  function CellOf(upcoming: seq<Event>, day: int, inMonth: bool): (c: CalendarCell)
    ensures c.day == day && c.inMonth == inMonth
    ensures forall e :: e in c.events <==> e in upcoming && e.date == day
  {
    CalendarCell(day, inMonth, Filter(upcoming, (e: Event) => e.date == day))
  }

  /**
   * `new Date(selectedYear, selectedMonth, i - 6)` with a zero-based month:
   * day `i - 6` of the month, a day number below 1 counting back into the
   * month before.
   */
  function CellDay(year: int, month: int, i: int): (d: int)
    requires 0 <= month <= 11
    ensures d == DayKey(year, month + 1, 1) + i - 7
  {
    DayKey(year, month + 1, i - 6)
  }

  /**
   * The 35 cells of the grid, cell `i` holding day `i - 6` of the month and
   * the upcoming events of exactly that day, in their upcoming order.
   */
  function CalendarCells(upcoming: seq<Event>, year: int, month: int): (cells: seq<CalendarCell>)
    requires 0 <= month <= 11
    ensures |cells| == 35
    ensures forall i :: 0 <= i < 35 ==> cells[i].day == DayKey(year, month + 1, 1) + i - 7
    ensures forall i :: 0 <= i < 35 ==> (cells[i].inMonth <==> 7 <= i)
    ensures forall i, e :: 0 <= i < 35 && e in cells[i].events ==> e in upcoming && e.date == cells[i].day
    ensures forall i, e :: 0 <= i < 35 && e in upcoming && e.date == cells[i].day ==> e in cells[i].events
  {
    seq(35, i requires 0 <= i < 35 =>
      CellOf(upcoming, CellDay(year, month, i), 1 <= i - 6 <= DaysInMonth(year, month + 1)))
  }

  /** The grid shows days 1 to 28 of the month in cells 7 to 34, so the 29th, 30th and 31st never appear. */
  lemma CalendarShowsOnlyFirst28Days(upcoming: seq<Event>, year: int, month: int, d: int)
    requires 0 <= month <= 11
    ensures (exists i :: 0 <= i < 35 && CalendarCells(upcoming, year, month)[i].day == DayKey(year, month + 1, d))
      <==> -6 <= d <= 28
  {
    var cells := CalendarCells(upcoming, year, month);
    DayKeyShift(year, month + 1, d);
    if -6 <= d <= 28 {
      assert cells[d + 6].day == DayKey(year, month + 1, d);
    }
    if i :| 0 <= i < 35 && cells[i].day == DayKey(year, month + 1, d) {
      assert cells[i].day == DayKey(year, month + 1, 1) + i - 7;
      assert d == i - 6;
    }
  }

  /** So in March 2024 the events of the 29th, 30th and 31st are in no cell, whatever their date. */
  lemma CalendarMissesEndOfMarch(upcoming: seq<Event>)
    ensures DaysInMonth(2024, 3) == 31
    ensures forall i :: 0 <= i < 35 ==> CalendarCells(upcoming, 2024, 2)[i].day != DayKey(2024, 3, 31)
  {
    CalendarShowsOnlyFirst28Days(upcoming, 2024, 2, 31);
  }

  /**
   * A grid of six rows of seven cells for a month of `length` days whose 1st
   * has day key `first`: the first cell is the Sunday on or before the 1st.
   */
  function WeekGrid(upcoming: seq<Event>, first: int, length: int): (cells: seq<CalendarCell>)
    ensures |cells| == 42
    ensures forall i :: 0 <= i < 42 ==> cells[i].day == first - Weekday(first) + i
    ensures forall i :: 0 <= i < 42 ==> (cells[i].inMonth <==> 1 <= cells[i].day - first + 1 <= length)
    ensures forall i, e :: 0 <= i < 42 && e in cells[i].events ==> e in upcoming && e.date == cells[i].day
    ensures forall i, e :: 0 <= i < 42 && e in upcoming && e.date == cells[i].day ==> e in cells[i].events
  {
    var cells := seq(42, i requires 0 <= i < 42 =>
      CellOf(upcoming, first - Weekday(first) + i, Weekday(first) <= i < Weekday(first) + length));
    assert forall i :: 0 <= i < 42 ==>
      cells[i] == CellOf(upcoming, first - Weekday(first) + i, Weekday(first) <= i < Weekday(first) + length);
    cells
  }

  /** Each column of the week grid holds one weekday, Sunday first, as the header row says. */
  lemma WeekGridColumns(upcoming: seq<Event>, first: int, length: int, i: int)
    requires 0 <= i < 42
    ensures Weekday(WeekGrid(upcoming, first, length)[i].day) == i % 7
  {
    var lead := Weekday(first);
    assert first + 4 == ((first + 4) / 7) * 7 + lead;
    ModOfMultiplePlus((first + 4) / 7, 7, i);
  }

  /** Every day of the month has a cell of the week grid, marked as in the month. */
  lemma WeekGridCoversMonth(upcoming: seq<Event>, first: int, length: int, d: int)
    requires 1 <= d <= length <= 31
    ensures var i := Weekday(first) + d - 1;
      0 <= i < 42 && WeekGrid(upcoming, first, length)[i].day == first + d - 1
      && WeekGrid(upcoming, first, length)[i].inMonth
  {
  }

  /** The calendar grid the weekday header row calls for: the week grid of the selected month. */
  function AlignedCalendarCells(upcoming: seq<Event>, year: int, month: int): (cells: seq<CalendarCell>)
    requires 0 <= month <= 11
    ensures |cells| == 42
    ensures forall i :: 0 <= i < 42 ==> Weekday(cells[i].day) == i % 7
  {
    var cells := WeekGrid(upcoming, DayKey(year, month + 1, 1), DaysInMonth(year, month + 1));
    forall i | 0 <= i < 42
      ensures Weekday(cells[i].day) == i % 7
    {
      WeekGridColumns(upcoming, DayKey(year, month + 1, 1), DaysInMonth(year, month + 1), i);
    }
    cells
  }

  /** Every day of the selected month, the 29th to the 31st included, has its cell in the aligned grid. */
  lemma AlignedCalendarCoversMonth(upcoming: seq<Event>, year: int, month: int, d: int)
    requires 0 <= month <= 11 && 1 <= d <= DaysInMonth(year, month + 1)
    ensures var i := Weekday(DayKey(year, month + 1, 1)) + d - 1;
      var cells := AlignedCalendarCells(upcoming, year, month);
      0 <= i < 42 && cells[i].day == DayKey(year, month + 1, d) && cells[i].inMonth
      && forall e :: e in cells[i].events <==> e in upcoming && e.date == DayKey(year, month + 1, d)
  {
    DayKeyShift(year, month + 1, d);
    WeekGridCoversMonth(upcoming, DayKey(year, month + 1, 1), DaysInMonth(year, month + 1), d);
  }
}
