/**
 * The expanded calendar (`CalendarView` in `frontend/src/components/CalendarView.tsx`): a
 * six-week grid of the selected month whose cells list that day's events, and buttons that
 * move to the neighbouring months. Months run from 1 to 12 here (JavaScript numbers them from
 * 0); a cell's date is the local calendar date, which the component's time-zone shift before
 * `toISOString()` recovers.
 */
module CalendarView {
  import opened Wrappers
  import opened Dates
  import Calendar

  const GridCells: nat := 42
  const JournalSubject: string := "Daily Journal"

  /** `new Date(year, month, 1).getDay()`: the weekday of the first, Sunday being 0. */
  function StartDay(year: int, month: int): (r: int)
    requires 1 <= month <= 12
    ensures 0 <= r <= 6
  {
    Weekday(Date(year, month, 1))
  }

  /** The day number a cell shows: the first sits under its weekday. */
  function DayNum(i: int, startDay: int): int {
    i - startDay + 1
  }

  /**
   * `new Date(year, month, day)`: the day `day - 1` days after the first, so a day number
   * outside the month rolls into the month before or after.
   */
  function CellDate(year: int, month: int, day: int): (r: Date)
    requires 1 <= month <= 12
    ensures Valid(r)
  {
    AddDays(Date(year, month, 1), day - 1)
  }

  /** A day number within the month is that day of the month. */
  lemma {:induction false} CellDateInMonth(year: int, month: int, day: int)
    requires 1 <= month <= 12 && 1 <= day <= DaysInMonth(year, month)
    ensures CellDate(year, month, day) == Date(year, month, day)
    decreases day
  {
    if day > 1 {
      CellDateInMonth(year, month, day - 1);
    }
  }

  /** The cell's `YYYY-MM-DD` string; years beyond four digits are not rendered. */
  function DateString(d: Date): string
    requires Valid(d)
  {
    if 0 <= d.year <= 9999 then Format(d) else ""
  }

  /** `events.filter(e => e.date === dateStr)`. */
  function EventsOn(events: seq<Calendar.Event>, dateStr: string): seq<Calendar.Event> {
    if events == [] then []
    else
      var e := events[|events| - 1];
      EventsOn(events[..|events| - 1], dateStr) + (if e.date == dateStr then [e] else [])
  }

  /** A cell lists exactly the events on its date, in their order, each as often as it occurs. */
  lemma {:induction false} EventsOnExactly(events: seq<Calendar.Event>, dateStr: string)
    ensures forall e: Calendar.Event :: e in EventsOn(events, dateStr) <==> e in events && e.date == dateStr
    ensures forall e: Calendar.Event | e.date == dateStr :: multiset(EventsOn(events, dateStr))[e] == multiset(events)[e]
    ensures |EventsOn(events, dateStr)| <= |events|
  {
    if events != [] {
      var init := events[..|events| - 1];
      EventsOnExactly(init, dateStr);
      assert events == init + [events[|events| - 1]];
    }
  }

  /**
   * One grid cell: its day number and date, whether the number is shown, whether a click
   * opens the create dialog, and the events listed (only in a numbered cell).
   */
  datatype Cell = Cell(dayNum: int, date: Date, labelled: bool, clickable: bool, events: seq<Calendar.Event>)

  function CellAt(year: int, month: int, events: seq<Calendar.Event>, i: int): Cell
    requires 1 <= month <= 12
  {
    var dayNum := DayNum(i, StartDay(year, month));
    var daysInMonth := DaysInMonth(year, month);
    var currentDate := CellDate(year, month, dayNum);
    var isCurrentMonth := currentDate.month == month;
    var labelled := dayNum > 0 && dayNum <= daysInMonth;
    Cell(dayNum, currentDate, labelled, isCurrentMonth && labelled,
         if labelled then EventsOn(events, DateString(currentDate)) else [])
  }

  /** The 42 cells, row by row. */
  function Grid(year: int, month: int, events: seq<Calendar.Event>): seq<Cell>
    requires 1 <= month <= 12
  {
    seq(GridCells, i requires 0 <= i < GridCells => CellAt(year, month, events, i))
  }

  /**
   * Cell `i` shows day `i - startDay + 1`; it is numbered exactly when that is a day of the
   * month, it is then that day, it can be clicked exactly when it is numbered, and it lists
   * the events of that date.
   */
  lemma GridCellShape(year: int, month: int, events: seq<Calendar.Event>, i: int)
    requires 1 <= month <= 12 && 0 <= i < GridCells
    ensures var c := Grid(year, month, events)[i];
      && c.dayNum == i - StartDay(year, month) + 1
      && (c.labelled <==> 1 <= c.dayNum <= DaysInMonth(year, month))
      && (c.clickable <==> c.labelled)
      && (c.labelled ==> c.date == Date(year, month, c.dayNum) &&
                         c.events == EventsOn(events, DateString(Date(year, month, c.dayNum))))
      && (!c.labelled ==> c.events == [])
  {
    var dayNum := i - StartDay(year, month) + 1;
    if 1 <= dayNum <= DaysInMonth(year, month) {
      CellDateInMonth(year, month, dayNum);
    }
  }

  /**
   * The first weekday is at most Saturday and a month has at most 31 days, so every day of
   * the month has exactly one cell.
   */
  lemma EveryDayOnce(year: int, month: int, events: seq<Calendar.Event>, day: int)
    requires 1 <= month <= 12 && 1 <= day <= DaysInMonth(year, month)
    ensures var i := day + StartDay(year, month) - 1;
      0 <= i < GridCells && Grid(year, month, events)[i].dayNum == day && Grid(year, month, events)[i].labelled
    ensures forall j | 0 <= j < GridCells :: Grid(year, month, events)[j].dayNum == day ==> j == day + StartDay(year, month) - 1
  {
  }

  /** What a click on a listed event does. */
  datatype EventAction = OpenJournal(date: string) | EditEvent(event: Calendar.Event)

  /** The journal's own entries open that day's journal; any other event opens the edit dialog. */
  function EventClick(e: Calendar.Event): (a: EventAction)
    ensures a.OpenJournal? <==> e.subject == Some(JournalSubject)
    ensures a.OpenJournal? ==> a.date == e.date
    ensures a.EditEvent? ==> a.event == e
  {
    if e.subject == Some(JournalSubject) then OpenJournal(e.date) else EditEvent(e)
  }

  /** The chevrons: the first of the month before, or after, rolling the year over. */
  function PreviousMonth(year: int, month: int): (d: Date)
    requires 1 <= month <= 12
    ensures Valid(d) && d.day == 1
    ensures DayNumber(d) + DaysInMonth(d.year, d.month) == DayNumber(Date(year, month, 1))
  {
    var d := if month == 1 then Date(year - 1, 12, 1) else Date(year, month - 1, 1);
    FirstFollows(d);
    d
  }

  function NextMonth(year: int, month: int): (d: Date)
    requires 1 <= month <= 12
    ensures Valid(d) && d.day == 1
    ensures DayNumber(d) == DayNumber(Date(year, month, 1)) + DaysInMonth(year, month)
  {
    var d := if month == 12 then Date(year + 1, 1, 1) else Date(year, month + 1, 1);
    FirstFollows(Date(year, month, 1));
    d
  }

  /** The first of the next month comes `DaysInMonth` days after the first of this one. */
  lemma FirstFollows(d: Date)
    requires 1 <= d.month <= 12 && d.day == 1
    ensures var n := if d.month == 12 then Date(d.year + 1, 1, 1) else Date(d.year, d.month + 1, 1);
      DayNumber(n) == DayNumber(d) + DaysInMonth(d.year, d.month)
  {
    if d.month == 12 {
      YearStep(d.year);
      YearSum(d.year);
    }
  }

  /** Going back a month and then forward again returns to the first of the month. */
  lemma MonthsInverse(year: int, month: int)
    requires 1 <= month <= 12
    ensures var p := PreviousMonth(year, month); NextMonth(p.year, p.month) == Date(year, month, 1)
    ensures var n := NextMonth(year, month); PreviousMonth(n.year, n.month) == Date(year, month, 1)
  {
  }
}
