/**
 * The right sidebar's month preview (`RightSidebar` in
 * `frontend/src/components/RightSidebar.tsx`): five weeks of the selected month, each cell
 * with its number and a dot when some event falls on its date. Cells are numbered and dated
 * as in the expanded calendar, whose definitions are reused.
 */
module RightSidebar {
  import opened Wrappers
  import opened Dates
  import Calendar
  import CalendarView

  const MiniCells: nat := 35
  const NumberLimit: int := 31

  /** One cell: the number shown, if any; whether it is dimmed; whether it carries the event dot. */
  datatype MiniCell = MiniCell(number: Option<int>, dimmed: bool, dot: bool)

  /** `events.some(e => e.date === dateStr)`. */
  predicate AnyOn(events: seq<Calendar.Event>, dateStr: string) {
    exists e | e in events :: e.date == dateStr
  }

  function MiniCellAt(year: int, month: int, events: seq<Calendar.Event>, i: int): MiniCell
    requires 1 <= month <= 12
  {
    var dayNum := CalendarView.DayNum(i, CalendarView.StartDay(year, month));
    var currentDate := CalendarView.CellDate(year, month, dayNum);
    var isCurrentMonth := currentDate.month == month;
    var hasEvents := AnyOn(events, CalendarView.DateString(currentDate));
    var numbered := dayNum > 0 && dayNum <= NumberLimit;
    MiniCell(if numbered then Some(dayNum) else None, !isCurrentMonth, numbered && hasEvents)
  }

  /** The sidebar's grid; nothing at all in cooking mode. */
  function MiniGrid(year: int, month: int, events: seq<Calendar.Event>, cookingMode: bool): (cells: Option<seq<MiniCell>>)
    requires 1 <= month <= 12
    ensures cells.None? <==> cookingMode
    ensures cells.Some? ==> |cells.value| == MiniCells
  {
    if cookingMode then None
    else Some(seq(MiniCells, i requires 0 <= i < MiniCells => MiniCellAt(year, month, events, i)))
  }

  /** The day number behind cell `i`. */
  function CellDay(year: int, month: int, i: int): int
    requires 1 <= month <= 12
  {
    i - CalendarView.StartDay(year, month) + 1
  }

  /**
   * Cell `i` shows day `i - startDay + 1` whenever that lies between 1 and 31, whatever the
   * month's length; it is dimmed exactly when its date lies outside the month, and it has a dot
   * exactly when it shows a number and some event falls on its date.
   */
  lemma MiniCellShape(year: int, month: int, events: seq<Calendar.Event>, i: int)
    requires 1 <= month <= 12 && 0 <= i < MiniCells
    ensures var c := MiniGrid(year, month, events, false).value[i];
      var date := CalendarView.CellDate(year, month, CellDay(year, month, i));
      && (c.number.Some? <==> 1 <= CellDay(year, month, i) <= NumberLimit)
      && (c.number.Some? ==> c.number.value == CellDay(year, month, i))
      && (c.dimmed <==> date.month != month)
      && (c.dot <==> c.number.Some? && AnyOn(events, CalendarView.DateString(date)))
  {
    assert MiniGrid(year, month, events, false).value[i] == MiniCellAt(year, month, events, i);
  }

  /** A cell whose day lies in the month shows that day and is not dimmed. */
  lemma InMonthCell(year: int, month: int, events: seq<Calendar.Event>, i: int)
    requires 1 <= month <= 12 && 0 <= i < MiniCells && 1 <= CellDay(year, month, i) <= DaysInMonth(year, month)
    ensures var c := MiniGrid(year, month, events, false).value[i];
      c.number == Some(CellDay(year, month, i)) && !c.dimmed
  {
    MiniCellShape(year, month, events, i);
    CalendarView.CellDateInMonth(year, month, CellDay(year, month, i));
  }

  /** A day falls in the preview only when it comes within five weeks of the first's weekday. */
  lemma LateDaysMissing(year: int, month: int, events: seq<Calendar.Event>, day: int)
    requires 1 <= month <= 12 && 1 <= day <= DaysInMonth(year, month)
    ensures (exists i | 0 <= i < MiniCells :: MiniGrid(year, month, events, false).value[i].number == Some(day))
      <==> CalendarView.StartDay(year, month) + day <= MiniCells
  {
    var s := CalendarView.StartDay(year, month);
    if s + day <= MiniCells {
      MiniCellShape(year, month, events, day + s - 1);
    } else {
      forall i | 0 <= i < MiniCells
        ensures MiniGrid(year, month, events, false).value[i].number != Some(day)
      {
        MiniCellShape(year, month, events, i);
      }
    }
  }

  /**
   * In a month shorter than 31 days, the cell after its last day still shows the next number,
   * dimmed, and its dot reports the first of the following month.
   */
  lemma NumberPastMonthEnd(year: int, month: int, events: seq<Calendar.Event>)
    requires 1 <= month < 12 && DaysInMonth(year, month) < NumberLimit
    requires CalendarView.StartDay(year, month) + DaysInMonth(year, month) < MiniCells
    ensures var n := DaysInMonth(year, month);
      var c := MiniGrid(year, month, events, false).value[n + CalendarView.StartDay(year, month)];
      c.number == Some(n + 1) && c.dimmed && (c.dot <==> AnyOn(events, CalendarView.DateString(Date(year, month + 1, 1))))
  {
    var n := DaysInMonth(year, month);
    var i := n + CalendarView.StartDay(year, month);
    assert CellDay(year, month, i) == n + 1;
    MiniCellShape(year, month, events, i);
    NextAfterLast(year, month);
  }

  lemma NextAfterLast(year: int, month: int)
    requires 1 <= month < 12
    ensures CalendarView.CellDate(year, month, DaysInMonth(year, month) + 1) == Date(year, month + 1, 1)
  {
    var n := DaysInMonth(year, month);
    CalendarView.CellDateInMonth(year, month, n);
    assert CalendarView.CellDate(year, month, n + 1) == NextDay(Date(year, month, n));
  }
}
