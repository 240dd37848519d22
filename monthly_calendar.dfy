/** The month view of the workout history (src/components/MonthlyCalendarModal.tsx):
    the Monday-first grid of the displayed month, its split into weeks, the
    status counts and the month navigation. The displayed month and today are
    parameters in place of `new Date()`. */
module MonthlyCalendar {
  import opened Common
  import opened DayNumbers
  import opened ProgramTypes
  import opened WorkoutHistory

  /** One cell of `calendarDays`. */
  datatype CalendarDay = CalendarDay(date: Day, isCurrentMonth: bool, isToday: bool, workout: Option<WorkoutDay>)

  /** `startOfWeek(startOfMonth(currentDate), { weekStartsOn: 1 })` */
  function CalendarStart(ym: YearMonth): Day
    requires ym.Valid()
  {
    StartOfWeek(FirstDayOfMonth(ym))
  }

  /** `endOfWeek(endOfMonth(currentDate), { weekStartsOn: 1 })` */
  function CalendarEnd(ym: YearMonth): Day
    requires ym.Valid()
  {
    EndOfWeek(LastDayOfMonth(ym))
  }

  /** The cell the loop pushes for day `d`. */
  function Cell(d: Day, ym: YearMonth, today: Day, ws: seq<WorkoutDay>): CalendarDay
    requires ym.Valid()
  {
    CalendarDay(d, InMonth(d, ym), d == today, FindWorkout(ws, d))
  }

  /** The grid: one cell per day from the calendar start to the calendar end. */
  function Grid(ym: YearMonth, today: Day, ws: seq<WorkoutDay>): seq<CalendarDay>
    requires ym.Valid()
  {
    var start := CalendarStart(ym);
    seq(CalendarEnd(ym) - start + 1, i => Cell(start + i, ym, today, ws))
  }

  /** The `while (day <= calendarEnd)` loop that fills `calendarDays`. */
  method BuildGrid(ym: YearMonth, today: Day, ws: seq<WorkoutDay>) returns (calendarDays: seq<CalendarDay>)
    requires ym.Valid()
    ensures calendarDays == Grid(ym, today, ws)
  {
    var calendarStart := CalendarStart(ym);
    var calendarEnd := CalendarEnd(ym);
    calendarDays := [];
    var day := calendarStart;
    while day <= calendarEnd
      invariant calendarStart <= day <= calendarEnd + 1
      invariant |calendarDays| == day - calendarStart
      invariant forall i :: 0 <= i < |calendarDays| ==> calendarDays[i] == Cell(calendarStart + i, ym, today, ws)
      decreases calendarEnd - day
    {
      var workout := FindWorkout(ws, day);
      calendarDays := calendarDays + [CalendarDay(day, InMonth(day, ym), day == today, workout)];
      day := day + 1;
    }
  }

  /** From the Monday on or before `first` to the Sunday on or after `last`
      lie whole weeks; for a month's first and last day, four to six. */
  lemma WeekSpan(first: Day, last: Day)
    requires first + 27 <= last <= first + 30
    ensures var n := EndOfWeek(last) - StartOfWeek(first) + 1;
      n % 7 == 0 && 28 <= n <= 42
  {
    var start, end := StartOfWeek(first), EndOfWeek(last);
    var a, b := start / 7, end / 7;
    assert start == 7 * a;
    assert end == 7 * b + 6;
    assert end - start + 1 == 7 * (b - a + 1);
  }

  /** The grid starts on the Monday on or before the first of the month, ends
      on the Sunday on or after its last day, and holds whole weeks: four to six. */
  lemma GridShape(ym: YearMonth, today: Day, ws: seq<WorkoutDay>)
    requires ym.Valid()
    ensures var g := Grid(ym, today, ws);
      |g| % 7 == 0 && 28 <= |g| <= 42 &&
      Weekday(g[0].date) == 0 && g[0].date <= FirstDayOfMonth(ym) < g[0].date + 7 &&
      Weekday(g[|g| - 1].date) == 6 && g[|g| - 1].date - 7 < LastDayOfMonth(ym) <= g[|g| - 1].date
  {
    var first, last := FirstDayOfMonth(ym), LastDayOfMonth(ym);
    WeekSpan(first, last);
    var start, end := CalendarStart(ym), CalendarEnd(ym);
    assert start == StartOfWeek(first) && end == EndOfWeek(last);
    var g := Grid(ym, today, ws);
    assert |g| == end - start + 1;
    assert g[0] == Cell(start, ym, today, ws);
    assert g[|g| - 1] == Cell(start + (|g| - 1), ym, today, ws);
  }

  /** Cell `i` is day `start + i`, so the days are consecutive and each appears
      once; a cell is in the current month exactly when its day is, is today
      exactly when its day is, and shows the first history entry of its day. */
  lemma GridCells(ym: YearMonth, today: Day, ws: seq<WorkoutDay>)
    requires ym.Valid()
    ensures var g := Grid(ym, today, ws);
      forall i :: 0 <= i < |g| ==>
        g[i].date == CalendarStart(ym) + i &&
        (g[i].isCurrentMonth <==> InMonth(g[i].date, ym)) &&
        (g[i].isToday <==> g[i].date == today) &&
        g[i].workout == FindWorkout(ws, g[i].date)
    ensures var g := Grid(ym, today, ws);
      forall i, j :: 0 <= i < |g| && 0 <= j < |g| && g[i].date == g[j].date ==> i == j
  {
    var g := Grid(ym, today, ws);
    forall i | 0 <= i < |g|
      ensures g[i] == Cell(CalendarStart(ym) + i, ym, today, ws)
    {
    }
  }

  /** Every day of the displayed month has its cell, marked as in the month. */
  lemma MonthCovered(ym: YearMonth, today: Day, ws: seq<WorkoutDay>, d: Day)
    requires ym.Valid() && InMonth(d, ym)
    ensures var g := Grid(ym, today, ws);
      0 <= d - CalendarStart(ym) < |g| && g[d - CalendarStart(ym)].date == d && g[d - CalendarStart(ym)].isCurrentMonth
  {
    var first, last := FirstDayOfMonth(ym), LastDayOfMonth(ym);
    assert StartOfWeek(first) <= first <= d <= last <= EndOfWeek(last);
    var g := Grid(ym, today, ws);
    assert g[d - CalendarStart(ym)] == Cell(d, ym, today, ws);
  }

  // ---------------------------------------------------------------------
  // Weeks

  /** The weeks put back together, in order. */
  function Flatten<T>(weeks: seq<seq<T>>): seq<T>
    decreases |weeks|
  {
    if weeks == [] then [] else Flatten(weeks[..|weeks| - 1]) + weeks[|weeks| - 1]
  }

  function Min(a: int, b: int): int
  {
    if a <= b then a else b
  }

  /** `for (let i = 0; i < calendarDays.length; i += 7) weeks.push(calendarDays.slice(i, i + 7))` */
  method ChunkWeeks<T>(days: seq<T>) returns (weeks: seq<seq<T>>)
    ensures |weeks| == (|days| + 6) / 7
    ensures forall k :: 0 <= k < |weeks| ==> weeks[k] == days[7 * k..Min(7 * k + 7, |days|)]
    ensures forall k :: 0 <= k < |weeks| ==> 1 <= |weeks[k]| <= 7
    ensures |days| % 7 == 0 ==> forall k :: 0 <= k < |weeks| ==> |weeks[k]| == 7
    ensures Flatten(weeks) == days
  {
    weeks := [];
    var i := 0;
    while i < |days|
      invariant i == 7 * |weeks|
      invariant i <= |days| || i < |days| + 7
      invariant forall k :: 0 <= k < |weeks| ==> weeks[k] == days[7 * k..Min(7 * k + 7, |days|)]
      invariant Flatten(weeks) == days[..Min(i, |days|)]
      decreases |days| - i
    {
      var week := days[i..Min(i + 7, |days|)];
      assert days[..Min(i + 7, |days|)] == days[..i] + week;
      var before := weeks;
      weeks := weeks + [week];
      assert weeks[..|weeks| - 1] == before;
      i := i + 7;
    }
    assert days[..Min(i, |days|)] == days;
  }

  // ---------------------------------------------------------------------
  // Navigation

  /** The three header buttons. */
  datatype Navigation = PreviousMonth | NextMonthButton | Today

  /** `goToPreviousMonth`, `goToNextMonth` and `goToToday` on the displayed month. */
  function Navigate(shown: YearMonth, action: Navigation, todayMonth: YearMonth): (r: YearMonth)
    requires shown.Valid() && todayMonth.Valid()
    ensures r.Valid()
    ensures action == PreviousMonth ==> MonthIndex(r) == MonthIndex(shown) - 1
    ensures action == NextMonthButton ==> MonthIndex(r) == MonthIndex(shown) + 1
    ensures action == Today ==> r == todayMonth
  {
    match action
    case PreviousMonth => PrevMonth(shown)
    case NextMonthButton => NextMonth(shown)
    case Today => todayMonth
  }

  /** Going forward and back (or back and forward) shows the same month again. */
  lemma ForwardBack(shown: YearMonth, todayMonth: YearMonth)
    requires shown.Valid() && todayMonth.Valid()
    ensures Navigate(Navigate(shown, NextMonthButton, todayMonth), PreviousMonth, todayMonth) == shown
    ensures Navigate(Navigate(shown, PreviousMonth, todayMonth), NextMonthButton, todayMonth) == shown
  {
    NextPrevInverse(shown);
  }
}
