/** The week strip on the today screen (src/components/WeeklyStreak.tsx): the
    seven days of the current week from Monday, each with its label, its
    history entry and whether it is today or past, and the number of
    completed days. Today is a parameter in place of `new Date()`. */
module WeeklyStreak {
  import opened Common
  import opened DayNumbers
  import opened ProgramTypes
  import opened WorkoutHistory

  /** `WEEKDAYS`: the Turkish short day names, Monday first. */
  const Weekdays: seq<string> := ["Pzt", "Sal", "Çar", "Per", "Cum", "Cmt", "Paz"]

  /** One element of `days`. */
  datatype StripDay = StripDay(
    date: Day,
    dayName: string,
    isToday: bool,
    isPast: bool,
    status: Option<ScheduleStatus>,
    workoutCount: int)

  /** The element for position `i` of the week of `today`. */
  function StripDayAt(today: Day, ws: seq<WorkoutDay>, i: nat): (s: StripDay)
    requires i < 7
    ensures s.date == StartOfWeek(today) + i && s.dayName == Weekdays[i]
    ensures s.isToday <==> s.date == today
    ensures s.isPast <==> s.date < today
    ensures FindWorkout(ws, s.date).None? ==> s.status.None? && s.workoutCount == 0
    ensures FindWorkout(ws, s.date).Some? ==>
      s.status == Some(FindWorkout(ws, s.date).value.status) && s.workoutCount == FindWorkout(ws, s.date).value.workoutCount
  {
    var date := StartOfWeek(today) + i;
    var workout := FindWorkout(ws, date);
    var isToday := date == today;
    StripDay(date, Weekdays[i], isToday, date < today && !isToday,
      if workout.Some? then Some(workout.value.status) else None,
      if workout.Some? then workout.value.workoutCount else 0)
  }

  /** `Array.from({ length: 7 }, (_, i) => ...)` */
  function Strip(today: Day, ws: seq<WorkoutDay>): (days: seq<StripDay>)
    ensures |days| == 7
  {
    seq(7, i requires 0 <= i < 7 => StripDayAt(today, ws, i))
  }

  /** `days.filter((d) => d.status === 'done').length` */
  function CompletedCount(days: seq<StripDay>): (n: nat)
    ensures n <= |days|
    ensures n == 0 <==> forall i :: 0 <= i < |days| ==> days[i].status != Some(Done)
    decreases |days|
  {
    if days == [] then 0
    else CompletedCount(days[..|days| - 1]) + (if days[|days| - 1].status == Some(Done) then 1 else 0)
  }

  /** The strip is the seven consecutive days of today's week, Monday first,
      labelled in order, with today among them exactly once. */
  lemma StripIsWeek(today: Day, ws: seq<WorkoutDay>)
    ensures var days := Strip(today, ws);
      Weekday(days[0].date) == 0 &&
      (forall i :: 0 <= i < 7 ==> days[i].date == days[0].date + i && Weekday(days[i].date) == i) &&
      (forall i :: 0 <= i < 7 ==> days[i].dayName == Weekdays[i]) &&
      days[Weekday(today)].date == today && days[Weekday(today)].isToday &&
      (forall i :: 0 <= i < 7 && days[i].isToday ==> i == Weekday(today))
  {
    var days := Strip(today, ws);
    forall i | 0 <= i < 7
      ensures days[i] == StripDayAt(today, ws, i)
    {
    }
    var m := StartOfWeek(today);
    assert m % 7 == 0;
    forall i | 0 <= i < 7
      ensures Weekday(days[i].date) == i
    {
      assert days[i].date == m + i;
      assert (m + i) % 7 == i;
    }
  }

  /** A day is never both today and past; the days before today are past and
      the days from today on are not. */
  lemma PastOrToday(today: Day, ws: seq<WorkoutDay>)
    ensures var days := Strip(today, ws);
      forall i :: 0 <= i < 7 ==>
        !(days[i].isToday && days[i].isPast) &&
        (days[i].isPast <==> i < Weekday(today))
  {
    var days := Strip(today, ws);
    forall i | 0 <= i < 7
      ensures days[i] == StripDayAt(today, ws, i)
    {
    }
  }

  /** The completed count is the number of strip days whose history entry is done, at most seven. */
  lemma {:induction false} CompletedCountMeaning(days: seq<StripDay>)
    ensures CompletedCount(days) == |set i | 0 <= i < |days| && days[i].status == Some(Done)|
    decreases |days|
  {
    if days != [] {
      var n := |days| - 1;
      var init := days[..n];
      CompletedCountMeaning(init);
      var initDone := set i | 0 <= i < n && init[i].status == Some(Done);
      var before := set i | 0 <= i < n && days[i].status == Some(Done);
      var after := set i | 0 <= i < |days| && days[i].status == Some(Done);
      assert initDone == before by {
        forall i | 0 <= i < n
          ensures init[i] == days[i]
        {
        }
      }
      assert n !in before;
      if days[n].status == Some(Done) {
        assert after == before + {n};
        assert |after| == |before| + 1;
      } else {
        assert after == before;
      }
    }
  }

  /** At most the seven days of the strip are completed. */
  lemma CompletedAtMostSeven(today: Day, ws: seq<WorkoutDay>)
    ensures 0 <= CompletedCount(Strip(today, ws)) <= 7
  {
  }
}
