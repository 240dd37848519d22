/** The days of a user's workout history that the calendar and the week strip
    display (`WorkoutDay`), the `find` both use to look a day up, and the
    status counts. */
module WorkoutHistory {
  import opened Common
  import opened DayNumbers
  import opened ProgramTypes

  /** `WorkoutDay`: one day of history. Its `date` is the day itself; the
      `yyyy-MM-dd` text it is compared by names each day uniquely. */
  datatype WorkoutDay = WorkoutDay(date: Day, status: ScheduleStatus, workoutCount: int)

  /** The position of the first day of history dated `d`, or `|ws|` if none is. */
  function FirstIndex(ws: seq<WorkoutDay>, d: Day): (k: nat)
    ensures k <= |ws|
    ensures forall j :: 0 <= j < k ==> ws[j].date != d
    ensures k < |ws| ==> ws[k].date == d
    decreases |ws|
  {
    if ws == [] then 0
    else if ws[0].date == d then 0
    else 1 + FirstIndex(ws[1..], d)
  }

  /** `workoutDays.find((w) => w.date === dateStr)` */
  function FindWorkout(ws: seq<WorkoutDay>, d: Day): (r: Option<WorkoutDay>)
  {
    var k := FirstIndex(ws, d);
    if k < |ws| then Some(ws[k]) else None
  }

  /** `find` gives the first day dated `d`, and nothing exactly when no day is. */
  lemma FindWorkoutMeaning(ws: seq<WorkoutDay>, d: Day)
    ensures FindWorkout(ws, d).None? <==> forall j :: 0 <= j < |ws| ==> ws[j].date != d
    ensures FindWorkout(ws, d).Some? ==> (
      exists k :: 0 <= k < |ws| && ws[k] == FindWorkout(ws, d).value &&
        ws[k].date == d && forall j :: 0 <= j < k ==> ws[j].date != d)
  {
    var k := FirstIndex(ws, d);
    if k < |ws| {
      assert ws[k] == FindWorkout(ws, d).value;
    }
  }

  /** `workoutDays.filter((w) => w.status === status).length` */
  function CountStatus(ws: seq<WorkoutDay>, status: ScheduleStatus): (n: nat)
    ensures n <= |ws|
    ensures n == 0 <==> forall i :: 0 <= i < |ws| ==> ws[i].status != status
    decreases |ws|
  {
    if ws == [] then 0
    else CountStatus(ws[..|ws| - 1], status) + (if ws[|ws| - 1].status == status then 1 else 0)
  }

  /** Completed and skipped days together never outnumber the days. */
  lemma {:induction false} DoneAndSkippedBounded(ws: seq<WorkoutDay>)
    ensures CountStatus(ws, Done) + CountStatus(ws, Skipped) <= |ws|
    decreases |ws|
  {
    if ws != [] {
      DoneAndSkippedBounded(ws[..|ws| - 1]);
    }
  }

  /** Each status is counted by how many days carry it: the counts of the three
      statuses add up to the number of days. */
  lemma {:induction false} StatusCountsPartition(ws: seq<WorkoutDay>)
    ensures CountStatus(ws, Done) + CountStatus(ws, Skipped) + CountStatus(ws, Pending) == |ws|
    decreases |ws|
  {
    if ws != [] {
      StatusCountsPartition(ws[..|ws| - 1]);
    }
  }
}
