/** Program creation and schedule seeding (src/services/programService.ts): the
    weekday/index bijection, the rows `createProgramWithWorkouts` inserts, the
    first schedule and the block choice of `addExerciseToWorkout`. The backend's
    tables are in-memory sequences; the ids it assigns are parameters. */
module ProgramService {
  import opened Common
  import opened DayNumbers
  import opened ProfileTypes
  import opened ProgramTypes

  // ---------------------------------------------------------------------
  // Weekday <-> index

  /** `INDEX_TO_DAY` */
  const IndexToDay: seq<TrainingDay> := [Monday, Tuesday, Wednesday, Thursday, Friday, Saturday, Sunday]

  /** `toDayIndex` (the table `DAY_TO_INDEX`) */
  function ToDayIndex(d: TrainingDay): (r: nat)
    ensures r < 7 && IndexToDay[r] == d
  {
    match d
    case Monday => 0
    case Tuesday => 1
    case Wednesday => 2
    case Thursday => 3
    case Friday => 4
    case Saturday => 5
    case Sunday => 6
  }

  /** `fromDayIndex`: `None` is the `undefined` an index outside 0..6 reads. */
  function FromDayIndex(index: int): (r: Option<TrainingDay>)
    ensures r.Some? <==> 0 <= index < 7
  {
    if 0 <= index < 7 then Some(IndexToDay[index]) else None
  }

  /** The two tables are inverse bijections between the days and 0..6. */
  lemma DayIndexBijection()
    ensures forall d: TrainingDay :: FromDayIndex(ToDayIndex(d)) == Some(d)
    ensures forall i :: 0 <= i < 7 ==> FromDayIndex(i).Some? && ToDayIndex(FromDayIndex(i).value) == i
    ensures forall d, e: TrainingDay :: ToDayIndex(d) == ToDayIndex(e) ==> d == e
  {
    forall i | 0 <= i < 7
      ensures FromDayIndex(i).Some? && ToDayIndex(FromDayIndex(i).value) == i
    {
      assert FromDayIndex(i).value == IndexToDay[i];
    }
  }

  // ---------------------------------------------------------------------
  // The first schedule

  /** `(today.getDay() + 6) % 7`: the Monday-first index of today. */
  function TodayIndex(today: Day): (r: nat)
    ensures r < 7 && r == Weekday(today)
  {
    (JsGetDay(today) + 6) % 7
  }

  /** JavaScript's `%`, which truncates toward zero (the sign follows the dividend). */
  function JsRem(a: int, b: int): (r: int)
    requires b > 0
    ensures a >= 0 ==> 0 <= r < b
    ensures a < 0 ==> -b < r <= 0
  {
    if a >= 0 then a % b else -((-a) % b)
  }

  /** `(workout.day_of_week - todayIndex + 7) % 7`: for weekdays in 0..6 the
      number of days from today's weekday forward to the workout's, in 0..6; a
      stored weekday more than a week behind gives a non-positive offset, since
      the remainder keeps the sign of the dividend. */
  function ScheduleOffset(dayOfWeek: int, todayIndex: int): (r: int)
    ensures 0 <= dayOfWeek < 7 && 0 <= todayIndex < 7 ==> 0 <= r < 7 && (todayIndex + r) % 7 == dayOfWeek
    ensures dayOfWeek - todayIndex + 7 < 0 ==> -7 < r <= 0
  {
    JsRem(dayOfWeek - todayIndex + 7, 7)
  }

  /** For a stored weekday the offset is the distance to the next day with that
      weekday, counting today: it lies in 0..6, is 0 exactly when the workout's
      weekday is today's, lands on the workout's weekday, and no earlier day on
      or after today has that weekday. */
  lemma OffsetIsNextOccurrence(today: Day, dayOfWeek: int)
    requires 0 <= dayOfWeek < 7
    ensures var off := ScheduleOffset(dayOfWeek, TodayIndex(today));
      0 <= off < 7 &&
      (off == 0 <==> dayOfWeek == Weekday(today)) &&
      Weekday(today + off) == dayOfWeek &&
      forall d :: today <= d < today + off ==> Weekday(d) != dayOfWeek
  {
    var t := TodayIndex(today);
    var off := ScheduleOffset(dayOfWeek, t);
    var q := today / 7;
    assert today == 7 * q + t;
    if dayOfWeek >= t {
      assert off == dayOfWeek - t;
    } else {
      assert off == dayOfWeek - t + 7;
    }
    assert today + off == 7 * q + t + off;
    WeekdayOf(q, t + off);
    forall d | today <= d < today + off ensures Weekday(d) != dayOfWeek {
      assert d == 7 * q + (t + (d - today));
      WeekdayOf(q, t + (d - today));
    }
  }

  lemma WeekdayOf(q: int, r: int)
    requires 0 <= r < 14
    ensures Weekday(7 * q + r) == r % 7
  {
    if r < 7 {
      DivUnique(7 * q + r, 7, q, r);
    } else {
      DivUnique(7 * q + r, 7, q + 1, r - 7);
    }
  }

  /** One row of the `schedule_instances` insert. */
  datatype ScheduleRow = ScheduleRow(programId: Id, workoutId: Id, scheduledDate: Day, status: ScheduleStatus)

  /** `generateInitialSchedule`: one pending instance per workout, dated the next
      occurrence of its weekday; the result is the insert (`None`: no insert). */
  method GenerateInitialSchedule(programId: Id, workouts: seq<ProgramWorkout>, today: Day)
    returns (insert: Option<seq<ScheduleRow>>)
    ensures insert.None? <==> workouts == []
    ensures insert.Some? ==> (
      |insert.value| == |workouts| &&
      forall i :: 0 <= i < |workouts| ==>
        insert.value[i].programId == programId &&
        insert.value[i].workoutId == workouts[i].id &&
        insert.value[i].status == Pending &&
        insert.value[i].scheduledDate == today + ScheduleOffset(workouts[i].dayOfWeek, TodayIndex(today)))
  {
    var todayIndex := TodayIndex(today);
    var payload: seq<ScheduleRow> := [];
    for i := 0 to |workouts|
      invariant |payload| == i
      invariant forall j :: 0 <= j < i ==>
        payload[j] == ScheduleRow(programId, workouts[j].id,
                                  today + ScheduleOffset(workouts[j].dayOfWeek, todayIndex), Pending)
    {
      var diff := ScheduleOffset(workouts[i].dayOfWeek, todayIndex);
      payload := payload + [ScheduleRow(programId, workouts[i].id, today + diff, Pending)];
    }
    if |payload| == 0 {
      return None;
    }
    insert := Some(payload);
  }

  // ---------------------------------------------------------------------
  // The rows of createProgramWithWorkouts

  /** `ProgramInput`; `focus` `None` is the field left out. */
  datatype ProgramInput = ProgramInput(
    title: string, focus: Option<string>, trainingDays: seq<TrainingDay>, workouts: seq<BuilderWorkout>)

  datatype ProgramRow = ProgramRow(
    title: string, focus: Option<string>, trainingDays: seq<TrainingDay>, isActive: bool, ownerId: Id)

  datatype WorkoutRow = WorkoutRow(
    programId: Id, dayOfWeek: nat, title: string, orderIndex: nat, notes: Option<string>)

  datatype BlockRow = BlockRow(workoutId: Id, blockType: string, orderIndex: int, note: Option<string>)

  datatype ExerciseRow = ExerciseRow(
    blockId: Id, movementId: Id, sets: int, reps: string,
    restSeconds: Option<int>, note: Option<string>, orderIndex: nat)

  /** `workout.title || \`${workout.day} antrenmanı\`` */
  function WorkoutTitle(w: BuilderWorkout): (t: string)
    ensures t != []
    ensures w.title != [] ==> t == w.title
  {
    if w.title != [] then w.title else DayName(w.day) + " antrenmanı"
  }

  /** `workoutPayload`: one row per draft workout, in order. */
  function WorkoutPayload(programId: Id, ws: seq<BuilderWorkout>): (r: seq<WorkoutRow>)
    ensures |r| == |ws|
    ensures forall i :: 0 <= i < |ws| ==>
      r[i].programId == programId && r[i].orderIndex == i && r[i].notes == None &&
      FromDayIndex(r[i].dayOfWeek) == Some(ws[i].day) &&
      r[i].title == WorkoutTitle(ws[i])
  {
    seq(|ws|, i requires 0 <= i < |ws| =>
      WorkoutRow(programId, ToDayIndex(ws[i].day), WorkoutTitle(ws[i]), i, None))
  }

  /** `blocksPayload`: one single-type block at order 0 per stored workout. */
  function BlocksPayload(stored: seq<ProgramWorkout>): (r: seq<BlockRow>)
    ensures |r| == |stored|
    ensures forall i :: 0 <= i < |stored| ==> r[i] == BlockRow(stored[i].id, "single", 0, None)
  {
    seq(|stored|, i requires 0 <= i < |stored| => BlockRow(stored[i].id, "single", 0, None))
  }

  /** The rows of one workout's exercises, attached to `blockId`. */
  function ExercisesOf(w: BuilderWorkout, blockId: Id): (r: seq<ExerciseRow>)
    ensures |r| == |w.exercises|
    ensures forall j :: 0 <= j < |r| ==>
      var e := w.exercises[j];
      r[j] == ExerciseRow(blockId, e.movementId, e.sets, e.reps, e.restSeconds, e.note, j)
  {
    seq(|w.exercises|, j requires 0 <= j < |w.exercises| =>
      ExerciseRow(blockId, w.exercises[j].movementId, w.exercises[j].sets, w.exercises[j].reps,
                  w.exercises[j].restSeconds, w.exercises[j].note, j))
  }

  /** `exercisesPayload`: the workouts' exercises in order, the i-th workout's
      attached to the i-th returned block; a workout without a block adds nothing. */
  function ExercisesPayload(ws: seq<BuilderWorkout>, blockIds: seq<Id>): (r: seq<ExerciseRow>)
    ensures forall k :: 0 <= k < |r| ==> r[k].blockId in blockIds
    ensures blockIds == [] ==> r == []
    decreases |ws|
  {
    if ws == [] then []
    else
      var n := |ws| - 1;
      ExercisesPayload(ws[..n], blockIds) + (if n < |blockIds| then ExercisesOf(ws[n], blockIds[n]) else [])
  }

  /** The number of exercises in the draft. */
  function TotalExercises(ws: seq<BuilderWorkout>): nat
  {
    if ws == [] then 0 else TotalExercises(ws[..|ws| - 1]) + |ws[|ws| - 1].exercises|
  }

  /** With a block for every workout, every exercise of the draft gets one row. */
  lemma {:induction false} ExercisesPayloadComplete(ws: seq<BuilderWorkout>, blockIds: seq<Id>)
    requires |blockIds| >= |ws|
    ensures |ExercisesPayload(ws, blockIds)| == TotalExercises(ws)
    decreases |ws|
  {
    if ws != [] {
      ExercisesPayloadComplete(ws[..|ws| - 1], blockIds);
    }
  }

  /** With a block for every workout, the rows are the workouts' exercises
      back to back: the rows of workout `i` start at `TotalExercises(ws[..i])`
      and are exactly its exercises attached to block `i`, in order. */
  lemma {:induction false} ExercisesPayloadPositions(ws: seq<BuilderWorkout>, blockIds: seq<Id>)
    requires |blockIds| >= |ws|
    ensures forall i :: 0 <= i < |ws| ==>
      var start := TotalExercises(ws[..i]);
      start + |ws[i].exercises| <= |ExercisesPayload(ws, blockIds)| &&
      ExercisesPayload(ws, blockIds)[start..start + |ws[i].exercises|] == ExercisesOf(ws[i], blockIds[i])
  {
    forall i | 0 <= i < |ws|
      ensures var start := TotalExercises(ws[..i]);
        start + |ws[i].exercises| <= |ExercisesPayload(ws, blockIds)| &&
        ExercisesPayload(ws, blockIds)[start..start + |ws[i].exercises|] == ExercisesOf(ws[i], blockIds[i])
    {
      ExercisesPayloadSlice(ws, blockIds, i);
    }
  }

  /** The rows of workout `i`, one workout at a time. */
  lemma {:induction false} ExercisesPayloadSlice(ws: seq<BuilderWorkout>, blockIds: seq<Id>, i: nat)
    requires |blockIds| >= |ws| && i < |ws|
    ensures TotalExercises(ws[..i]) + |ws[i].exercises| <= |ExercisesPayload(ws, blockIds)|
    ensures ExercisesPayload(ws, blockIds)[TotalExercises(ws[..i])..TotalExercises(ws[..i]) + |ws[i].exercises|]
      == ExercisesOf(ws[i], blockIds[i])
    decreases |ws|
  {
    var n := |ws| - 1;
    var init := ws[..n];
    ExercisesPayloadComplete(init, blockIds);
    var before := ExercisesPayload(init, blockIds);
    var last := ExercisesOf(ws[n], blockIds[n]);
    assert ExercisesPayload(ws, blockIds) == before + last;
    if i < n {
      ExercisesPayloadSlice(init, blockIds, i);
      assert ws[..i] == init[..i];
      assert ws[i] == init[i];
      var lo := TotalExercises(ws[..i]);
      var hi := lo + |ws[i].exercises|;
      assert (before + last)[lo..hi] == before[lo..hi];
    } else {
      assert ws[..i] == init;
      assert (before + last)[|before|..|before| + |last|] == last;
    }
  }

  /** Workouts past the last returned block contribute no rows. */
  lemma {:induction false} ExercisesPayloadShortBlocks(ws: seq<BuilderWorkout>, blockIds: seq<Id>)
    requires |blockIds| < |ws|
    ensures ExercisesPayload(ws, blockIds) == ExercisesPayload(ws[..|blockIds|], blockIds)
    decreases |ws|
  {
    var n := |ws| - 1;
    var init := ws[..n];
    assert ExercisesPayload(ws, blockIds) == ExercisesPayload(init, blockIds) + [];
    if |blockIds| < n {
      ExercisesPayloadShortBlocks(init, blockIds);
      assert init[..|blockIds|] == ws[..|blockIds|];
    } else {
      assert init == ws[..|blockIds|];
    }
  }

  /** The stored `program_workouts` rows: the payload with the ids the backend
      assigned, in insert order. */
  function StoredWorkouts(rows: seq<WorkoutRow>, ids: seq<Id>): (r: seq<ProgramWorkout>)
    ensures |r| == if |rows| < |ids| then |rows| else |ids|
    ensures forall i :: 0 <= i < |r| ==>
      r[i].id == ids[i] && r[i].programId == rows[i].programId &&
      r[i].dayOfWeek == rows[i].dayOfWeek && r[i].orderIndex == rows[i].orderIndex
  {
    var n := if |rows| < |ids| then |rows| else |ids|;
    seq(n, i requires 0 <= i < n =>
      ProgramWorkout(ids[i], rows[i].programId, rows[i].dayOfWeek, rows[i].title, rows[i].orderIndex, rows[i].notes))
  }

  /** Everything `createProgramWithWorkouts` writes, in order; `exercises` is
      `None` when the exercise insert is skipped. */
  datatype CreatePlan = CreatePlan(
    program: ProgramRow,
    workouts: seq<WorkoutRow>,
    blocks: seq<BlockRow>,
    exercises: Option<seq<ExerciseRow>>,
    schedule: Option<seq<ScheduleRow>>)

  /** Why `createProgramWithWorkouts` throws: an error the backend returned,
      or one of the function's own messages. */
  datatype CreateError<E> = BackendError(error: E) | Message(text: string)

  /** `createProgramWithWorkouts`, given the backend's answers: `user` is
      `getUser()` (an error, or the optional signed-in user), `programInsert` the
      program insert (its id, or the error it returned, `None` for no error and
      no row), `workoutIds` and `blockIds` the workout and block inserts (the ids
      returned, or an error), and `exerciseError` the exercise insert's error. */
  method CreateProgramWithWorkouts<E>(
    input: ProgramInput, user: Result<Option<Id>, E>, programInsert: Result<Id, Option<E>>,
    workoutIds: Result<seq<Id>, E>, blockIds: Result<seq<Id>, E>, exerciseError: Option<E>, today: Day)
    returns (r: Result<CreatePlan, CreateError<E>>)
    ensures user.Err? ==> r == Err(BackendError(user.error))
    ensures user == Ok(None) ==> r == Err(Message("Giriş gerekiyor"))
    ensures user.Ok? && user.value.Some? && programInsert.Err? ==>
      r == Err(if programInsert.error.Some? then BackendError(programInsert.error.value)
               else Message("Program oluşturulamadı"))
    ensures user.Ok? && user.value.Some? && programInsert.Ok? && workoutIds.Err? ==>
      r == Err(BackendError(workoutIds.error))
    ensures user.Ok? && user.value.Some? && programInsert.Ok? && workoutIds.Ok? && blockIds.Err? ==>
      r == Err(BackendError(blockIds.error))
    ensures r.Ok? ==> user.Ok? && user.value.Some? && programInsert.Ok? && workoutIds.Ok? && blockIds.Ok?
    ensures user.Ok? && user.value.Some? && programInsert.Ok? && workoutIds.Ok? && blockIds.Ok? ==>
      var programId := programInsert.value;
      var workouts := WorkoutPayload(programId, input.workouts);
      var stored := StoredWorkouts(workouts, workoutIds.value);
      var blocks := if |blockIds.value| < |stored| then blockIds.value else blockIds.value[..|stored|];
      var exercises := ExercisesPayload(input.workouts, blocks);
      (exercises != [] && exerciseError.Some? ==> r == Err(BackendError(exerciseError.value))) &&
      (exercises == [] || exerciseError.None? ==>
        r.Ok? &&
        r.value.program == ProgramRow(input.title, input.focus, input.trainingDays, true, user.value.value) &&
        r.value.workouts == workouts &&
        r.value.blocks == BlocksPayload(stored) &&
        (r.value.exercises.None? <==> exercises == []) &&
        (r.value.exercises.Some? ==> r.value.exercises.value == exercises) &&
        (r.value.schedule.None? <==> stored == []) &&
        (r.value.schedule.Some? ==>
          |r.value.schedule.value| == |stored| &&
          forall i :: 0 <= i < |stored| ==>
            r.value.schedule.value[i] ==
              ScheduleRow(programId, stored[i].id,
                          today + ScheduleOffset(stored[i].dayOfWeek, TodayIndex(today)), Pending)))
  {
    if user.Err? {
      return Err(BackendError(user.error));
    }
    if user.value.None? {
      return Err(Message("Giriş gerekiyor"));
    }
    if programInsert.Err? {
      return Err(if programInsert.error.Some? then BackendError(programInsert.error.value)
                 else Message("Program oluşturulamadı"));
    }
    var programId := programInsert.value;
    var program := ProgramRow(input.title, input.focus, input.trainingDays, true, user.value.value);
    var workoutRows := WorkoutPayload(programId, input.workouts);
    if workoutIds.Err? {
      return Err(BackendError(workoutIds.error));
    }
    var stored := StoredWorkouts(workoutRows, workoutIds.value);
    var blockRows := BlocksPayload(stored);
    if blockIds.Err? {
      return Err(BackendError(blockIds.error));
    }
    var blocks := if |blockIds.value| < |stored| then blockIds.value else blockIds.value[..|stored|];
    var exerciseRows := ExercisesPayload(input.workouts, blocks);
    if |exerciseRows| > 0 && exerciseError.Some? {
      return Err(BackendError(exerciseError.value));
    }
    var exercises := if |exerciseRows| > 0 then Some(exerciseRows) else None;
    var schedule := GenerateInitialSchedule(programId, stored, today);
    r := Ok(CreatePlan(program, workoutRows, blockRows, exercises, schedule));
  }

  // ---------------------------------------------------------------------
  // addExerciseToWorkout

  datatype BlockRecord = BlockRecord(id: Id, workoutId: Id, blockType: string, orderIndex: int)

  datatype ExerciseRecord = ExerciseRecord(
    id: Id, blockId: Id, movementId: Id, sets: int, reps: string,
    restSeconds: Option<int>, note: Option<string>)

  /** `AddExercisePayload`; `None` is a rest or note left out or null. */
  datatype AddExercisePayload = AddExercisePayload(
    workoutId: Id, movementId: Id, sets: int, reps: string,
    restSeconds: Option<int>, note: Option<string>)

  /** The block query of `addExerciseToWorkout` (`order('order_index').limit(1)`):
      the position of a block of `workoutId` with the lowest order index, the
      earliest one on ties; `None` when the workout has no block. */
  function LowestBlock(blocks: seq<BlockRecord>, workoutId: Id): (r: Option<nat>)
    ensures r.None? <==> forall i :: 0 <= i < |blocks| ==> blocks[i].workoutId != workoutId
    ensures r.Some? ==> (
      r.value < |blocks| && blocks[r.value].workoutId == workoutId &&
      (forall i :: 0 <= i < |blocks| && blocks[i].workoutId == workoutId ==>
         blocks[r.value].orderIndex <= blocks[i].orderIndex) &&
      (forall i :: 0 <= i < r.value && blocks[i].workoutId == workoutId ==>
         blocks[r.value].orderIndex < blocks[i].orderIndex))
    decreases |blocks|
  {
    if blocks == [] then None
    else
      var n := |blocks| - 1;
      var earlier := LowestBlock(blocks[..n], workoutId);
      if blocks[n].workoutId == workoutId &&
         (earlier.None? || blocks[n].orderIndex < blocks[earlier.value].orderIndex)
      then Some(n)
      else earlier
  }

  /** The backend call of `addExerciseToWorkout` that fails, if any: the
      lookup of the lowest block, the creation of a block, or the exercise
      insert. */
  datatype AddFailure =
    | NoFailure
    | BlockQueryFails(error: string)
    | BlockCreateFails(error: string)
    | ExerciseInsertFails(error: string)

  /** The `workout_blocks` and `workout_exercises` tables. */
  class WorkoutTables {
    var blocks: seq<BlockRecord>
    var exercises: seq<ExerciseRecord>
    /** The next id the backend hands out. */
    var nextId: nat

    ghost predicate Valid()
      reads this
    {
      (forall i :: 0 <= i < |blocks| ==> blocks[i].id < nextId) &&
      (forall i :: 0 <= i < |exercises| ==> exercises[i].id < nextId)
    }

    constructor ()
      ensures Valid() && blocks == [] && exercises == [] && nextId == 0
    {
      blocks, exercises, nextId := [], [], 0;
    }

    /** `addExerciseToWorkout`: the exercise goes into the workout's lowest block;
        a single-type block at order 0 is created first only when the workout has
        none. `failure` is the one backend call that fails, if any; the steps
        are not atomic, so a block created before a failing exercise insert
        stays. */
    method AddExerciseToWorkout(p: AddExercisePayload, failure: AddFailure) returns (r: Result<ExerciseRecord, string>)
      requires Valid()
      modifies this
      ensures Valid()
      ensures failure.BlockQueryFails? ==>
        r == Err(failure.error) && blocks == old(blocks) && exercises == old(exercises)
      ensures LowestBlock(old(blocks), p.workoutId).None? && failure.BlockCreateFails? ==>
        r == Err(failure.error) && blocks == old(blocks) && exercises == old(exercises)
      ensures failure.ExerciseInsertFails? ==> r == Err(failure.error) && exercises == old(exercises)
      ensures r.Ok? <==>
        failure.NoFailure? || (failure.BlockCreateFails? && LowestBlock(old(blocks), p.workoutId).Some?)
      ensures !failure.BlockQueryFails? && LowestBlock(old(blocks), p.workoutId).Some? ==> blocks == old(blocks)
      ensures (failure.NoFailure? || failure.ExerciseInsertFails?) && LowestBlock(old(blocks), p.workoutId).None? ==>
        |blocks| == |old(blocks)| + 1 && blocks[..|old(blocks)|] == old(blocks) &&
        blocks[|old(blocks)|].workoutId == p.workoutId && blocks[|old(blocks)|].blockType == "single" &&
        blocks[|old(blocks)|].orderIndex == 0 &&
        blocks[|old(blocks)|].id !in set b | b in old(blocks) :: b.id
      ensures r.Ok? ==>
        var existing := LowestBlock(old(blocks), p.workoutId);
        var row := r.value;
        exercises == old(exercises) + [row] &&
        row.id !in (set e | e in old(exercises) :: e.id) &&
        row == ExerciseRecord(row.id, row.blockId, p.movementId, p.sets, p.reps, p.restSeconds, p.note) &&
        (existing.Some? ==> row.blockId == old(blocks)[existing.value].id) &&
        (existing.None? ==> row.blockId == blocks[|old(blocks)|].id)
    {
      if failure.BlockQueryFails? {
        return Err(failure.error);
      }
      var existing := LowestBlock(blocks, p.workoutId);
      var blockId: Id;
      if existing.Some? {
        blockId := blocks[existing.value].id;
      } else {
        if failure.BlockCreateFails? {
          return Err(failure.error);
        }
        blockId := nextId;
        blocks := blocks + [BlockRecord(blockId, p.workoutId, "single", 0)];
        nextId := nextId + 1;
      }
      if failure.ExerciseInsertFails? {
        return Err(failure.error);
      }
      var row := ExerciseRecord(nextId, blockId, p.movementId, p.sets, p.reps, p.restSeconds, p.note);
      exercises := exercises + [row];
      nextId := nextId + 1;
      r := Ok(row);
    }
  }
}
