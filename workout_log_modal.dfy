/** The set-list editing of src/components/WorkoutLogModal.tsx: the map from a
    workout exercise to the sets the user fills in, the copy-on-write edits of
    that map, and the log payloads the save button writes. */
module WorkoutLogModal {
  import opened Common
  import opened Strings
  import ExerciseLogService

  /** One set as typed: both fields are the raw text of the inputs. */
  datatype SetEntry = SetEntry(reps: string, weight: string)

  /** `ExerciseLogEntry` */
  datatype LogEntry = LogEntry(movementId: Id, movementName: string, sets: seq<SetEntry>)

  /** `logEntries`, keyed by the id of the workout exercise. */
  type Entries = map<Id, LogEntry>

  /** A row of `useWorkoutExercises`, with the columns the modal reads. */
  datatype WorkoutExercise = WorkoutExercise(id: Id, movementId: Id, movementName: string, sets: int, reps: string)

  // ---------------------------------------------------------------------
  // Initialisation

  /** `exercise.reps.split('-')[0] || '10'`: the lower end of a target such as
      "8-12", or '10' when the target starts with '-' or is empty. */
  function DefaultReps(target: string): (r: string)
    ensures r != [] && '-' !in r
    ensures r != "10" ==> |r| <= |target| && r == target[..|r|] && (|r| == |target| || target[|r|] == '-')
  {
    FirstPiece(target, '-');
    var first := Split(target, '-')[0];
    if first == "" then "10" else first
  }

  /** A target without '-' is its own default. */
  lemma DefaultRepsOfPlain(target: string)
    requires target != [] && '-' !in target
    ensures DefaultReps(target) == target
  {
    NoSeparatorOnePiece(target, '-');
  }

  /** `Array.from({ length: n })` clamps a negative length to zero. */
  function ArrayLength(n: int): (r: nat)
    ensures r == if n < 0 then 0 else n
  {
    if n < 0 then 0 else n
  }

  /** The entry the effect creates for one exercise. */
  function InitialEntry(e: WorkoutExercise): (r: LogEntry)
    ensures r.movementId == e.movementId && r.movementName == e.movementName
    ensures |r.sets| == ArrayLength(e.sets)
    ensures forall j :: 0 <= j < |r.sets| ==> r.sets[j] == SetEntry(DefaultReps(e.reps), "")
  {
    LogEntry(e.movementId, e.movementName,
             seq(ArrayLength(e.sets), _ => SetEntry(DefaultReps(e.reps), "")))
  }

  /** No exercise after position `k` has the id of the exercise at `k`. */
  predicate LastWithId(exs: seq<WorkoutExercise>, k: nat)
    requires k < |exs|
  {
    forall j :: k < j < |exs| ==> exs[j].id != exs[k].id
  }

  /** The map the initialisation loop builds, one exercise after the other. */
  function InitialEntries(exs: seq<WorkoutExercise>): (r: Entries)
    decreases |exs|
  {
    if exs == [] then map[]
    else InitialEntries(exs[..|exs| - 1])[exs[|exs| - 1].id := InitialEntry(exs[|exs| - 1])]
  }

  /** The initial map has one entry per exercise id. */
  lemma {:induction false} InitialKeys(exs: seq<WorkoutExercise>)
    ensures forall id :: id in InitialEntries(exs) <==> exists k :: 0 <= k < |exs| && exs[k].id == id
    decreases |exs|
  {
    if exs != [] {
      var n := |exs| - 1;
      var init := exs[..n];
      InitialKeys(init);
      assert forall k :: 0 <= k < n ==> init[k] == exs[k];
    }
  }

  /** The last exercise with an id gives its entry (`Map.set` overwrites). */
  lemma {:induction false} InitialValues(exs: seq<WorkoutExercise>)
    ensures forall k :: 0 <= k < |exs| && LastWithId(exs, k) ==>
      exs[k].id in InitialEntries(exs) && InitialEntries(exs)[exs[k].id] == InitialEntry(exs[k])
    decreases |exs|
  {
    if exs != [] {
      var n := |exs| - 1;
      var init := exs[..n];
      InitialValues(init);
      forall k | 0 <= k < n && LastWithId(exs, k)
        ensures exs[k].id in InitialEntries(init) && InitialEntries(init)[exs[k].id] == InitialEntry(exs[k])
        ensures exs[k].id != exs[n].id
      {
        assert init[k] == exs[k];
        assert LastWithId(init, k);
      }
    }
  }

  /** With distinct ids every exercise gets its own entry. */
  lemma InitialEntriesDistinct(exs: seq<WorkoutExercise>)
    requires forall a, b :: 0 <= a < b < |exs| ==> exs[a].id != exs[b].id
    ensures |InitialEntries(exs).Keys| == |exs|
    ensures forall k :: 0 <= k < |exs| ==>
      exs[k].id in InitialEntries(exs) && InitialEntries(exs)[exs[k].id] == InitialEntry(exs[k])
  {
    InitialKeys(exs);
    InitialValues(exs);
    var ids := set k | 0 <= k < |exs| :: exs[k].id;
    assert InitialEntries(exs).Keys == ids;
    DistinctIds(exs);
  }

  lemma {:induction false} DistinctIds(exs: seq<WorkoutExercise>)
    requires forall a, b :: 0 <= a < b < |exs| ==> exs[a].id != exs[b].id
    ensures |set k | 0 <= k < |exs| :: exs[k].id| == |exs|
    decreases |exs|
  {
    if exs != [] {
      var n := |exs| - 1;
      DistinctIds(exs[..n]);
      var before := set k | 0 <= k < n :: exs[..n][k].id;
      assert before == set k | 0 <= k < n :: exs[k].id;
      assert (set k | 0 <= k < |exs| :: exs[k].id) == before + {exs[n].id};
      assert exs[n].id !in before;
    }
  }

  /** The effect on `exercises`: it fills the map only when exercises are
      loaded, there is at least one, and the map is still empty. */
  method ExercisesLoaded(exercises: Option<seq<WorkoutExercise>>, entries: Entries) returns (r: Entries)
    ensures exercises.Some? && |exercises.value| > 0 && |entries| == 0 ==> r == InitialEntries(exercises.value)
    ensures !(exercises.Some? && |exercises.value| > 0 && |entries| == 0) ==> r == entries
  {
    if exercises.Some? && |exercises.value| > 0 && |entries| == 0 {
      var exs := exercises.value;
      var newMap: Entries := map[];
      for i := 0 to |exs|
        invariant newMap == InitialEntries(exs[..i])
      {
        assert exs[..i + 1][..i] == exs[..i];
        var exercise := exs[i];
        var defaultReps := DefaultReps(exercise.reps);
        var setsArray := seq(ArrayLength(exercise.sets), _ => SetEntry(defaultReps, ""));
        newMap := newMap[exercise.id := LogEntry(exercise.movementId, exercise.movementName, setsArray)];
      }
      assert exs[..|exs|] == exs;
      r := newMap;
    } else {
      r := entries;
    }
  }

  /** The effect on `visible`: closing the modal empties the map. */
  function VisibilityChanged(visible: bool, entries: Entries): (r: Entries)
    ensures !visible ==> r == map[]
    ensures visible ==> r == entries
  {
    if visible then entries else map[]
  }

  // ---------------------------------------------------------------------
  // Copy-on-write edits

  datatype SetField = Reps | Weight

  /** `{ ...set, [field]: value }` */
  function WithField(s: SetEntry, field: SetField, value: string): SetEntry
  {
    match field
    case Reps => s.(reps := value)
    case Weight => s.(weight := value)
  }

  /** `updateSetEntry`: one field of one set of one exercise. */
  function UpdateSetEntry(prev: Entries, exerciseId: Id, setIndex: nat, field: SetField, value: string): (r: Entries)
    requires exerciseId in prev ==> setIndex < |prev[exerciseId].sets|
    ensures exerciseId !in prev ==> r == prev
    ensures exerciseId in prev ==> (
      r.Keys == prev.Keys &&
      var e, e' := prev[exerciseId], r[exerciseId];
      (forall k :: k in prev && k != exerciseId ==> r[k] == prev[k]) &&
      e'.movementId == e.movementId && e'.movementName == e.movementName &&
      |e'.sets| == |e.sets| &&
      (forall j :: 0 <= j < |e.sets| && j != setIndex ==> e'.sets[j] == e.sets[j]) &&
      (field == Reps ==> e'.sets[setIndex] == SetEntry(value, e.sets[setIndex].weight)) &&
      (field == Weight ==> e'.sets[setIndex] == SetEntry(e.sets[setIndex].reps, value)))
  {
    if exerciseId !in prev then prev
    else
      var entry := prev[exerciseId];
      prev[exerciseId := entry.(sets := entry.sets[setIndex := WithField(entry.sets[setIndex], field, value)])]
  }

  /** Writing the value a field already holds changes nothing. */
  lemma UpdateWithSameValue(prev: Entries, exerciseId: Id, setIndex: nat, field: SetField)
    requires exerciseId in prev && setIndex < |prev[exerciseId].sets|
    ensures var s := prev[exerciseId].sets[setIndex];
      UpdateSetEntry(prev, exerciseId, setIndex, field, if field == Reps then s.reps else s.weight) == prev
  {
    var e := prev[exerciseId];
    assert e.sets[setIndex := e.sets[setIndex]] == e.sets;
    assert prev[exerciseId := e] == prev;
  }

  /** Of two writes to the same field of the same set the second wins. */
  lemma UpdateTwice(prev: Entries, exerciseId: Id, setIndex: nat, field: SetField, v1: string, v2: string)
    requires exerciseId in prev ==> setIndex < |prev[exerciseId].sets|
    ensures UpdateSetEntry(UpdateSetEntry(prev, exerciseId, setIndex, field, v1), exerciseId, setIndex, field, v2)
         == UpdateSetEntry(prev, exerciseId, setIndex, field, v2)
  {
    if exerciseId in prev {
      var e := prev[exerciseId];
      var s := e.sets[setIndex];
      var once := e.sets[setIndex := WithField(s, field, v1)];
      assert WithField(WithField(s, field, v1), field, v2) == WithField(s, field, v2);
      assert once[setIndex := WithField(once[setIndex], field, v2)] == e.sets[setIndex := WithField(s, field, v2)];
    }
  }

  /** The set `addSet` appends: a copy of the last set, '10' reps and an empty
      weight standing in for a missing or empty field. */
  function NextSet(sets: seq<SetEntry>): (s: SetEntry)
    ensures s.reps != []
    ensures sets != [] && sets[|sets| - 1].reps != [] ==> s.reps == sets[|sets| - 1].reps
    ensures sets == [] || sets[|sets| - 1].reps == [] ==> s.reps == "10"
    ensures s.weight == if sets == [] then "" else sets[|sets| - 1].weight
  {
    if sets == [] then SetEntry("10", "")
    else
      var last := sets[|sets| - 1];
      // `lastSet.weight || ''` is the weight itself
      SetEntry(if last.reps != "" then last.reps else "10", if last.weight != "" then last.weight else "")
  }

  /** `addSet`: one more set at the end of one exercise's list. */
  function AddSet(prev: Entries, exerciseId: Id): (r: Entries)
    ensures exerciseId !in prev ==> r == prev
    ensures exerciseId in prev ==> (
      r.Keys == prev.Keys &&
      var e, e' := prev[exerciseId], r[exerciseId];
      (forall k :: k in prev && k != exerciseId ==> r[k] == prev[k]) &&
      e'.movementId == e.movementId && e'.movementName == e.movementName &&
      |e'.sets| == |e.sets| + 1 &&
      e'.sets[..|e.sets|] == e.sets &&
      e'.sets[|e.sets|] == NextSet(e.sets))
  {
    if exerciseId !in prev then prev
    else
      var entry := prev[exerciseId];
      prev[exerciseId := entry.(sets := entry.sets + [NextSet(entry.sets)])]
  }

  /** `removeSet`: drops the set at `setIndex` unless the list has at most one set. */
  function RemoveSet(prev: Entries, exerciseId: Id, setIndex: int): (r: Entries)
    ensures exerciseId !in prev || |prev[exerciseId].sets| <= 1 ==> r == prev
    ensures exerciseId in prev && |prev[exerciseId].sets| > 1 ==> (
      r.Keys == prev.Keys &&
      var e, e' := prev[exerciseId], r[exerciseId];
      (forall k :: k in prev && k != exerciseId ==> r[k] == prev[k]) &&
      e'.movementId == e.movementId && e'.movementName == e.movementName &&
      (0 <= setIndex < |e.sets| ==> e'.sets == e.sets[..setIndex] + e.sets[setIndex + 1..]) &&
      (!(0 <= setIndex < |e.sets|) ==> e'.sets == e.sets))
    ensures forall k :: k in prev && |prev[k].sets| >= 1 ==> k in r && |r[k].sets| >= 1
  {
    if exerciseId !in prev || |prev[exerciseId].sets| <= 1 then prev
    else
      var entry := prev[exerciseId];
      var r := prev[exerciseId := entry.(sets := DropIndex(entry.sets, setIndex))];
      if 0 <= setIndex < |entry.sets| then DropIndexIsSplice(entry.sets, setIndex); r else r
  }

  /** Removing the set just added gives the map back. */
  lemma AddThenRemove(prev: Entries, exerciseId: Id)
    requires exerciseId in prev && |prev[exerciseId].sets| >= 1
    ensures RemoveSet(AddSet(prev, exerciseId), exerciseId, |prev[exerciseId].sets|) == prev
  {
    var e := prev[exerciseId];
    DropAppended(e.sets, NextSet(e.sets));
    assert prev[exerciseId := e] == prev;
  }

  /** Every exercise has at least one set. */
  predicate AllHaveSets(entries: Entries)
  {
    forall k :: k in entries ==> |entries[k].sets| >= 1
  }

  /** The three edits keep every list non-empty. */
  lemma EditsKeepSets(prev: Entries, exerciseId: Id, setIndex: nat, field: SetField, value: string)
    requires AllHaveSets(prev)
    ensures AllHaveSets(AddSet(prev, exerciseId))
    ensures AllHaveSets(RemoveSet(prev, exerciseId, setIndex))
    ensures exerciseId in prev ==> setIndex < |prev[exerciseId].sets| ==>
      AllHaveSets(UpdateSetEntry(prev, exerciseId, setIndex, field, value))
  {
  }

  /** Exercises planned with at least one set start with non-empty lists. */
  lemma InitialEntriesHaveSets(exs: seq<WorkoutExercise>)
    requires forall k :: 0 <= k < |exs| ==> exs[k].sets >= 1
    ensures AllHaveSets(InitialEntries(exs))
  {
    InitialKeys(exs);
    InitialValues(exs);
    var r := InitialEntries(exs);
    forall id | id in r ensures |r[id].sets| >= 1 {
      var k :| 0 <= k < |exs| && exs[k].id == id;
      var last := LastIndexOf(exs, k);
      assert r[exs[last].id] == InitialEntry(exs[last]);
    }
  }

  /** The position of the last exercise with the id of the one at `k`. */
  lemma {:induction false} LastIndexOf(exs: seq<WorkoutExercise>, k: nat) returns (last: nat)
    requires k < |exs|
    ensures k <= last < |exs| && exs[last].id == exs[k].id && LastWithId(exs, last)
    decreases |exs| - k
  {
    if LastWithId(exs, k) {
      last := k;
    } else {
      var j :| k < j < |exs| && exs[j].id == exs[k].id;
      last := LastIndexOf(exs, j);
    }
  }

  // ---------------------------------------------------------------------
  // Saving

  /** `s.reps || '0'` */
  function RepsOrZero(s: SetEntry): string
  {
    if s.reps == "" then "0" else s.reps
  }

  /** The reps column: every set's reps, '0' for an empty field. */
  function RepsValues(sets: seq<SetEntry>): (r: seq<string>)
    ensures |r| == |sets| && forall i :: 0 <= i < |sets| ==> r[i] == RepsOrZero(sets[i])
  {
    seq(|sets|, i requires 0 <= i < |sets| => RepsOrZero(sets[i]))
  }

  /** `repsArray.join(',')`: when no reps field holds a comma, the text splits
      back into the sets' reps, '0' for an empty field. */
  function RepsText(sets: seq<SetEntry>): (r: string)
    ensures sets == [] ==> r == ""
    ensures sets != [] && (forall i :: 0 <= i < |sets| ==> ',' !in sets[i].reps) ==>
      Split(r, ',') == RepsValues(sets)
  {
    var vs := RepsValues(sets);
    if sets != [] && forall i :: 0 <= i < |sets| ==> ',' !in sets[i].reps then
      assert forall i :: 0 <= i < |vs| ==> ',' !in vs[i] by {
        forall i | 0 <= i < |vs| ensures ',' !in vs[i] {
          assert vs[i] == RepsOrZero(sets[i]);
        }
      }
      assert [','] == ",";
      SplitJoin(vs, ',');
      Join(vs, ",")
    else
      Join(vs, ",")
  }

  /** The mean of the parsed weights, unparsable fields counting 0, and null
      (`avgWeight || null`) for a zero or undefined (`0 / 0`) mean;
      `parseFloat` is a parameter. */
  function AverageWeight(sets: seq<SetEntry>, parseFloat: string -> Option<real>): (r: Option<real>)
    ensures sets == [] ==> r.None?
    ensures r.Some? ==> r.value != 0.0
  {
    if sets == [] then None
    else
      var mean := SumWeights(sets, parseFloat) / |sets| as real;
      if mean == 0.0 then None else Some(mean)
  }

  function SumWeights(sets: seq<SetEntry>, parseFloat: string -> Option<real>): real
  {
    if sets == [] then 0.0
    else SumWeights(sets[..|sets| - 1], parseFloat) + parseFloat(sets[|sets| - 1].weight).GetOr(0.0)
  }

  /** `Set ${i + 1}: ${s.weight || 0}kg × ${s.reps}` */
  function SetLine(s: SetEntry, i: nat): string
  {
    "Set " + NatToString(i + 1) + ": " + (if s.weight == "" then "0" else s.weight) + "kg × " + s.reps
  }

  /** The note: "Setler: " and the set lines joined by " | ". */
  function SetsNote(sets: seq<SetEntry>): (r: string)
    ensures "Setler: " <= r
    ensures sets == [] ==> r == "Setler: "
    ensures |sets| == 1 ==> r == "Setler: " + SetLine(sets[0], 0)
  {
    "Setler: " + Join(seq(|sets|, i requires 0 <= i < |sets| => SetLine(sets[i], i)), " | ")
  }

  /** The payload written for one exercise and its entry. */
  function SavePayload(e: WorkoutExercise, entry: LogEntry, scheduleInstanceId: Option<Id>,
                       parseFloat: string -> Option<real>): (p: ExerciseLogService.LogPayload)
    ensures p.movementId == e.movementId && p.scheduleInstanceId == scheduleInstanceId
    ensures p.setsCompleted == |entry.sets| && p.repsCompleted == Some(RepsText(entry.sets))
    ensures p.durationSeconds.None? && p.difficultyRating.None?
  {
    ExerciseLogService.LogPayload(e.movementId, scheduleInstanceId, |entry.sets|, Some(RepsText(entry.sets)),
                                  AverageWeight(entry.sets, parseFloat), None, Some(SetsNote(entry.sets)), None)
  }

  /** The payloads of `handleSave`, in exercise order, skipping exercises
      without an entry. */
  function SavePayloads(exs: seq<WorkoutExercise>, entries: Entries, scheduleInstanceId: Option<Id>,
                        parseFloat: string -> Option<real>): (r: seq<ExerciseLogService.LogPayload>)
    ensures |r| <= |exs|
    decreases |exs|
  {
    if exs == [] then []
    else
      var n := |exs| - 1;
      var earlier := SavePayloads(exs[..n], entries, scheduleInstanceId, parseFloat);
      if exs[n].id in entries then earlier + [SavePayload(exs[n], entries[exs[n].id], scheduleInstanceId, parseFloat)]
      else earlier
  }

  /** When every exercise has an entry, one payload per exercise, in order. */
  lemma {:induction false} SavePayloadsAll(exs: seq<WorkoutExercise>, entries: Entries,
                                           scheduleInstanceId: Option<Id>, parseFloat: string -> Option<real>)
    requires forall k :: 0 <= k < |exs| ==> exs[k].id in entries
    ensures var r := SavePayloads(exs, entries, scheduleInstanceId, parseFloat);
      |r| == |exs| &&
      forall k :: 0 <= k < |exs| ==> r[k] == SavePayload(exs[k], entries[exs[k].id], scheduleInstanceId, parseFloat)
    decreases |exs|
  {
    if exs != [] {
      var n := |exs| - 1;
      var init := exs[..n];
      assert forall k :: 0 <= k < n ==> init[k] == exs[k];
      SavePayloadsAll(init, entries, scheduleInstanceId, parseFloat);
    }
  }

  /** Exercises without entries write nothing. */
  lemma {:induction false} SavePayloadsNone(exs: seq<WorkoutExercise>, entries: Entries,
                                            scheduleInstanceId: Option<Id>, parseFloat: string -> Option<real>)
    requires forall k :: 0 <= k < |exs| ==> exs[k].id !in entries
    ensures SavePayloads(exs, entries, scheduleInstanceId, parseFloat) == []
    decreases |exs|
  {
    if exs != [] {
      var n := |exs| - 1;
      var init := exs[..n];
      assert forall k :: 0 <= k < n ==> init[k] == exs[k];
      SavePayloadsNone(init, entries, scheduleInstanceId, parseFloat);
    }
  }

  /** `handleSave`: nothing without exercises; otherwise one write per exercise
      with an entry, in order, then `onComplete`. `failAt` is the position,
      among the writes, of the first one the backend fails: the loop stops
      after attempting it and `onComplete` is skipped. */
  method HandleSave(exercises: Option<seq<WorkoutExercise>>, entries: Entries, scheduleInstanceId: Option<Id>,
                    parseFloat: string -> Option<real>, failAt: Option<nat>)
    returns (writes: seq<ExerciseLogService.LogPayload>, completed: bool)
    ensures exercises.None? || |exercises.value| == 0 ==> writes == [] && !completed
    ensures exercises.Some? && |exercises.value| > 0 ==>
      var all := SavePayloads(exercises.value, entries, scheduleInstanceId, parseFloat);
      (completed <==> failAt.None? || failAt.value >= |all|) &&
      (completed ==> writes == all) &&
      (!completed ==> failAt.Some? && failAt.value < |all| && writes == all[..failAt.value + 1])
  {
    writes := [];
    completed := false;
    if exercises.None? || |exercises.value| == 0 {
      return;
    }
    var exs := exercises.value;
    for i := 0 to |exs|
      invariant writes == SavePayloads(exs[..i], entries, scheduleInstanceId, parseFloat)
      invariant failAt.Some? ==> |writes| <= failAt.value
    {
      assert exs[..i + 1][..i] == exs[..i];
      var exercise := exs[i];
      if exercise.id !in entries {
        continue;
      }
      var entry := entries[exercise.id];
      writes := writes + [SavePayload(exercise, entry, scheduleInstanceId, parseFloat)];
      if failAt.Some? && |writes| == failAt.value + 1 {
        SavePayloadsPrefix(exs, entries, scheduleInstanceId, parseFloat, i + 1);
        return;
      }
    }
    assert exs[..|exs|] == exs;
    completed := true;
  }

  /** The payloads of the first `m` exercises come first. */
  lemma {:induction false} SavePayloadsPrefix(exs: seq<WorkoutExercise>, entries: Entries,
                                              scheduleInstanceId: Option<Id>, parseFloat: string -> Option<real>, m: nat)
    requires m <= |exs|
    ensures SavePayloads(exs[..m], entries, scheduleInstanceId, parseFloat) <=
            SavePayloads(exs, entries, scheduleInstanceId, parseFloat)
    decreases |exs|
  {
    if m < |exs| {
      var n := |exs| - 1;
      assert exs[..n][..m] == exs[..m];
      SavePayloadsPrefix(exs[..n], entries, scheduleInstanceId, parseFloat, m);
    } else {
      assert exs[..m] == exs;
    }
  }

  /** Sets whose reps are natural numbers written in decimal give the chart's
      volume metric their total. */
  lemma SavedRepsTotal(sets: seq<SetEntry>, xs: seq<nat>)
    requires |sets| == |xs| >= 1
    requires forall i :: 0 <= i < |sets| ==> sets[i].reps == NatToString(xs[i])
    ensures ExerciseLogService.RepsTotal(Some(RepsText(sets))) == ExerciseLogService.SumNats(xs)
  {
    var vs := RepsValues(sets);
    forall i | 0 <= i < |vs| ensures vs[i] == ExerciseLogService.Decimals(xs)[i] {
      assert sets[i].reps != [];
    }
    assert vs == ExerciseLogService.Decimals(xs);
    ExerciseLogService.RepsTotalOfJoined(xs);
  }
}
