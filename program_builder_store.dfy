/** The program-builder draft store (src/state/programBuilderStore.ts): a state
    of meta data, chosen training days and one draft workout per day, and the
    actions that map a state to the next one. */
module ProgramBuilderStore {
  import opened Common
  import opened ProfileTypes
  import opened ProgramTypes

  datatype BuilderMeta = BuilderMeta(title: string, focus: string)

  /** The argument of `setMeta`: `None` is a key the caller left out. */
  datatype PartialMeta = PartialMeta(title: Option<string>, focus: Option<string>)

  datatype BuilderState = BuilderState(
    meta: BuilderMeta,
    trainingDays: seq<TrainingDay>,
    workouts: seq<BuilderWorkout>)

  /** `defaultState`, which the store starts from. */
  const DefaultState := BuilderState(BuilderMeta("", ""), [], [])

  // ---------------------------------------------------------------------
  // Helpers over the two lists

  predicate HasWorkout(ws: seq<BuilderWorkout>, d: TrainingDay)
  {
    exists i :: 0 <= i < |ws| && ws[i].day == d
  }

  /** The number of draft workouts for `d`. */
  function WorkoutCount(ws: seq<BuilderWorkout>, d: TrainingDay): nat
  {
    if ws == [] then 0 else (if ws[0].day == d then 1 else 0) + WorkoutCount(ws[1..], d)
  }

  predicate NoDuplicates<T(==)>(xs: seq<T>)
  {
    forall i, j :: 0 <= i < j < |xs| ==> xs[i] != xs[j]
  }

  /** `days.filter((x) => x !== d)` */
  function WithoutDay(days: seq<TrainingDay>, d: TrainingDay): (r: seq<TrainingDay>)
    ensures forall x :: x in r <==> x in days && x != d
    ensures |r| <= |days|
  {
    if days == [] then [] else (if days[0] == d then [] else [days[0]]) + WithoutDay(days[1..], d)
  }

  /** `workouts.filter((w) => w.day !== d)` */
  function WorkoutsWithout(ws: seq<BuilderWorkout>, d: TrainingDay): (r: seq<BuilderWorkout>)
    ensures forall w :: w in r <==> w in ws && w.day != d
    ensures !HasWorkout(r, d)
  {
    if ws == [] then [] else (if ws[0].day == d then [] else [ws[0]]) + WorkoutsWithout(ws[1..], d)
  }

  // ---------------------------------------------------------------------
  // Actions

  /** `setMeta`: the supplied fields overwrite, the others keep their value. */
  function SetMeta(s: BuilderState, m: PartialMeta): (r: BuilderState)
    ensures r.meta.title == (if m.title.Some? then m.title.value else s.meta.title)
    ensures r.meta.focus == (if m.focus.Some? then m.focus.value else s.meta.focus)
    ensures r.trainingDays == s.trainingDays && r.workouts == s.workouts
  {
    s.(meta := BuilderMeta(m.title.GetOr(s.meta.title), m.focus.GetOr(s.meta.focus)))
  }

  /** `toggleTrainingDay`: a chosen day is dropped together with every workout of
      it; a new day is appended with one empty workout. */
  function ToggleTrainingDay(s: BuilderState, d: TrainingDay): (r: BuilderState)
    ensures r.meta == s.meta
    ensures d in s.trainingDays ==>
      r.trainingDays == WithoutDay(s.trainingDays, d) && r.workouts == WorkoutsWithout(s.workouts, d)
    ensures d in s.trainingDays ==>
      (forall x :: x in r.trainingDays <==> x in s.trainingDays && x != d) &&
      (forall w :: w in r.workouts <==> w in s.workouts && w.day != d) &&
      !HasWorkout(r.workouts, d)
    ensures d !in s.trainingDays ==>
      r.trainingDays == s.trainingDays + [d] &&
      r.workouts == s.workouts + [BuilderWorkout(d, "", [])]
  {
    if d in s.trainingDays then
      s.(trainingDays := WithoutDay(s.trainingDays, d), workouts := WorkoutsWithout(s.workouts, d))
    else
      s.(trainingDays := s.trainingDays + [d], workouts := s.workouts + [BuilderWorkout(d, "", [])])
  }

  /** `setWorkoutTitle`: only the titles of the workouts of `d` change. */
  function SetWorkoutTitle(s: BuilderState, d: TrainingDay, title: string): (r: BuilderState)
    ensures r.meta == s.meta && r.trainingDays == s.trainingDays
    ensures |r.workouts| == |s.workouts|
    ensures forall i :: 0 <= i < |s.workouts| ==>
      r.workouts[i].day == s.workouts[i].day &&
      r.workouts[i].exercises == s.workouts[i].exercises &&
      r.workouts[i].title == (if s.workouts[i].day == d then title else s.workouts[i].title)
  {
    var ws := s.workouts;
    s.(workouts := seq(|ws|, i requires 0 <= i < |ws| =>
                         if ws[i].day == d then ws[i].(title := title) else ws[i]))
  }

  /** `addExercise`: the exercise goes to the end of every workout of `d`; with no
      such workout, a new untitled workout holding just it is appended. */
  function AddExercise(s: BuilderState, d: TrainingDay, e: BuilderExercise): (r: BuilderState)
    ensures r.meta == s.meta && r.trainingDays == s.trainingDays
    ensures HasWorkout(s.workouts, d) ==>
      |r.workouts| == |s.workouts| &&
      forall i :: 0 <= i < |s.workouts| ==>
        if s.workouts[i].day == d
        then r.workouts[i] == s.workouts[i].(exercises := s.workouts[i].exercises + [e])
        else r.workouts[i] == s.workouts[i]
    ensures !HasWorkout(s.workouts, d) ==> r.workouts == s.workouts + [BuilderWorkout(d, "", [e])]
  {
    var ws := s.workouts;
    if HasWorkout(ws, d) then
      s.(workouts := seq(|ws|, i requires 0 <= i < |ws| =>
                           if ws[i].day == d then ws[i].(exercises := ws[i].exercises + [e]) else ws[i]))
    else
      s.(workouts := ws + [BuilderWorkout(d, "", [e])])
  }

  /** `removeExercise`: every workout of `d` loses its exercise at `index`. */
  function RemoveExercise(s: BuilderState, d: TrainingDay, index: int): (r: BuilderState)
    ensures r.meta == s.meta && r.trainingDays == s.trainingDays
    ensures |r.workouts| == |s.workouts|
    ensures forall i :: 0 <= i < |s.workouts| ==>
      if s.workouts[i].day == d
      then r.workouts[i] == s.workouts[i].(exercises := DropIndex(s.workouts[i].exercises, index))
      else r.workouts[i] == s.workouts[i]
  {
    var ws := s.workouts;
    s.(workouts := seq(|ws|, i requires 0 <= i < |ws| =>
                         if ws[i].day == d then ws[i].(exercises := DropIndex(ws[i].exercises, index)) else ws[i]))
  }

  /** `reset`: back to the default state, whatever the draft held. */
  function Reset(s: BuilderState): (r: BuilderState)
    ensures r.meta.title == "" && r.meta.focus == ""
    ensures r.trainingDays == [] && r.workouts == []
  {
    DefaultState
  }

  // ---------------------------------------------------------------------
  // Properties of the actions

  /** `WithoutDay` is a filter: it works element by element, keeping the order
      of what it keeps. */
  lemma {:induction false} WithoutDayFilters(a: seq<TrainingDay>, b: seq<TrainingDay>, x: TrainingDay, d: TrainingDay)
    ensures WithoutDay(a + b, d) == WithoutDay(a, d) + WithoutDay(b, d)
    ensures WithoutDay([x], d) == (if x == d then [] else [x])
    decreases |a|
  {
    assert WithoutDay([x], d) == (if x == d then [] else [x]) + WithoutDay([], d);
    if a == [] {
      assert a + b == b;
    } else {
      assert (a + b)[0] == a[0];
      assert (a + b)[1..] == a[1..] + b;
      WithoutDayFilters(a[1..], b, x, d);
    }
  }

  /** `WorkoutsWithout` is a filter in the same sense. */
  lemma {:induction false} WorkoutsWithoutFilters(
    a: seq<BuilderWorkout>, b: seq<BuilderWorkout>, w: BuilderWorkout, d: TrainingDay)
    ensures WorkoutsWithout(a + b, d) == WorkoutsWithout(a, d) + WorkoutsWithout(b, d)
    ensures WorkoutsWithout([w], d) == (if w.day == d then [] else [w])
    decreases |a|
  {
    assert WorkoutsWithout([w], d) == (if w.day == d then [] else [w]) + WorkoutsWithout([], d);
    if a == [] {
      assert a + b == b;
    } else {
      assert (a + b)[0] == a[0];
      assert (a + b)[1..] == a[1..] + b;
      WorkoutsWithoutFilters(a[1..], b, w, d);
    }
  }

  lemma {:induction false} WithoutAbsentDay(days: seq<TrainingDay>, d: TrainingDay)
    requires d !in days
    ensures WithoutDay(days, d) == days
  {
    if days != [] {
      WithoutAbsentDay(days[1..], d);
      assert [days[0]] + days[1..] == days;
    }
  }

  lemma {:induction false} WithoutAppended(days: seq<TrainingDay>, d: TrainingDay)
    requires d !in days
    ensures WithoutDay(days + [d], d) == days
  {
    if days == [] {
      assert WithoutDay([d], d) == [] + WithoutDay([], d);
    } else {
      assert (days + [d])[1..] == days[1..] + [d];
      WithoutAppended(days[1..], d);
      assert [days[0]] + days[1..] == days;
    }
  }

  lemma {:induction false} WorkoutsWithoutAbsent(ws: seq<BuilderWorkout>, d: TrainingDay)
    requires !HasWorkout(ws, d)
    ensures WorkoutsWithout(ws, d) == ws
  {
    if ws != [] {
      assert ws[0].day != d;
      assert !HasWorkout(ws[1..], d) by {
        forall i | 0 <= i < |ws[1..]| ensures ws[1..][i].day != d {
          assert ws[1..][i] == ws[i + 1];
        }
      }
      WorkoutsWithoutAbsent(ws[1..], d);
      assert [ws[0]] + ws[1..] == ws;
    }
  }

  lemma {:induction false} WorkoutsWithoutAppended(ws: seq<BuilderWorkout>, d: TrainingDay, w: BuilderWorkout)
    requires !HasWorkout(ws, d) && w.day == d
    ensures WorkoutsWithout(ws + [w], d) == ws
  {
    if ws == [] {
      assert WorkoutsWithout([w], d) == [] + WorkoutsWithout([], d);
    } else {
      assert (ws + [w])[1..] == ws[1..] + [w];
      assert ws[0].day != d;
      assert !HasWorkout(ws[1..], d) by {
        forall i | 0 <= i < |ws[1..]| ensures ws[1..][i].day != d {
          assert ws[1..][i] == ws[i + 1];
        }
      }
      WorkoutsWithoutAppended(ws[1..], d, w);
      assert [ws[0]] + ws[1..] == ws;
    }
  }

  lemma {:induction false} WithoutDayKeepsNoDuplicates(days: seq<TrainingDay>, d: TrainingDay)
    requires NoDuplicates(days)
    ensures NoDuplicates(WithoutDay(days, d))
  {
    if days != [] {
      assert NoDuplicates(days[1..]) by {
        forall i, j | 0 <= i < j < |days[1..]| ensures days[1..][i] != days[1..][j] {
          assert days[1..][i] == days[i + 1] && days[1..][j] == days[j + 1];
        }
      }
      WithoutDayKeepsNoDuplicates(days[1..], d);
      var rest := WithoutDay(days[1..], d);
      assert days[0] !in days[1..] by {
        forall k | 0 <= k < |days[1..]| ensures days[1..][k] != days[0] {
          assert days[1..][k] == days[k + 1];
        }
      }
      assert days[0] !in rest;
    }
  }

  /** Toggling keeps `trainingDays` free of duplicates. */
  lemma ToggleKeepsNoDuplicates(s: BuilderState, d: TrainingDay)
    requires NoDuplicates(s.trainingDays)
    ensures NoDuplicates(ToggleTrainingDay(s, d).trainingDays)
  {
    if d in s.trainingDays {
      WithoutDayKeepsNoDuplicates(s.trainingDays, d);
    } else {
      var r := s.trainingDays + [d];
      forall i, j | 0 <= i < j < |r| ensures r[i] != r[j] {
        if j == |s.trainingDays| {
          assert r[i] in s.trainingDays;
        }
      }
    }
  }

  /** Toggling a day that is neither chosen nor has a workout twice restores the draft. */
  lemma ToggleTwice(s: BuilderState, d: TrainingDay)
    requires d !in s.trainingDays && !HasWorkout(s.workouts, d)
    ensures ToggleTrainingDay(ToggleTrainingDay(s, d), d) == s
  {
    WithoutAppended(s.trainingDays, d);
    WorkoutsWithoutAppended(s.workouts, d, BuilderWorkout(d, "", []));
  }

  lemma {:induction false} SingleWorkoutIndex(ws: seq<BuilderWorkout>, d: TrainingDay) returns (k: nat)
    requires WorkoutCount(ws, d) == 1
    ensures k < |ws| && ws[k].day == d
    ensures forall i :: 0 <= i < |ws| && i != k ==> ws[i].day != d
  {
    if ws[0].day == d {
      k := 0;
      NoneLeft(ws[1..], d);
      forall i | 0 < i < |ws| ensures ws[i].day != d {
        assert ws[i] == ws[1..][i - 1];
      }
    } else {
      var k' := SingleWorkoutIndex(ws[1..], d);
      k := k' + 1;
      forall i | 0 <= i < |ws| && i != k ensures ws[i].day != d {
        if i > 0 {
          assert ws[i] == ws[1..][i - 1];
        }
      }
    }
  }

  lemma {:induction false} NoneLeft(ws: seq<BuilderWorkout>, d: TrainingDay)
    requires WorkoutCount(ws, d) == 0
    ensures forall i :: 0 <= i < |ws| ==> ws[i].day != d
  {
    if ws != [] {
      NoneLeft(ws[1..], d);
      forall i | 0 < i < |ws| ensures ws[i].day != d {
        assert ws[i] == ws[1..][i - 1];
      }
    }
  }

  /** With exactly one workout for `d`, removing the exercise just added (at the
      new last index) restores the workouts. */
  lemma AddThenRemove(s: BuilderState, d: TrainingDay, e: BuilderExercise)
    requires WorkoutCount(s.workouts, d) == 1
    ensures forall k :: 0 <= k < |s.workouts| && s.workouts[k].day == d ==>
      RemoveExercise(AddExercise(s, d, e), d, |s.workouts[k].exercises|) == s
  {
    var k := SingleWorkoutIndex(s.workouts, d);
    var n := |s.workouts[k].exercises|;
    var added := AddExercise(s, d, e);
    var back := RemoveExercise(added, d, n);
    DropAppended(s.workouts[k].exercises, e);
    assert back.workouts[k] == s.workouts[k];
    assert back.workouts == s.workouts;
  }

  /** `removeExercise` with an index that no workout of `d` has changes nothing. */
  lemma RemoveOutOfRange(s: BuilderState, d: TrainingDay, index: int)
    requires forall i :: 0 <= i < |s.workouts| && s.workouts[i].day == d ==>
      !(0 <= index < |s.workouts[i].exercises|)
    ensures RemoveExercise(s, d, index) == s
  {
    var r := RemoveExercise(s, d, index);
    assert r.workouts == s.workouts;
  }

  /** The shape the builder screen keeps the draft in: no day chosen twice, one
      workout per chosen day and no workout for a day not chosen. */
  predicate WellFormed(s: BuilderState)
  {
    NoDuplicates(s.trainingDays) &&
    (forall d :: d in s.trainingDays <==> HasWorkout(s.workouts, d)) &&
    (forall d :: d in s.trainingDays ==> WorkoutCount(s.workouts, d) == 1)
  }

  lemma {:induction false} CountAppend(ws: seq<BuilderWorkout>, w: BuilderWorkout, d: TrainingDay)
    ensures WorkoutCount(ws + [w], d) == WorkoutCount(ws, d) + (if w.day == d then 1 else 0)
  {
    if ws == [] {
      assert WorkoutCount([w], d) == (if w.day == d then 1 else 0) + WorkoutCount([], d);
    } else {
      assert (ws + [w])[1..] == ws[1..] + [w];
      CountAppend(ws[1..], w, d);
    }
  }

  lemma {:induction false} CountPositive(ws: seq<BuilderWorkout>, d: TrainingDay)
    ensures HasWorkout(ws, d) <==> WorkoutCount(ws, d) > 0
  {
    if ws != [] {
      CountPositive(ws[1..], d);
      if HasWorkout(ws, d) && ws[0].day != d {
        var i :| 0 <= i < |ws| && ws[i].day == d;
        assert ws[1..][i - 1] == ws[i];
      }
      if HasWorkout(ws[1..], d) {
        var i :| 0 <= i < |ws[1..]| && ws[1..][i].day == d;
        assert ws[i + 1].day == d;
      }
    }
  }

  lemma {:induction false} CountWithout(ws: seq<BuilderWorkout>, d: TrainingDay, x: TrainingDay)
    requires x != d
    ensures WorkoutCount(WorkoutsWithout(ws, d), x) == WorkoutCount(ws, x)
  {
    if ws != [] {
      CountWithout(ws[1..], d, x);
      var head := if ws[0].day == d then [] else [ws[0]];
      assert WorkoutsWithout(ws, d) == head + WorkoutsWithout(ws[1..], d);
      CountConcat(head, WorkoutsWithout(ws[1..], d), x);
    }
  }

  lemma {:induction false} CountConcat(a: seq<BuilderWorkout>, b: seq<BuilderWorkout>, x: TrainingDay)
    ensures WorkoutCount(a + b, x) == WorkoutCount(a, x) + WorkoutCount(b, x)
  {
    if a == [] {
      assert a + b == b;
    } else {
      assert (a + b)[0] == a[0];
      assert (a + b)[1..] == a[1..] + b;
      CountConcat(a[1..], b, x);
    }
  }

  /** Toggling a day keeps the draft well formed. */
  lemma ToggleKeepsWellFormed(s: BuilderState, d: TrainingDay)
    requires WellFormed(s)
    ensures WellFormed(ToggleTrainingDay(s, d))
  {
    var r := ToggleTrainingDay(s, d);
    ToggleKeepsNoDuplicates(s, d);
    if d in s.trainingDays {
      forall x | x in r.trainingDays ensures WorkoutCount(r.workouts, x) == 1 && HasWorkout(r.workouts, x) {
        CountWithout(s.workouts, d, x);
        CountPositive(r.workouts, x);
      }
      forall x | HasWorkout(r.workouts, x) ensures x in r.trainingDays {
        var i :| 0 <= i < |r.workouts| && r.workouts[i].day == x;
        assert r.workouts[i] in s.workouts;
        var j :| 0 <= j < |s.workouts| && s.workouts[j] == r.workouts[i];
        assert HasWorkout(s.workouts, x);
      }
    } else {
      var w := BuilderWorkout(d, "", []);
      assert !HasWorkout(s.workouts, d);
      forall x ensures x in r.trainingDays <==> HasWorkout(r.workouts, x) {
        CountAppend(s.workouts, w, x);
        CountPositive(r.workouts, x);
        CountPositive(s.workouts, x);
      }
      forall x | x in r.trainingDays ensures WorkoutCount(r.workouts, x) == 1 {
        CountAppend(s.workouts, w, x);
        CountPositive(s.workouts, x);
      }
    }
  }

  lemma {:induction false} CountMapped(ws: seq<BuilderWorkout>, vs: seq<BuilderWorkout>, x: TrainingDay)
    requires |ws| == |vs| && forall i :: 0 <= i < |ws| ==> vs[i].day == ws[i].day
    ensures WorkoutCount(vs, x) == WorkoutCount(ws, x)
  {
    if ws != [] {
      CountMapped(ws[1..], vs[1..], x);
    }
  }

  /** Replacing the workouts by ones with the same days keeps the draft well formed. */
  lemma SameDaysKeepWellFormed(s: BuilderState, r: BuilderState)
    requires WellFormed(s) && r.trainingDays == s.trainingDays
    requires |r.workouts| == |s.workouts|
    requires forall i :: 0 <= i < |s.workouts| ==> r.workouts[i].day == s.workouts[i].day
    ensures WellFormed(r)
  {
    forall x ensures WorkoutCount(r.workouts, x) == WorkoutCount(s.workouts, x) {
      CountMapped(s.workouts, r.workouts, x);
    }
    forall x ensures HasWorkout(r.workouts, x) <==> HasWorkout(s.workouts, x) {
      CountPositive(r.workouts, x);
      CountPositive(s.workouts, x);
    }
  }

  /** Adding an exercise to a chosen day, removing one, renaming a workout and
      setting the meta data keep the draft well formed; so does a reset. */
  lemma EditsKeepWellFormed(s: BuilderState, d: TrainingDay, e: BuilderExercise, index: int, title: string, m: PartialMeta)
    requires WellFormed(s) && d in s.trainingDays
    ensures WellFormed(AddExercise(s, d, e))
    ensures WellFormed(RemoveExercise(s, d, index))
    ensures WellFormed(SetWorkoutTitle(s, d, title))
    ensures WellFormed(SetMeta(s, m))
    ensures WellFormed(Reset(s))
  {
    SameDaysKeepWellFormed(s, AddExercise(s, d, e));
    SameDaysKeepWellFormed(s, RemoveExercise(s, d, index));
    SameDaysKeepWellFormed(s, SetWorkoutTitle(s, d, title));
  }
}
