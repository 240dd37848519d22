/** The screen that drives the draft store (app/program-builder.tsx): the
    exercise picker's selection, building an exercise from the form, and the
    checks before the draft is sent to `createProgramWithWorkouts`. The
    screen's React state is a class whose fields its handlers update; the
    draft store is one of those fields. JavaScript's `Number` is a parameter
    and the create call's outcome too. */
module ProgramBuilderScreen {
  import opened Common
  import opened Strings
  import opened ProfileTypes
  import opened ProgramTypes
  import opened ProgramBuilderStore

  /** `ExerciseForm`: the text fields of the exercise form. */
  datatype ExerciseForm = ExerciseForm(sets: string, reps: string, restSeconds: string, note: string)

  /** The form's `defaultValues`. */
  const DefaultForm := ExerciseForm("3", "10", "", "")

  /** The exercise `handleSaveExercise` builds from the selection and the form:
      no rest when the field is empty, the note trimmed and dropped when blank. */
  function BuildExercise(movementId: Id, movementName: string, movementImage: Option<string>,
                         values: ExerciseForm, number: string -> int): (e: BuilderExercise)
    ensures e.movementId == movementId && e.movementName == movementName && e.movementImage == movementImage
    ensures e.sets == number(values.sets) && e.reps == values.reps
    ensures e.restSeconds.None? <==> values.restSeconds == ""
    ensures e.restSeconds.Some? ==> e.restSeconds.value == number(values.restSeconds)
    ensures e.note.None? <==> Trim(values.note) == ""
    ensures e.note.Some? ==> e.note.value == Trim(values.note)
  {
    var note := Trim(values.note);
    BuilderExercise(
      movementId, movementName, movementImage,
      number(values.sets), values.reps,
      if values.restSeconds != "" then Some(number(values.restSeconds)) else None,
      if note != "" then Some(note) else None)
  }

  /** A note that is kept has no white space at either end and is not blank. */
  lemma BuiltNoteTrimmed(movementId: Id, movementName: string, movementImage: Option<string>,
                         values: ExerciseForm, number: string -> int)
    ensures var e := BuildExercise(movementId, movementName, movementImage, values, number);
      e.note.Some? ==> e.note.value != "" && !IsSpace(e.note.value[0]) && !IsSpace(e.note.value[|e.note.value| - 1])
  {
    TrimIsTrimmed(values.note);
  }

  /** Why `handleProgramSave` refuses to send the draft. */
  datatype Refusal =
    | MissingTitleOrDays   // 'Program adı ve antrenman günleri gerekli'
    | NoExercise           // 'En az bir egzersiz ekleyin'

  /** Whether some workout of the draft has an exercise. */
  predicate SomeExercise(ws: seq<BuilderWorkout>)
  {
    exists i :: 0 <= i < |ws| && |ws[i].exercises| > 0
  }

  /** The two checks of `handleProgramSave`, in order. */
  function SaveRefusal(s: BuilderState): (r: Option<Refusal>)
    ensures r == Some(MissingTitleOrDays) <==> s.meta.title == "" || |s.trainingDays| == 0
    ensures r == Some(NoExercise) <==> s.meta.title != "" && |s.trainingDays| > 0 && !SomeExercise(s.workouts)
    ensures r.None? <==> s.meta.title != "" && |s.trainingDays| > 0 && SomeExercise(s.workouts)
  {
    if s.meta.title == "" || |s.trainingDays| == 0 then Some(MissingTitleOrDays)
    else if !SomeExercise(s.workouts) then Some(NoExercise)
    else None
  }

  /** A reset draft is never sent. */
  lemma ResetIsRefused(s: BuilderState)
    ensures SaveRefusal(Reset(s)) == Some(MissingTitleOrDays)
  {
  }

  /** Once the draft has a title and a day, adding an exercise makes it sendable. */
  lemma AddingMakesSendable(s: BuilderState, d: TrainingDay, e: BuilderExercise)
    requires s.meta.title != "" && |s.trainingDays| > 0
    ensures SaveRefusal(AddExercise(s, d, e)).None?
  {
    var r := AddExercise(s, d, e);
    if HasWorkout(s.workouts, d) {
      var i :| 0 <= i < |s.workouts| && s.workouts[i].day == d;
      assert |r.workouts[i].exercises| > 0;
    } else {
      assert |r.workouts[|s.workouts|].exercises| == 1;
    }
  }

  /** What `createProgramMutation.mutateAsync` is sent. */
  datatype ProgramRequest = ProgramRequest(
    title: string,
    focus: string,
    trainingDays: seq<TrainingDay>,
    workouts: seq<BuilderWorkout>)

  /** What the user sees after pressing save. */
  datatype SaveOutcome =
    | Refused(reason: Refusal)
    | Failed(message: string)   // the alert after a failed create
    | Saved                     // draft reset, navigated back

  /** The message shown for a failed create without a message of its own. */
  const SaveFailedMessage := "Program kaydedilemedi"

  class Screen {
    /** `pickerDay`: the day whose exercise picker is open. */
    var pickerDay: Option<TrainingDay>
    var selectedMovementId: Option<Id>
    var selectedMovementName: string
    var selectedMovementImage: Option<string>
    /** The exercise form's current values. */
    var form: ExerciseForm
    /** The draft store's state. */
    var draft: BuilderState

    /** The screen as first rendered over the store's current draft. */
    constructor (draft: BuilderState)
      ensures this.pickerDay.None? && this.selectedMovementId.None?
      ensures this.selectedMovementName == "" && this.selectedMovementImage.None?
      ensures this.form == DefaultForm && this.draft == draft
    {
      this.pickerDay := None;
      this.selectedMovementId := None;
      this.selectedMovementName := "";
      this.selectedMovementImage := None;
      this.form := DefaultForm;
      this.draft := draft;
    }

    /** `handleAddExercise(day)`: open the picker for `day` with nothing selected. */
    method HandleAddExercise(day: TrainingDay)
      modifies this
      ensures pickerDay == Some(day) && selectedMovementId.None?
      ensures selectedMovementName == "" && selectedMovementImage.None?
      ensures form == old(form) && draft == old(draft)
    {
      pickerDay := Some(day);
      selectedMovementId := None;
      selectedMovementName := "";
      selectedMovementImage := None;
    }

    /** Picking a movement in the list. */
    method SelectMovement(id: Id, name: string, image: Option<string>)
      modifies this
      ensures selectedMovementId == Some(id) && selectedMovementName == name && selectedMovementImage == image
      ensures pickerDay == old(pickerDay) && form == old(form) && draft == old(draft)
    {
      selectedMovementId := Some(id);
      selectedMovementName := name;
      selectedMovementImage := image;
    }

    /** `handleSaveExercise` with the submitted form values: nothing happens
        without a picker day and a movement; otherwise the built exercise is
        added to that day and the picker, selection and form are cleared. */
    method HandleSaveExercise(values: ExerciseForm, number: string -> int)
      modifies this
      ensures old(pickerDay).None? || old(selectedMovementId).None? ==>
        pickerDay == old(pickerDay) && selectedMovementId == old(selectedMovementId) &&
        selectedMovementName == old(selectedMovementName) && selectedMovementImage == old(selectedMovementImage) &&
        form == old(form) && draft == old(draft)
      ensures old(pickerDay).Some? && old(selectedMovementId).Some? ==>
        draft == AddExercise(old(draft), old(pickerDay).value,
                             BuildExercise(old(selectedMovementId).value, old(selectedMovementName),
                                           old(selectedMovementImage), values, number)) &&
        pickerDay.None? && selectedMovementId.None? && selectedMovementName == "" &&
        selectedMovementImage.None? && form == DefaultForm
    {
      if pickerDay.None? || selectedMovementId.None? {
        return;
      }
      var exercise := BuildExercise(selectedMovementId.value, selectedMovementName, selectedMovementImage,
                                    values, number);
      draft := AddExercise(draft, pickerDay.value, exercise);
      pickerDay := None;
      selectedMovementId := None;
      selectedMovementName := "";
      selectedMovementImage := None;
      form := DefaultForm;
    }

    /** `handleProgramSave`, given what the create call would do with the
        request (`None` for success, else the error's optional message).
        Returns the request sent, if any. */
    method HandleProgramSave(createError: ProgramRequest -> Option<Option<string>>)
      returns (sent: Option<ProgramRequest>, outcome: SaveOutcome)
      modifies this
      ensures sent.None? <==> SaveRefusal(old(draft)).Some?
      ensures sent.None? ==> outcome == Refused(SaveRefusal(old(draft)).value) && draft == old(draft)
      ensures sent.Some? ==>
        sent.value == ProgramRequest(old(draft).meta.title, old(draft).meta.focus,
                                     old(draft).trainingDays, old(draft).workouts)
      ensures sent.Some? && createError(sent.value).Some? ==>
        outcome == Failed(createError(sent.value).value.GetOr(SaveFailedMessage)) && draft == old(draft)
      ensures sent.Some? && createError(sent.value).None? ==> outcome == Saved && draft == DefaultState
      ensures pickerDay == old(pickerDay) && selectedMovementId == old(selectedMovementId)
      ensures selectedMovementName == old(selectedMovementName) && selectedMovementImage == old(selectedMovementImage)
      ensures form == old(form)
    {
      if draft.meta.title == "" || |draft.trainingDays| == 0 {
        return None, Refused(MissingTitleOrDays);
      }
      if !SomeExercise(draft.workouts) {
        return None, Refused(NoExercise);
      }
      var request := ProgramRequest(draft.meta.title, draft.meta.focus, draft.trainingDays, draft.workouts);
      var error := createError(request);
      if error.Some? {
        return Some(request), Failed(error.value.GetOr(SaveFailedMessage));
      }
      draft := Reset(draft);
      return Some(request), Saved;
    }
  }
}
