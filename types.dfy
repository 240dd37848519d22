/** The value types of src/types/profile.ts. */
module ProfileTypes {
  import opened Common

  /** `TrainingDay`: the weekday names the app stores. */
  datatype TrainingDay = Monday | Tuesday | Wednesday | Thursday | Friday | Saturday | Sunday

  /** The string literal of a training day, as it appears in interpolations. */
  function DayName(d: TrainingDay): string
  {
    match d
    case Monday => "monday"
    case Tuesday => "tuesday"
    case Wednesday => "wednesday"
    case Thursday => "thursday"
    case Friday => "friday"
    case Saturday => "saturday"
    case Sunday => "sunday"
  }

  /** `Profile` as the client holds it: `training_days` is a list and
      `onboarding_complete` a boolean (the raw row may hold nulls). */
  datatype Profile = Profile(
    id: Id,
    displayName: Option<string>,
    avatarUrl: Option<string>,
    mail: Option<string>,
    goal: Option<string>,
    goalDescription: Option<string>,
    timezone: Option<string>,
    trainingDays: seq<TrainingDay>,
    onboardingComplete: bool)
}

/** The value types of src/types/program.ts used by the builder and the services. */
module ProgramTypes {
  import opened Common
  import opened ProfileTypes

  /** `BuilderExercise`: one exercise of a draft workout. */
  datatype BuilderExercise = BuilderExercise(
    movementId: Id,
    movementName: string,
    movementImage: Option<string>,
    sets: int,
    reps: string,
    restSeconds: Option<int>,
    note: Option<string>)

  /** `BuilderWorkout`: the draft workout of one training day. */
  datatype BuilderWorkout = BuilderWorkout(day: TrainingDay, title: string, exercises: seq<BuilderExercise>)

  /** `ScheduleInstance['status']` */
  datatype ScheduleStatus = Pending | Done | Skipped

  /** `ProgramWorkout`: a stored workout row; `day_of_week` counts from 0 = Monday. */
  datatype ProgramWorkout = ProgramWorkout(
    id: Id,
    programId: Id,
    dayOfWeek: int,
    title: string,
    orderIndex: int,
    notes: Option<string>)
}

/** The value types of src/types/movement.ts and the constants of
    src/constants/movements.ts. */
module MovementTypes {
  import opened Common

  /** `Movement`, with the columns the model reads. */
  datatype Movement = Movement(
    id: Id,
    name: string,
    categoryId: Option<string>,
    equipment: Option<string>,
    difficulty: Option<string>,
    isCustom: bool,
    ownerId: Option<Id>)

  /** `MovementCategory` */
  datatype MovementCategory = MovementCategory(id: string, name: string, icon: Option<string>)

  /** `MOVEMENT_CATEGORIES` */
  const Categories: seq<MovementCategory> := [
    MovementCategory("push", "Push", Some("💪")),
    MovementCategory("pull", "Pull", Some("🏋️")),
    MovementCategory("legs", "Bacak", Some("🦵")),
    MovementCategory("core", "Core", Some("🧘")),
    MovementCategory("cardio", "Cardio", Some("❤️"))
  ]
}
