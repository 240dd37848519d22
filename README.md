# Fitness App core, modelled in Dafny

This project models the client-side logic of a fitness tracking app. It is written in TypeScript with a Supabase backend, and the model covers:

- the program-builder draft (training days and per-day workouts) and the screen that fills and sends it;
- the weekday index and the first-schedule offsets, and the rows a new program is stored as;
- the friend-request and workout-invite state machine and the "friends training today" join;
- the exercise-log upsert, the per-movement statistics fold and the chart points;
- the set lists edited in the workout log dialog and what it saves;
- the redirect-URL parameter parser and the choice between the code and token sign-in flows, and the sign-out error filter;
- the Monday-first month grid, the week strip and the status counts;
- the theme mode, the movement library's filters, cache fallback and category labels;
- the session provider's profile loading, and the launch screen's redirect.

Each remote table is an in-memory sequence or a field of a class. The answers of the remote calls the model covers are parameters: the auth provider's answers, what a fetch, an insert or an upsert returns, the error a query or a write reports, and the cache contents. The backend errors that are not parameters are listed under "Left out". Days are abstract day numbers: day 0 is Monday 1 January 2001, and the ISO 8601 weekday (Monday first) is the day number modulo 7. Floating-point values are exact reals. `decodeURIComponent`, `Number` and `parseFloat` are function parameters. `trim` and `toUpperCase` are written out for ASCII.

Modules follow the source files:

| module | file | source |
|---|---|---|
| `Common`, `Strings`, `DayNumbers` | common.dfy, strings.dfy, days.dfy | shared: optional values, `split`/`trim`/`toUpperCase`/`parseInt`, calendar days |
| `ProfileTypes`, `ProgramTypes`, `MovementTypes` | types.dfy | src/types/*.ts, src/constants/movements.ts |
| `ProgramBuilderStore` | program_builder_store.dfy | src/state/programBuilderStore.ts |
| `ProgramBuilderScreen` | program_builder_screen.dfy | app/program-builder.tsx |
| `ProgramService` | program_service.dfy | src/services/programService.ts |
| `FriendService` | friend_service.dfy | src/services/friendService.ts |
| `ExerciseLogService` | exercise_log_service.dfy | src/services/exerciseLogService.ts |
| `WorkoutLogModal` | workout_log_modal.dfy | src/components/WorkoutLogModal.tsx |
| `AuthService` | auth_service.dfy | src/services/authService.ts |
| `WorkoutHistory`, `MonthlyCalendar`, `WeeklyStreak` | workout_history.dfy, monthly_calendar.dfy, weekly_streak.dfy | src/components/MonthlyCalendarModal.tsx, src/components/WeeklyStreak.tsx |
| `Theme` | theme.dfy | src/theme.tsx |
| `MovementService` | movement_service.dfy | src/services/movementService.ts |
| `SessionProvider` | session_provider.dfy | src/state/SessionProvider.tsx |
| `LaunchRoute` | launch_route.dfy | app/index.tsx |

## Model

| member | source | states |
|---|---|---|
| ProgramBuilderStore.WithoutDay | src/state/programBuilderStore.ts:42 | the filtered day list holds exactly the days other than `d`, and is no longer |
| ProgramBuilderStore.WorkoutsWithout | src/state/programBuilderStore.ts:44 | the filtered workouts are exactly those of other days, and none is for `d` |
| ProgramBuilderStore.SetMeta | src/state/programBuilderStore.ts:35-38 | each supplied field of `meta` replaces the old value, a missing one keeps it; days and workouts are unchanged |
| ProgramBuilderStore.ToggleTrainingDay | src/state/programBuilderStore.ts:39-50 | a present day is removed: the day list and the workouts become exactly their filters without that day; an absent day is appended with one new workout `{day, '', []}`; meta is unchanged |
| ProgramBuilderStore.SetWorkoutTitle | src/state/programBuilderStore.ts:51-56 | only the titles of the workouts for that day change, all to the new title; everything else is kept |
| ProgramBuilderStore.AddExercise | src/state/programBuilderStore.ts:57-66 | with a workout for the day the exercise is appended to each such workout and the others are kept; otherwise one workout holding just the exercise is appended |
| ProgramBuilderStore.RemoveExercise | src/state/programBuilderStore.ts:67-74 | the workouts for that day lose exactly the exercise at `index` (none when out of range); other workouts are kept |
| ProgramBuilderStore.Reset | src/state/programBuilderStore.ts:23-31 | empty title and focus, no days and no workouts |
| ProgramBuilderStore.WithoutAbsentDay | src/state/programBuilderStore.ts:42 | filtering out a day that is not in the list leaves the list as it was |
| ProgramBuilderStore.WithoutAppended | src/state/programBuilderStore.ts:42 | filtering a day out of a list it was just appended to gives the original list |
| ProgramBuilderStore.WorkoutsWithoutAbsent | src/state/programBuilderStore.ts:44 | filtering out a day without workouts leaves the workouts as they were |
| ProgramBuilderStore.WorkoutsWithoutAppended | src/state/programBuilderStore.ts:44-45 | filtering out the day of a just-appended workout gives the original workouts |
| ProgramBuilderStore.WithoutDayKeepsNoDuplicates | src/state/programBuilderStore.ts:42 | filtering keeps a duplicate-free day list duplicate-free |
| ProgramBuilderStore.WithoutDayFilters | src/state/programBuilderStore.ts:42 | the day filter works element by element: it distributes over concatenation and keeps a single day exactly when it is not `d` |
| ProgramBuilderStore.WorkoutsWithoutFilters | src/state/programBuilderStore.ts:44 | the workout filter distributes over concatenation and keeps a single workout exactly when its day is not `d` |
| ProgramBuilderStore.ToggleKeepsNoDuplicates | src/state/programBuilderStore.ts:41-42 | a toggle keeps the training days free of duplicates |
| ProgramBuilderStore.ToggleTwice | src/state/programBuilderStore.ts:39-50 | toggling a day that has neither a list entry nor a workout twice restores the state exactly |
| ProgramBuilderStore.SingleWorkoutIndex | src/state/programBuilderStore.ts:59-62 | a day counted once has exactly one workout position |
| ProgramBuilderStore.NoneLeft | src/state/programBuilderStore.ts:44 | a day counted zero times has no workout |
| ProgramBuilderStore.AddThenRemove | src/state/programBuilderStore.ts:57-74 | with exactly one workout for the day, adding an exercise and removing it at the new last index restores the workouts |
| ProgramBuilderStore.RemoveOutOfRange | src/state/programBuilderStore.ts:67-74 | an index outside every workout of the day changes nothing |
| ProgramBuilderStore.CountAppend | src/state/programBuilderStore.ts:45 | appending a workout adds one to the count of its day only |
| ProgramBuilderStore.CountPositive | src/state/programBuilderStore.ts:59 | `some(workout.day === day)` holds exactly when the day's count is positive |
| ProgramBuilderStore.CountWithout | src/state/programBuilderStore.ts:44 | removing one day's workouts keeps the counts of the other days |
| ProgramBuilderStore.CountConcat | src/state/programBuilderStore.ts:45 | the count over a concatenation is the sum of the counts |
| ProgramBuilderStore.ToggleKeepsWellFormed | src/state/programBuilderStore.ts:39-50 | a toggle keeps "each training day has exactly one workout and every workout's day is a training day" |
| ProgramBuilderStore.CountMapped | src/state/programBuilderStore.ts:53-54 | a per-workout map that keeps every day keeps every count |
| ProgramBuilderStore.SameDaysKeepWellFormed | src/state/programBuilderStore.ts:51-74 | replacing workouts position by position with the same days keeps the state well formed |
| ProgramBuilderStore.EditsKeepWellFormed | src/state/programBuilderStore.ts:35-75 | adding or removing an exercise on a training day, renaming, setting meta and reset keep the state well formed |
| ProgramService.ToDayIndex | src/services/programService.ts:10-18 | every day has an index in 0..6, and `INDEX_TO_DAY` at that index gives the day back |
| ProgramService.FromDayIndex | src/services/programService.ts:20-36 | a day is found exactly for the indices 0..6 |
| ProgramService.DayIndexBijection | src/services/programService.ts:10-36 | `fromDayIndex(toDayIndex(d)) = d` for every day, `toDayIndex(fromDayIndex(i)) = i` for 0..6, and distinct days have distinct indices |
| ProgramService.TodayIndex | src/services/programService.ts:311 | `(getDay() + 6) % 7` lies in 0..6 and is the Monday-first weekday of today (Monday 0, Sunday 6) |
| ProgramService.JsRem | src/services/programService.ts:315 | JavaScript's `%` by a positive divisor: in 0..b-1 for a non-negative dividend, in -(b-1)..0 for a negative one |
| ProgramService.OffsetIsNextOccurrence | src/services/programService.ts:315-316 | the offset lies in 0..6, is 0 exactly when the workout's weekday is today's, today plus the offset has that weekday, and no earlier day from today on has it |
| ProgramService.ScheduleOffset | src/services/programService.ts:315 | for weekdays in 0..6 the offset lies in 0..6 and today's weekday plus it lands on the workout's weekday; with JavaScript's truncating remainder, a stored weekday more than a week behind gives a non-positive offset |
| ProgramService.WeekdayOf | src/services/programService.ts:316 | the weekday of a day `r` days past a Monday is `r % 7` |
| ProgramService.GenerateInitialSchedule | src/services/programService.ts:309-331 | no insert for an empty workout list; otherwise exactly one pending instance per workout, in order, carrying the program id, the workout id and today plus the offset |
| ProgramService.WorkoutTitle | src/services/programService.ts:167 | a workout title is never empty, and a given title is kept |
| ProgramService.WorkoutPayload | src/services/programService.ts:164-170 | one row per draft workout with `order_index` its position, the day's index, the program id, null notes and the defaulted title |
| ProgramService.BlocksPayload | src/services/programService.ts:181-187 | one single-type block at order 0 per stored workout |
| ProgramService.ExercisesOf | src/services/programService.ts:200-208 | one row per exercise, attached to the block, with `order_index` its position and rest and note passed through |
| ProgramService.ExercisesPayload | src/services/programService.ts:195-209 | every row is attached to a returned block, and no blocks give no rows |
| ProgramService.ExercisesPayloadPositions | src/services/programService.ts:195-209 | with a block for every workout, the rows of workout i start after the rows of the workouts before it and are exactly its exercises, in order, attached to block i |
| ProgramService.ExercisesPayloadShortBlocks | src/services/programService.ts:195-209 | workouts beyond the returned blocks contribute no rows: the payload is that of the workouts that have a block |
| ProgramService.ExercisesPayloadComplete | src/services/programService.ts:195-209 | with a block for every workout, every exercise of the draft gets exactly one row |
| ProgramService.StoredWorkouts | src/services/programService.ts:172-175 | the returned workouts carry the payload's program, weekday and order with the backend's ids, in insert order |
| ProgramService.CreateProgramWithWorkouts | src/services/programService.ts:134-221 | each failing step, in order, ends the call: the user lookup's error is rethrown, no user gives 'Giriş gerekiyor', a failed program insert rethrows its error or gives 'Program oluşturulamadı' when there is none, and the workout, block and exercise inserts rethrow theirs (the exercise insert only when there are rows); on success the program row, the workout, block and exercise rows as above are written, and the schedule row of stored workout i is pending, for that workout, dated today plus its offset |
| ProgramService.LowestBlock | src/services/programService.ts:245-251 | the block found belongs to the workout and has the lowest `order_index` among its blocks (the earliest on ties); none exactly when the workout has no block |
| ProgramService.WorkoutTables.constructor | src/services/programService.ts:244 | the tables start empty |
| ProgramService.WorkoutTables.AddExerciseToWorkout | src/services/programService.ts:244-295 | a failing block lookup, block creation or exercise insert rethrows its error; a block created before a failing exercise insert stays; the lowest block is reused and the blocks are unchanged; only without one is a `single` block at order 0 appended with a fresh id; on success exactly one exercise row with the payload's fields, the chosen block and a fresh id is appended |
| FriendService.NormalizeCode | src/services/friendService.ts:12 | the searched code is no longer than the input |
| FriendService.NormalizeCodeNormal | src/services/friendService.ts:12 | the searched code has no lower-case letter and no white space at either end, and normalising it again changes nothing |
| FriendService.ProfilesWithCode | src/services/friendService.ts:14-17 | exactly the profiles whose code equals the searched code |
| FriendService.SearchUserByCode | src/services/friendService.ts:11-25 | a query error is rethrown; otherwise, over the profiles with the upper-cased, trimmed code, none gives null, exactly one gives that profile, and it is an error exactly when there are two or more |
| FriendService.PendingIds | src/services/friendService.ts:64-69 | exactly the pending requests between the two users, in either direction |
| FriendService.SendRefusal | src/services/friendService.ts:28-76 | not signed in, a request to oneself, an unknown receiver and an existing friendship are refused with their own messages; the request goes ahead exactly when none of these holds and the pending check does not see exactly one request |
| FriendService.SendRefusalDirection | src/services/friendService.ts:71-76 | the one pending request gives the "incoming" message when the receiver sent it and the "outgoing" message when the caller did |
| FriendService.AtMostOnePending | src/services/friendService.ts:64-69 | with at most one pending request per pair, the pending check matches at most one row |
| FriendService.NoPendingLeft | src/services/friendService.ts:64-76 | so a send that passes the pending check leaves no pending request between the two |
| FriendService.FriendIds | src/services/friendService.ts:467-481 | the friend ids are exactly the users the caller has an edge to |
| FriendService.ProfileOf | src/services/friendService.ts:507 | `profileMap.get(id)` finds a profile with that id exactly when one exists |
| FriendService.TodayRow | src/services/friendService.ts:524-533 | a result row carries the owner, schedule id and status, and fills the defaults 'Kullanıcı', '', 'Antrenman' and 'Program' |
| FriendService.FriendsToday | src/services/friendService.ts:509-534 | every row is of a friend with a loaded profile, there are no more rows than schedules, and no friends give no rows |
| FriendService.FriendsTodayExact | src/services/friendService.ts:509-534 | every schedule of a friend with a loaded profile gives its row, and every row comes from such a schedule |
| FriendService.SocialGraph.constructor | src/services/friendService.ts:28 | the request, friendship and invite tables start empty |
| FriendService.SocialGraph.SendFriendRequest | src/services/friendService.ts:28-97 | a refused send changes nothing and returns its message; a failed insert changes nothing and reports 'Bu kişiye zaten istek gönderilmiş' for a unique-key violation, else the backend's message; otherwise exactly one pending request from the caller to the receiver is added; at most one pending request per pair is kept |
| FriendService.SocialGraph.AcceptFriendRequest | src/services/friendService.ts:181-255 | not signed in, a missing or unreadable request, a caller who is not the receiver and a processed request give their messages and change nothing; for an existing friendship only the status changes, even when that update fails; otherwise a failing status update changes nothing, a failing first edge leaves the request accepted without edges, a failing second edge leaves it accepted with the caller's edge, and success adds both directed edges |
| FriendService.SocialGraph.RejectFriendRequest | src/services/friendService.ts:257-274 | not signed in and a failed update change nothing and report their error; otherwise only the row with that id whose receiver is the caller becomes rejected, whatever its status |
| FriendService.SocialGraph.CancelFriendRequest | src/services/friendService.ts:276-293 | not signed in and a failed delete change nothing and report their error; otherwise only the row with that id whose sender is the caller is deleted, whatever its status |
| FriendService.SocialGraph.RemoveFriend | src/services/friendService.ts:334-350 | a failed delete changes nothing and gives 'Arkadaşlık sonlandırılamadı'; otherwise only the caller's edge to the friend is removed |
| FriendService.SocialGraph.FetchFriendsTodayWorkouts | src/services/friendService.ts:460-537 | the friendship query's error is rethrown; no friends give an empty list; with friends the schedule and profile queries' errors are rethrown in that order; otherwise the loop's result is the join of today's schedules with the caller's friends and their profiles |
| FriendService.SocialGraph.SendWorkoutInvite | src/services/friendService.ts:567-590 | a failed insert changes nothing and reports its error; otherwise one pending invite from the caller, dated today, is added |
| FriendService.SocialGraph.RespondToWorkoutInvite | src/services/friendService.ts:634-645 | a failed update changes nothing and reports its error; otherwise only the invite with that id takes the answer, and an unknown id changes nothing |
| FriendService.ProfilesOf | src/services/friendService.ts:500-503 | exactly the profiles of the friends |
| ExerciseLogService.ExerciseLogTable.constructor | src/services/exerciseLogService.ts:31-32 | the log table starts empty |
| ExerciseLogService.ExerciseLogTable.CreateExerciseLog | src/services/exerciseLogService.ts:20-60 | without a user nothing changes and 'Kullanıcı oturum açmamış' is returned; a failed upsert changes nothing and reports its error; otherwise the row under (user, movement, today) is replaced by the payload's fields, keeping its id if it existed and taking a fresh id if not, and every other key keeps its row, so there is one log per key |
| ExerciseLogService.Movements | src/services/exerciseLogService.ts:115-139 | the movements of the logs, each exactly once |
| ExerciseLogService.Count | src/services/exerciseLogService.ts:122 | the number of logs of a movement, zero exactly when it has none |
| ExerciseLogService.FirstOf | src/services/exerciseLogService.ts:118-128 | the position of the first log of a movement, none exactly when it has no log |
| ExerciseLogService.MaxNonZero | src/services/exerciseLogService.ts:124-126 | the largest non-zero weight among a movement's logs, none exactly when no weight is non-zero |
| ExerciseLogService.StatsOf | src/services/exerciseLogService.ts:127-137 | a movement's entry counts all of its logs, at least one |
| ExerciseLogService.InMovements | src/services/exerciseLogService.ts:117-118 | a grouped movement has a first log |
| ExerciseLogService.AllStats | src/services/exerciseLogService.ts:115-141 | one entry per movement, in order of first appearance, each its statistics |
| ExerciseLogService.Insert | src/services/exerciseLogService.ts:141-143 | inserting into the sorted list adds exactly that entry |
| ExerciseLogService.SortByRecent | src/services/exerciseLogService.ts:141-143 | the sort is a permutation of the entries |
| ExerciseLogService.InsertSorted | src/services/exerciseLogService.ts:141-143 | inserting keeps the list newest first |
| ExerciseLogService.SortIsSorted | src/services/exerciseLogService.ts:141-143 | the result is sorted by `last_logged_at`, newest first |
| ExerciseLogService.SortOfSorted | src/services/exerciseLogService.ts:141-143 | a list already newest first is kept as it is |
| ExerciseLogService.AppendLog | src/services/exerciseLogService.ts:117-139 | count, sum of sets, first log and largest non-zero weight of one more log |
| ExerciseLogService.RunningMean | src/services/exerciseLogService.ts:123 | folding one more value into the mean of `c` values gives the mean of `c + 1` values |
| ExerciseLogService.MaxStep | src/services/exerciseLogService.ts:124-126 | the loop's max update computes the maximum weight of the logs so far |
| ExerciseLogService.CountAppend | src/services/exerciseLogService.ts:122-123 | one more log of the movement adds one to its count and its sets to the sum |
| ExerciseLogService.MeanStep | src/services/exerciseLogService.ts:122-123 | the incremental `avg_sets` update equals the arithmetic mean of `sets_completed` |
| ExerciseLogService.StepExisting | src/services/exerciseLogService.ts:121-126 | for a movement already seen, the loop's update gives the statistics of the longer list |
| ExerciseLogService.FirstKept | src/services/exerciseLogService.ts:127-137 | later logs do not change a movement's first log |
| ExerciseLogService.StepNew | src/services/exerciseLogService.ts:127-137 | a movement's first log starts its entry with that log's values and one session |
| ExerciseLogService.ZeroWhenAbsent | src/services/exerciseLogService.ts:123 | a movement without logs has no sets |
| ExerciseLogService.StepOther | src/services/exerciseLogService.ts:117-139 | one more log leaves every other movement's statistics as they were |
| ExerciseLogService.Started | src/services/exerciseLogService.ts:128-137 | a new entry is for the log's movement with one session |
| ExerciseLogService.Updated | src/services/exerciseLogService.ts:121-126 | an updated entry keeps its movement and counts one more session |
| ExerciseLogService.Absorb | src/services/exerciseLogService.ts:117-139 | one turn adds the log's movement to the map and leaves every other entry alone |
| ExerciseLogService.MovementsAppend | src/services/exerciseLogService.ts:128 | a new movement is added at the end of the insertion order |
| ExerciseLogService.EntryAfter | src/services/exerciseLogService.ts:117-139 | after one more log every entry of the map is the statistics of the longer list |
| ExerciseLogService.AbsorbHoldsStats | src/services/exerciseLogService.ts:117-139 | one loop turn keeps "the map holds the statistics of exactly the movements seen" |
| ExerciseLogService.StatsMapHoldsStats | src/services/exerciseLogService.ts:115-139 | the loop's map holds the statistics of every movement of the logs and of no other |
| ExerciseLogService.StatsMapValues | src/services/exerciseLogService.ts:141 | the map's values in insertion order are the statistics in order of first appearance |
| ExerciseLogService.AbsorbLog | src/services/exerciseLogService.ts:118-138 | the loop body updates the map by one log and records a new movement's position |
| ExerciseLogService.PrefixStep | src/services/exerciseLogService.ts:117 | the movements and the map of one more row |
| ExerciseLogService.FetchMovementStats | src/services/exerciseLogService.ts:98-144 | the result is the statistics of every movement, one entry each, sorted newest first |
| ExerciseLogService.MaxWeightMeaning | src/services/exerciseLogService.ts:124-134 | `max_weight_kg` is the largest non-zero weight when there is one, else the first log's weight |
| ExerciseLogService.LastIsMostRecent | src/services/exerciseLogService.ts:108-136 | for rows ordered newest first, `last_logged_at` is the latest instant of the movement's logs |
| ExerciseLogService.FirstAppearanceOrder | src/services/exerciseLogService.ts:115-141 | movements come in increasing position of their first log |
| ExerciseLogService.StatsAlreadySorted | src/services/exerciseLogService.ts:108-143 | for rows ordered newest first the entries are already sorted, and the sort leaves them as they are |
| ExerciseLogService.ChartData | src/services/exerciseLogService.ts:177-196 | one point per log, in input order, with the metric's value and `log_date`, falling back to `logged_at` |
| ExerciseLogService.VolumeWithoutReps | src/services/exerciseLogService.ts:186-187 | no reps or no weight gives zero volume |
| ExerciseLogService.PointValue | src/services/exerciseLogService.ts:179-188 | the weight metric plots the weight, 0 when missing; the sets metric plots the completed sets; the volume metric plots weight times the reps total; without a weight only the sets metric is non-zero |
| ExerciseLogService.Decimals | src/services/exerciseLogService.ts:186 | decimal renderings of naturals, one per number |
| ExerciseLogService.RepsTotalOfJoined | src/services/exerciseLogService.ts:186 | the reps text of naturals joined by ',' totals their sum |
| ExerciseLogService.SumOfNatStrings | src/services/exerciseLogService.ts:186 | `parseInt` of each rendering sums to the sum of the numbers |
| WorkoutLogModal.DefaultReps | src/components/WorkoutLogModal.tsx:60 | the default reps are never empty and contain no '-': the text before the first '-' of the target when that is not empty, else '10' |
| WorkoutLogModal.DefaultRepsOfPlain | src/components/WorkoutLogModal.tsx:60 | a non-empty target without '-' is its own default |
| WorkoutLogModal.ArrayLength | src/components/WorkoutLogModal.tsx:61 | `Array.from({ length })` gives no sets for a negative count and otherwise exactly that many |
| WorkoutLogModal.InitialEntry | src/components/WorkoutLogModal.tsx:60-69 | the entry has the exercise's movement and exactly `exercise.sets` sets, each with the default reps and an empty weight |
| WorkoutLogModal.InitialKeys | src/components/WorkoutLogModal.tsx:58-70 | the initial map has an entry exactly for the ids of the exercises |
| WorkoutLogModal.InitialValues | src/components/WorkoutLogModal.tsx:65-69 | the entry of an id is built from the last exercise with that id |
| WorkoutLogModal.InitialEntriesDistinct | src/components/WorkoutLogModal.tsx:58-70 | with distinct ids, one entry per exercise, each built from its exercise |
| WorkoutLogModal.DistinctIds | src/components/WorkoutLogModal.tsx:59 | distinct ids number as many as the exercises |
| WorkoutLogModal.ExercisesLoaded | src/components/WorkoutLogModal.tsx:56-73 | the map is filled only when exercises are loaded and non-empty and the map is empty; otherwise it is kept |
| WorkoutLogModal.VisibilityChanged | src/components/WorkoutLogModal.tsx:76-80 | closing the modal empties the map; otherwise it is kept |
| WorkoutLogModal.UpdateSetEntry | src/components/WorkoutLogModal.tsx:86-97 | an unknown exercise leaves the map unchanged; otherwise only the named field of that one set of that exercise changes |
| WorkoutLogModal.UpdateWithSameValue | src/components/WorkoutLogModal.tsx:86-97 | writing a field's own value gives the map back |
| WorkoutLogModal.UpdateTwice | src/components/WorkoutLogModal.tsx:86-97 | of two writes to the same field of the same set, the second wins |
| WorkoutLogModal.NextSet | src/components/WorkoutLogModal.tsx:105-109 | the new set copies the last set's reps ('10' when there are none or they are empty) and its weight ('' when there is no set) |
| WorkoutLogModal.AddSet | src/components/WorkoutLogModal.tsx:99-113 | an unknown exercise changes nothing; otherwise one set is appended to that exercise and everything else is kept |
| WorkoutLogModal.RemoveSet | src/components/WorkoutLogModal.tsx:115-125 | nothing changes for an unknown exercise or a list of at most one set; otherwise exactly the set at `setIndex` is dropped; a non-empty list stays non-empty |
| WorkoutLogModal.AddThenRemove | src/components/WorkoutLogModal.tsx:99-125 | removing the set just added gives the map back |
| WorkoutLogModal.EditsKeepSets | src/components/WorkoutLogModal.tsx:86-125 | when every exercise has a set, the three edits keep it so |
| WorkoutLogModal.InitialEntriesHaveSets | src/components/WorkoutLogModal.tsx:58-70 | exercises planned with at least one set start with non-empty lists |
| WorkoutLogModal.LastIndexOf | src/components/WorkoutLogModal.tsx:65 | every exercise has a last exercise with its id at or after it |
| WorkoutLogModal.RepsValues | src/components/WorkoutLogModal.tsx:139 | one reps value per set, '0' for an empty field |
| WorkoutLogModal.AverageWeight | src/components/WorkoutLogModal.tsx:141-148 | no sets give no weight, and a weight written is never zero |
| WorkoutLogModal.SavePayload | src/components/WorkoutLogModal.tsx:143-151 | the payload names the movement and schedule, reports as many sets as the entry has and the reps joined by ',', with no duration and no rating |
| WorkoutLogModal.SavePayloads | src/components/WorkoutLogModal.tsx:134-152 | at most one write per exercise |
| WorkoutLogModal.SavePayloadsPrefix | src/components/WorkoutLogModal.tsx:134-152 | the writes for the first exercises are a prefix of the writes for all of them, so a write that fails cuts the list short |
| WorkoutLogModal.SavePayloadsAll | src/components/WorkoutLogModal.tsx:134-152 | when every exercise has an entry, one write per exercise, in order |
| WorkoutLogModal.SavePayloadsNone | src/components/WorkoutLogModal.tsx:135-136 | exercises without an entry are skipped |
| WorkoutLogModal.HandleSave | src/components/WorkoutLogModal.tsx:127-160 | nothing is written and nothing completes without exercises; otherwise the writes are the payloads of the exercises with an entry, in order, and `onComplete` runs exactly when no write fails; a failing write is the last one attempted |
| WorkoutLogModal.SetsNote | src/components/WorkoutLogModal.tsx:149 | the note starts with 'Setler: ', is just that without sets, and for one set is followed by that set's line |
| WorkoutLogModal.RepsText | src/components/WorkoutLogModal.tsx:139-147 | no sets give an empty text; when no reps field holds ',', the saved reps text splits back into the sets' reps, '0' for an empty field |
| WorkoutLogModal.SavedRepsTotal | src/components/WorkoutLogModal.tsx:147 | saved decimal reps total their sum when the chart reads them back |
| AuthService.Binding | src/services/authService.ts:103-104 | a kept piece binds a non-empty key, the text before the piece's first '=', to a non-empty value, the text from there up to the next '=' or the end |
| AuthService.BindingOfPair | src/services/authService.ts:103-105 | `key=value` with both sides non-empty and free of '=' is read back as that binding |
| AuthService.BindingWithTail | src/services/authService.ts:103 | anything after a second '=' is ignored, so with `Binding`'s contract a piece binds `key` to `value` exactly when it reads `key=value` optionally followed by '=…' |
| AuthService.ProcessPart | src/services/authService.ts:101-108 | the `forEach` over the '&' pieces computes the fold of the pieces, in order, into the map |
| AuthService.AbsorbAllKeys | src/services/authService.ts:101-108 | folding pieces into the map keeps every key already there and adds only non-empty keys without '=' |
| AuthService.ParamsOfKeys | src/services/authService.ts:94-113 | every key of the returned object is non-empty and holds no '=' |
| AuthService.ExtractParams | src/services/authService.ts:94-114 | the result is the query pieces then the fragment pieces folded into an empty map, each part only when present and non-empty |
| AuthService.LastPieceWins | src/services/authService.ts:102-106 | within a part the last piece binding a key decides its decoded value |
| AuthService.UnboundKept | src/services/authService.ts:102-106 | a key no piece binds keeps what it had before |
| AuthService.FragmentWins | src/services/authService.ts:110-111 | a key bound in the fragment takes the fragment's last value for it, whatever the query says |
| AuthService.QueryValue | src/services/authService.ts:110-111 | a key bound only in the query takes the query's last value for it |
| AuthService.Unbound | src/services/authService.ts:94-114 | a key bound nowhere is absent |
| AuthService.NoDelimiters | src/services/authService.ts:98-113 | a URL with neither '?' nor '#' gives an empty map |
| AuthService.PartsLocated | src/services/authService.ts:98-99 | the query part is the text after the first '?' up to the next '?' or the end (a '#' tail included); the fragment likewise for '#' |
| AuthService.ChooseFlow | src/services/authService.ts:72-89 | the code is exchanged exactly when a code is present; the tokens are set exactly when there is no code and both tokens are present; otherwise neither |
| AuthService.QueryOnly | src/services/authService.ts:98-99 | `base?query` without other delimiters has that query and no fragment |
| AuthService.FragmentOnly | src/services/authService.ts:98-99 | `base#fragment` without other delimiters has that fragment and no query |
| AuthService.OnePiece | src/services/authService.ts:102-106 | a single `key=value` part stores exactly that binding |
| AuthService.TwoPieces | src/services/authService.ts:102-106 | two `key=value` pieces store both bindings |
| AuthService.CodeRedirect | src/services/authService.ts:72-76 | a redirect `base?code=C` leads to exchanging the decoded code |
| AuthService.TokenRedirect | src/services/authService.ts:79-86 | a redirect `base#access_token=A&refresh_token=R` leads to setting the session with both decoded tokens |
| AuthService.SignInWithGoogle | src/services/authService.ts:41-90 | each failure, in order (provider error, no URL, browser not successful, exchange or session error, neither code nor tokens), gives its error, the exchange's and the session call's errors carried as they are; success exactly when the chosen flow's remote call succeeds, and the flow is the one chosen from the returned URL |
| AuthService.SignOut | src/services/authService.ts:117-125 | sign-out succeeds exactly without an error or with `AuthSessionMissingError`; any other error is rethrown as it is |
| MonthlyCalendar.BuildGrid | src/components/MonthlyCalendarModal.tsx:60-72 | the `while` loop pushes exactly one cell per day from the calendar start to the calendar end, in order |
| MonthlyCalendar.WeekSpan | src/components/MonthlyCalendarModal.tsx:50-51 | from the Monday on or before a month's first day to the Sunday on or after its last day lie whole weeks, four to six of them |
| MonthlyCalendar.GridShape | src/components/MonthlyCalendarModal.tsx:48-72 | the grid holds 28 to 42 cells in whole weeks, starts on the Monday on or before the first of the month and ends on the Sunday on or after its last day |
| MonthlyCalendar.GridCells | src/components/MonthlyCalendarModal.tsx:62-70 | cell `i` is the `i`-th day from the start, no day appears twice, a cell is in the month and today exactly when its day is, and shows the first history entry of its day |
| MonthlyCalendar.MonthCovered | src/components/MonthlyCalendarModal.tsx:48-72 | every day of the displayed month has its cell, marked as in the month |
| MonthlyCalendar.ChunkWeeks | src/components/MonthlyCalendarModal.tsx:75-78 | the weeks are the consecutive slices of seven (the last possibly shorter), one per started week, each non-empty, all full for a whole number of weeks, and together they give the days back in order |
| MonthlyCalendar.Navigate | src/components/MonthlyCalendarModal.tsx:43-45 | the previous and next buttons move one month back or forward across year boundaries; the today button shows today's month |
| MonthlyCalendar.ForwardBack | src/components/MonthlyCalendarModal.tsx:43-44 | next then previous, or previous then next, shows the same month again |
| WorkoutHistory.FirstIndex | src/components/MonthlyCalendarModal.tsx:63 | the position found is that of the first history day with the date, or the length when none has it |
| WorkoutHistory.FindWorkoutMeaning | src/components/MonthlyCalendarModal.tsx:63 | `find` gives nothing exactly when no day has the date, and otherwise the first day that has it |
| WorkoutHistory.CountStatus | src/components/MonthlyCalendarModal.tsx:81-82 | the count never exceeds the number of days and is 0 exactly when no day has the status |
| WorkoutHistory.DoneAndSkippedBounded | src/components/MonthlyCalendarModal.tsx:81-83 | the completed and skipped counts together never exceed the total |
| WorkoutHistory.StatusCountsPartition | src/components/MonthlyCalendarModal.tsx:81-83 | the done, skipped and pending counts add up to the total |
| WeeklyStreak.StripDayAt | src/components/WeeklyStreak.tsx:21-34 | entry `i` is day `i` of the week from Monday with the `i`-th label, today exactly when it is today, past exactly when it is before today, and carries its history entry's status and count or none and zero |
| WeeklyStreak.Strip | src/components/WeeklyStreak.tsx:20 | the strip has seven entries |
| WeeklyStreak.StripIsWeek | src/components/WeeklyStreak.tsx:13-35 | the strip is the seven consecutive days of today's week, Monday first, labelled in order, with today at its weekday and nowhere else |
| WeeklyStreak.PastOrToday | src/components/WeeklyStreak.tsx:30-31 | no entry is both today and past; the entries before today's weekday are exactly the past ones |
| WeeklyStreak.CompletedCount | src/components/WeeklyStreak.tsx:38 | the count never exceeds the number of days and is 0 exactly when no day is done |
| WeeklyStreak.CompletedCountMeaning | src/components/WeeklyStreak.tsx:38 | the completed count is the number of entries whose status is done |
| WeeklyStreak.CompletedAtMostSeven | src/components/WeeklyStreak.tsx:38 | the completed count of a strip is at most seven |
| ProgramBuilderScreen.BuildExercise | app/program-builder.tsx:78-86 | the exercise carries the selection, `Number` of the sets, the reps text, a rest only for a non-empty rest field, and the trimmed note only when it is not blank |
| ProgramBuilderScreen.BuiltNoteTrimmed | app/program-builder.tsx:85 | a kept note is non-empty with no white space at either end |
| ProgramBuilderScreen.SaveRefusal | app/program-builder.tsx:97-105 | the draft is refused for a missing title or no days first, then for no workout with an exercise, and otherwise accepted |
| ProgramBuilderScreen.ResetIsRefused | app/program-builder.tsx:97-100 | a reset draft is refused for its missing title |
| ProgramBuilderScreen.AddingMakesSendable | app/program-builder.tsx:88-105 | a titled draft with a day becomes sendable once an exercise is added |
| ProgramBuilderScreen.Screen.constructor | app/program-builder.tsx:58-64 | the screen starts with no picker day, no selection and the default form over the store's draft |
| ProgramBuilderScreen.Screen.HandleAddExercise | app/program-builder.tsx:66-71 | the picker opens for the day with the selection cleared; the form and the draft are unchanged |
| ProgramBuilderScreen.Screen.SelectMovement | app/program-builder.tsx:237-241 | the picked movement's id, name and image become the selection; nothing else changes |
| ProgramBuilderScreen.Screen.HandleSaveExercise | app/program-builder.tsx:73-94 | without a picker day or a movement nothing changes; otherwise the built exercise is added to the picker's day and the picker, selection and form are cleared |
| ProgramBuilderScreen.Screen.HandleProgramSave | app/program-builder.tsx:96-121 | nothing is sent exactly when the draft is refused, with the refusal shown; otherwise the draft's title, focus, days and workouts are sent, a failure shows its message or the default one and keeps the draft, success resets it |
| Theme.ThemesShareScales | src/theme.tsx:7-95 | both themes use the same radii, spacing and typography and differ in their colours |
| Theme.InitialMode | src/theme.tsx:113 | the first mode is dark exactly when the device reports dark |
| Theme.ResolveStored | src/theme.tsx:115-127 | a stored 'light' or 'dark' is adopted; otherwise a dark device sets dark; otherwise the mode stays |
| Theme.PersistedModeRestored | src/theme.tsx:118-133 | the name the mode is saved under restores that mode, whatever the device says |
| Theme.UnknownStoredKeepsDark | src/theme.tsx:118-122 | any stored value but 'light' leaves a dark mode dark |
| Theme.ToggleMode | src/theme.tsx:135-137 | toggling always changes the mode |
| Theme.ToggleTwice | src/theme.tsx:135-137 | toggling twice gives the mode back |
| Theme.ContextOf | src/theme.tsx:139-148 | the context has the mode, is dark exactly in dark mode, and carries the dark theme exactly in dark mode and the light theme exactly in light mode |
| MovementService.Select | src/services/movementService.ts:17-34 | the rows returned are exactly the table rows passing every condition, never more than the table |
| MovementService.QueryFilters | src/services/movementService.ts:22-32 | the conditions added select a movement exactly when its name contains the given search ignoring case, and it has the given category and equipment, each only when that parameter is non-empty |
| MovementService.FetchMovements | src/services/movementService.ts:16-42 | a query error is thrown and nothing is cached; otherwise the rows matching the parameters are returned and written to the cache |
| MovementService.NoParamsSelectsAll | src/services/movementService.ts:16-20 | without parameters the whole table is returned in its order |
| MovementService.ListOrCache | src/services/movementService.ts:47-56 | a successful fetch is returned; a failed one returns the cached list when there is one and otherwise rethrows its error |
| MovementService.FallbackServesLastFetch | src/services/movementService.ts:36-56 | after any run of fetches containing a success, the cache holds exactly the rows of the last successful fetch, and a failing fetch returns those rows |
| MovementService.CacheAfter | src/services/movementService.ts:36-56 | the cache after a run of fetches is empty only when it started empty and every fetch failed |
| MovementService.CustomMovementRow | src/services/movementService.ts:74-82 | the inserted row carries the payload's fields and is marked custom |
| MovementService.CategoryIndex | src/services/movementService.ts:105 | the position found is that of the first category with the id, or the length when none has it |
| MovementService.CategoryLabel | src/services/movementService.ts:104-106 | the label is that of the category with the id, and 'Genel' exactly when no category has it |
| MovementService.CategoryIdsDistinct | src/constants/movements.ts:20-26 | no two categories share an id and none is named 'Genel', so the label is unambiguous |
| MovementService.CategoryLabelOfEach | src/services/movementService.ts:104-106 | every category's own id reads as its name, and a missing id reads 'Genel' |
| SessionProvider.Normalize | src/state/SessionProvider.tsx:122-135 | every column is kept, missing training days become an empty list, and the profile counts as onboarded exactly when the stored flag is true |
| SessionProvider.NewProfilePayload | src/state/SessionProvider.tsx:99-108 | the created row has the user's id and e-mail, is not onboarded, has no days and UTC time; it is named 'Kullanıcı' without an e-mail, else the text of the e-mail up to its first '@' |
| SessionProvider.DisplayNameIsLocalPart | src/state/SessionProvider.tsx:103 | for `local@domain` the created row is named `local` |
| SessionProvider.Provider.constructor | src/state/SessionProvider.tsx:31-35 | the provider starts without a session or profile, the session loading, the profile not, no user recorded |
| SessionProvider.Provider.IsLoading | src/state/SessionProvider.tsx:162 | the provider is loading exactly when the session or the profile is |
| SessionProvider.Provider.InitialSession | src/state/SessionProvider.tsx:37-57 | a session read without error replaces the session, an error keeps it; either way the session is no longer loading |
| SessionProvider.Provider.AuthStateChanged | src/state/SessionProvider.tsx:59-66 | the session becomes the new one; signing out also clears the profile and the recorded user |
| SessionProvider.Provider.StartLoad | src/state/SessionProvider.tsx:74-81 | a fetch is issued exactly when the user is not the one recorded; then the user is recorded and the profile is loading, otherwise nothing changes |
| SessionProvider.Provider.CompleteLoad | src/state/SessionProvider.tsx:83-137 | the profile becomes the load's outcome: none after a fetch error, the normalised row when found, and for a missing row the normalised created row, or none when creating it fails; loading ends |
| SessionProvider.LoadOutcome | src/state/SessionProvider.tsx:89-135 | the profile a load ends with: none after a fetch error, the normalised row when found, the normalised created row when none was found, and none when creating it fails |
| SessionProvider.Provider.LoadProfile | src/state/SessionProvider.tsx:74-138 | loading the recorded user again changes nothing; otherwise the user is recorded, loading ends and the profile is the load's outcome, including the row created for a user without one |
| SessionProvider.Provider.SessionEffect | src/state/SessionProvider.tsx:141-148 | with a session for the recorded user nothing changes; with a session for another user that user is recorded, loading ends and the profile is the load's outcome; without one the profile is cleared |
| SessionProvider.Provider.RefreshProfile | src/state/SessionProvider.tsx:151-156 | with a session the fetch is always issued again, even for the recorded user, and the profile is the load's outcome, including a created row; without one nothing changes |
| SessionProvider.FailedLoadNotRetried | src/state/SessionProvider.tsx:76-95 | after a failed fetch for a new user, loading that user again leaves the profile missing whatever the backend now returns |
| LaunchRoute.Destination | app/index.tsx:11-27 | the screen waits exactly while loading, goes to sign-in exactly without a session, to onboarding exactly with a session and no onboarded profile, and to today's tab otherwise |
| LaunchRoute.ProviderDestination | app/index.tsx:8-27 | the redirect is decided from the provider's combined loading flag, its session and its profile |
| LaunchRoute.StoredFlagDecides | app/index.tsx:21-26 | a signed-in user with a loaded profile reaches today's tab exactly when the stored flag is true; a null flag sends them to onboarding |
| LaunchRoute.CreatedProfileOnboards | app/index.tsx:21-24 | a user whose profile was just created goes to onboarding |
| LaunchRoute.SignedOutGoesToAuth | app/index.tsx:16-19 | after sign-out the session and profile are gone and, once loading ends, the screen sends the user to sign-in |
| DayNumbers.StartOfWeek | src/components/MonthlyCalendarModal.tsx:50 | the start of the week is the Monday on or before the day, less than a week before it |
| DayNumbers.EndOfWeek | src/components/MonthlyCalendarModal.tsx:51 | the end of the week is the Sunday on or after the day, less than a week after it |
| DayNumbers.MonthLength | src/components/MonthlyCalendarModal.tsx:49 | a month has 28 to 31 days |
| DayNumbers.LastDayOfMonth | src/components/MonthlyCalendarModal.tsx:49 | a month's last day is at least 27 days after its first |
| DayNumbers.NextMonth | src/components/MonthlyCalendarModal.tsx:44 | `addMonths(…, 1)` moves to the following month, across a year end too |
| DayNumbers.PrevMonth | src/components/MonthlyCalendarModal.tsx:43 | `subMonths(…, 1)` moves to the preceding month, across a year start too |
| DayNumbers.NextPrevInverse | src/components/MonthlyCalendarModal.tsx:43-44 | the next and previous month are inverse to each other |
| DayNumbers.YearLength | src/components/MonthlyCalendarModal.tsx:48-49 | Gregorian leap years have 366 days and the others 365 |
| DayNumbers.MonthsTile | src/components/MonthlyCalendarModal.tsx:48-49 | the day after a month's last day is the next month's first day |
| DayNumbers.DayOf | src/components/MonthlyCalendarModal.tsx:67 | a civil date's day lies in its month |
| DayNumbers.EpochIsMonday | src/components/MonthlyCalendarModal.tsx:50 | day 0 is 1 January 2001, a Monday |
| Strings.Split | src/services/authService.ts:98-103 | `split` on one character gives at least one piece and no piece holds the separator |
| Strings.JoinSplit | src/services/authService.ts:98-103 | joining the pieces with the separator gives the text back |
| Strings.SplitJoin | src/services/authService.ts:98-103 | splitting pieces free of the separator after joining them gives the pieces back |
| Strings.SplitPrefix | src/services/authService.ts:103 | text with no separator in front only extends the first piece |
| Strings.NoSeparatorOnePiece | src/services/authService.ts:98-99 | text without the separator is one piece |
| Strings.FirstPiece | src/state/SessionProvider.tsx:103 | the first piece is the text before the first separator |
| Strings.AfterFirstPiece | src/services/authService.ts:98-99 | with two pieces or more, the rest are the pieces of the text after the first separator |
| Strings.SecondPiece | src/services/authService.ts:98-99 | the second piece is the text after the first separator up to the next one or the end |
| Strings.TrimStart | src/services/friendService.ts:12 | removes exactly the leading white space |
| Strings.TrimEnd | src/services/friendService.ts:12 | removes exactly the trailing white space |
| Strings.TrimIsTrimmed | src/services/friendService.ts:12 | the result has no white space at either end and trimming again changes nothing |
| Strings.TrimIsSlice | src/services/friendService.ts:12 | the result is a slice of the text |
| Strings.ToUpper | src/services/friendService.ts:12 | upper-casing keeps the length, maps each character and leaves no lower-case letter |
| Strings.ToUpperOfNoLower | src/services/friendService.ts:12 | text without lower-case letters is left as it is |
| Strings.TrimKeepsNoLower | src/services/friendService.ts:12 | trimming brings in no lower-case letter |
| Strings.DigitPrefix | src/services/exerciseLogService.ts:186 | the digits read are the longest run of digits at the start |
| Strings.NatToString | src/components/WorkoutLogModal.tsx:149 | a rendered natural is a non-empty run of decimal digits |
| Strings.DigitsOfNatToString | src/services/exerciseLogService.ts:186 | the rendered digits have the natural's value |
| Strings.ParseIntOfDecimal | src/services/exerciseLogService.ts:186 | `parseInt` of a non-empty decimal digit string is the number it writes |
| Strings.ParseIntNatToString | src/services/exerciseLogService.ts:186 | `parseInt` reads back a rendered natural |
| Common.DropIndex | src/state/programBuilderStore.ts:71 | dropping an index inside the sequence removes one element; one outside changes nothing |
| Common.DropIndexIsSplice | src/state/programBuilderStore.ts:71 | dropping an index inside the sequence leaves the elements before it followed by those after it |
| Common.DropAppended | src/state/programBuilderStore.ts:71 | dropping the element just appended gives the sequence back |

## Left out

- The Supabase client and the network are not modelled. The answers the code branches on are parameters for the sign-in flow, the session provider's fetch and upsert, `createProgramWithWorkouts`, `addExerciseToWorkout`, `searchUserByCode`, the writes of the social operations, the three queries of `fetchFriendsTodayWorkouts`, `createExerciseLog`, the movement query and the log dialog's writes.
- Backend errors that the code reads as "no row" are not separate parameters. The receiver lookup of `sendFriendRequest` reports a failed query as 'Kullanıcı bulunamadı', as for a missing profile. Its friendship and pending checks, and the friendship check of `acceptFriendRequest`, ignore a query error and go on as if nothing matched. The model has these queries always succeed.
- `fetchIncomingRequests`, `fetchOutgoingRequests`, `fetchFriendships` and `fetchIncomingWorkoutInvites` are not modelled. They are list reads that rethrow their query error and attach each row's profile, with no logic of their own.
- Database-side guarantees are not modelled: unique-key errors, row ordering beyond the orderings the code relies on, and the trigger that deletes the reverse friendship. `removeFriend` deletes only the user's own edge, as written.
- React rendering, styles, modals, navigation animation, React Query caching, invalidation and retry are not modelled. These are presentation and library behaviour.
- Clocks and time zones are not modelled: `new Date()`, the UTC `toISOString` dates against local `format` dates, and `toLocaleDateString` labels. Today is a parameter, and every date is an abstract day number.
- The text shown for a day (`format(date, 'd')`) and the month header are not modelled. They are display strings.
- `decodeURIComponent` is an uninterpreted parameter. The `URIError` it throws for a malformed escape is not modelled.
- `toUpperCase` and `trim` cover ASCII only. Unicode case mapping and Unicode white space are not modelled.
- `ilike` `%` and `_` wildcards inside the search text are not modelled. A search matches as a plain case-insensitive substring.
- `Number` and `parseFloat` are uninterpreted parameters, so `NaN` and fractional inputs keep whatever value the caller gives them. `parseInt` is written out for the inputs the code passes it.
- Floating-point rounding is not modelled: weights and means are exact reals. The display maths of the progress chart and the average weight of the log dialog are not modelled.
- The upserted exercise-log row treats a missing optional field like `null`. The backend would keep the old column instead.
- `AuthService.Binding`: its contract says where a binding comes from. That a piece with an empty key or value, or with no '=', binds nothing is stated only through `BindingWithTail` and `BindingOfPair`, not as a converse clause.
- `MovementService.Select`: its contract states which rows are kept, not that the table order is preserved. `NoParamsSelectsAll` states the order for the unfiltered query.
- `WorkoutLogModal.UpdateSetEntry`: requires the set index to lie inside the exercise's set list, since the form only edits rendered sets. A write past the end, which grows a sparse JavaScript array, is not modelled.
- Asynchronous interleavings are not modelled. This covers the session provider's effects, the auth listener firing during a load, and unmounting during `getSession`. Each load is one start step followed by one completion step.
- The AsyncStorage reads and writes of the theme and of the movement cache are not modelled. The stored preference and the cached list are parameters. The "could not read" warnings change no state.
- `signInWithEmail`, `signUpWithEmail` and the other services are not modelled. They are single remote calls without logic of their own. The health bridge is not part of this model.
- `WorkoutDay` and `useMonthlyWorkoutHistory`, which both components import from src/services/scheduleService.ts, are not part of this model. That file defines neither. The model assumes that a history entry has a date, a status and a workout count, which are the fields the components read.
