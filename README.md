# Fitness tracker — a verified model of its logic

The fitness tracker is a React client over a Flask/SQLAlchemy REST API. Users log
workouts made of exercises, browse an exercise library and workout templates,
and follow a template in a guided session that times each exercise and the
rest after it. This project models the logic of both halves in Dafny. Records
are datatypes, collections are sequences and maps, and there is no HTTP and no
database.

- `workout_session.dfy`: the guided session state machine. Its React state is
  the fields of class `Session`, and each handler and the one-second timer tick
  is a method. Every method is proved against a pure transition (`Step` and its
  cases). Lemmas about whole runs of actions use those transitions.
- `workout_templates.dfy`, `exercises_page.dfy`, `workouts_page.dfy`: the
  client-side filter chains and searches. Each conditional reassignment of
  `filtered` is proved equal to the filter by the conjunction of the active
  criteria.
- `create_workout.dfy`: the workout form. It covers the entry list with its
  append, remove and per-field edit, and the JSON payload built on submit.
- `add_exercise_modal.dfy`: the muscle-group toggle, the ordered validation of
  `handleSubmit`, and the hand-over to the parent's callback.
- `dashboard.dfy`, `template_card.dfy`: the dashboard statistics and what a
  template card shows.
- `models.dfy`: the rows, their column defaults and the `to_dict`
  dictionaries, including how comma-separated columns become lists.
- `routes.dfy`: the handlers of `server/routes.py` over class `Store`, whose
  fields are the tables and their next free keys. A failed request leaves the
  store as it was.
- `text.dfy`, `seqs.dfy`, `wrappers.dfy`: the string and sequence operations
  both halves rely on:
  - `toLowerCase`, `trim`, `includes`, `padStart`, `parseInt` and
    number-to-text;
  - Python's `split(',')` and `','.join`;
  - `filter` and the subsequence relation;
  - `Option`.

Clocks are parameters: `now` stands for `Date.now()` and `today` for
`date.today()` / `datetime.utcnow().date()`. The password hash is a function
parameter, and the outcomes of server calls made by the client are parameters
too.

## Model

| member | source | states |
|---|---|---|
| WorkoutSession.Session.Tick | frontend/src/pages/WorkoutSession.js:37-60 | a tick while paused changes nothing; while exercising `exerciseTime` grows by exactly 1; while resting `restTime` drops by 1 above 1, and at 1 or below becomes 0 with resting over; the index and the completed set never change |
| WorkoutSession.Session.StartWorkout | frontend/src/pages/WorkoutSession.js:71-76 | running afterwards; the start time is recorded only when none (or 0) was recorded |
| WorkoutSession.Session.PauseWorkout | frontend/src/pages/WorkoutSession.js:78-80 | only `isRunning` changes, to false |
| WorkoutSession.Session.StopWorkout | frontend/src/pages/WorkoutSession.js:82-89 | not running, both timers 0, not resting; index and completed set kept |
| WorkoutSession.Session.CompleteCurrentExercise | frontend/src/pages/WorkoutSession.js:91-107 | the current index joins the completed set; before the last exercise rest starts with `rest_seconds`, or 60 when it is missing or 0, and the exercise timer resets; on the last exercise the timer stops without rest; nothing at all without exercises; the index never moves |
| WorkoutSession.Session.SkipToNextExercise | frontend/src/pages/WorkoutSession.js:109-116 | below the last index it advances exactly one and resets both timers and resting; otherwise nothing changes |
| WorkoutSession.Session.SkipRest | frontend/src/pages/WorkoutSession.js:118-122 | rest cleared, then the same advance as skipping |
| WorkoutSession.Session.IsWorkoutComplete | frontend/src/pages/WorkoutSession.js:69 | complete exactly when every exercise index is in the completed set |
| WorkoutSession.Step | frontend/src/pages/WorkoutSession.js:37-122 | every action keeps the index in range and the completed set within range, never removes a completed exercise, and moves the index by at most one, only through a skip |
| WorkoutSession.RunInvariant | frontend/src/pages/WorkoutSession.js:15-20 | along any run of actions: state well formed, completed set only grows, index never decreases |
| WorkoutSession.CompleteMeansAllDone | frontend/src/pages/WorkoutSession.js:69 | with indices in range, "as many completed as exercises" is equivalent to "every index completed" |
| WorkoutSession.RestRunsOut | frontend/src/pages/WorkoutSession.js:41-49 | a rest of k seconds ends after k ticks with the timer at 0, on the same exercise with the same completed set |
| WorkoutSession.NoSkipStaysPut | frontend/src/pages/WorkoutSession.js:37-107 | without the skip buttons the index never changes and at most the current exercise gets completed |
| WorkoutSession.GuidedRunStalls | frontend/src/pages/WorkoutSession.js:43-47 | as written, "complete, then wait out the rest" never completes a template of two or more exercises |
| WorkoutSession.GuidedRunCompletes | frontend/src/pages/WorkoutSession.js:118-122 | with rest expiry advancing like "Skip Rest", the same run completes every template |
| WorkoutSession.FormatTime | frontend/src/pages/WorkoutSession.js:62-66 | for 0 to 5999 seconds the text is `mm:ss`, five characters of digits around a colon, `ss` below 60 and `mm*60+ss` equal to the input; longer from 6000 on |
| WorkoutSession.RestAfter | frontend/src/pages/WorkoutSession.js:98 | `rest_seconds`, or 60 when missing or 0; never 0 |
| WorkoutSession.JsRemainder | frontend/src/pages/WorkoutSession.js:64 | JavaScript's truncating `%`: the dividend is a whole multiple of the divisor plus the result; for a non-negative dividend the result lies in `[0, b)`, for a negative one in `(-b, 0]` |
| WorkoutTemplates.FilterTemplates | client/src/pages/WorkoutTemplates.js:39-88 | the chain of conditional reassignments yields exactly the templates the conjunction of the active criteria accepts |
| WorkoutTemplates.ShownMeansMatches | client/src/pages/WorkoutTemplates.js:41-87 | the result is an order-preserving subsequence of the templates, and a template is in it exactly when it passes every active criterion |
| WorkoutTemplates.NoFiltersShowAll | client/src/pages/WorkoutTemplates.js:43-85 | with no search term and no filter the result is all templates |
| WorkoutTemplates.SearchOnly | client/src/pages/WorkoutTemplates.js:43-50 | a non-empty search keeps a template exactly when the lower-cased term occurs in its lower-cased name, description or a target muscle group |
| WorkoutTemplates.DurationOk | client/src/pages/WorkoutTemplates.js:24-28 | quick keeps under 30, medium 30 to 60 inclusive, long over 60; unset or unknown keeps all |
| WorkoutTemplates.FindBucket | client/src/pages/WorkoutTemplates.js:62 | the found bucket is in the table with that value; none is found only when no bucket has it |
| WorkoutTemplates.MuscleFilterNeedsGroups | client/src/pages/WorkoutTemplates.js:78-85 | whatever the other criteria, a set muscle-group filter hides every template without target muscle groups |
| WorkoutTemplates.ActiveFiltersCount | client/src/pages/WorkoutTemplates.js:109-116 | the number of non-empty filters among category, difficulty, duration and muscle group, search not counted; at most 4, and 0 exactly when none is set |
| WorkoutTemplates.TemplatesPage.ClearFilters | client/src/pages/WorkoutTemplates.js:101-107 | all five criteria empty, after which every template is shown |
| ExercisesPage.FilterExercises | frontend/src/pages/Exercises.js:32-55 | the chain yields exactly the exercises that pass every active criterion |
| ExercisesPage.ShownMeansMatches | frontend/src/pages/Exercises.js:34-54 | order-preserving subsequence; an exercise is shown exactly when it passes search, category and difficulty |
| ExercisesPage.OrderOfCriteriaIrrelevant | frontend/src/pages/Exercises.js:34-54 | applying the three criteria in the reverse order shows the same exercises |
| ExercisesPage.NoFiltersShowAll | frontend/src/pages/Exercises.js:36-52 | with nothing set every exercise is shown |
| ExercisesPage.MoreCriteriaShowFewer | frontend/src/pages/Exercises.js:46-52 | an exercise shown under a category or difficulty is also shown without it |
| ExercisesPage.Page.ClearFilters | frontend/src/pages/Exercises.js:68-72 | search, category and difficulty empty, every exercise shown |
| WorkoutsPage.SearchWorkouts | client/src/pages/Workouts.js:25-32 | a workout is kept exactly when the term occurs, ignoring case, in its name or its non-empty description |
| WorkoutsPage.SearchKeepsOrder | client/src/pages/Workouts.js:27-31 | the search result is an order-preserving subsequence |
| WorkoutsPage.EmptySearchShowsAll | client/src/pages/Workouts.js:28 | the empty term keeps every workout |
| WorkoutsPage.WithoutWorkout | client/src/pages/Workouts.js:49 | every workout with that id goes, every other one stays |
| WorkoutsPage.WithoutWorkoutProperties | client/src/pages/Workouts.js:49 | deleting an unknown id changes nothing, deleting twice is deleting once, the rest keep their order |
| WorkoutsPage.Page.DeleteWorkout | client/src/pages/Workouts.js:45-55 | the list changes only after confirmation and a successful call; a failed call alerts and changes nothing |
| CreateWorkout.NewEntry | client/src/pages/CreateWorkout.js:51-61 | the entry carries the exercise's id and name, every input field empty |
| CreateWorkout.WorkoutForm.AddExercise | client/src/pages/CreateWorkout.js:51-64 | exactly one entry appended at the end, earlier entries unchanged, library closed |
| CreateWorkout.RemovedAt | client/src/pages/CreateWorkout.js:66-68 | for a valid index the element there is gone, the length drops by one and the others keep their order; any other index leaves the list as it is |
| CreateWorkout.WorkoutForm.RemoveExercise | client/src/pages/CreateWorkout.js:66-68 | the entry list becomes the list without that index |
| CreateWorkout.SetField | client/src/pages/CreateWorkout.js:72 | the written field holds the value, every other field and the exercise are unchanged |
| CreateWorkout.ChangedAt | client/src/pages/CreateWorkout.js:70-74 | same length, only entry `index` changes and only in that field |
| CreateWorkout.Payload | client/src/pages/CreateWorkout.js:83-91 | one payload element per entry, same order, same `exercise_id` |
| CreateWorkout.WorkoutForm.SubmitPayload | client/src/pages/CreateWorkout.js:80-92 | one payload element per entry of the form, in order, with its exercise id |
| CreateWorkout.EntryPayload | client/src/pages/CreateWorkout.js:84-90 | sets, reps and duration go through `IntField`, weight, distance and notes through `s \|\| null`; so an empty numeric field is null, and weight, distance and notes are null exactly when empty |
| CreateWorkout.IntField | client/src/pages/CreateWorkout.js:85-88 | an empty field is null; a non-empty one carries what `parseInt` reads from its text |
| CreateWorkout.TypedNumberArrives | client/src/pages/CreateWorkout.js:85-88 | a whole number typed into sets, reps or duration reaches the payload as that number (exact in the browser only up to 2^53) |
| CreateWorkout.NewEntryPayloadIsBlank | client/src/pages/CreateWorkout.js:51-61 | a freshly added exercise submits nothing but its id |
| AddExerciseModal.Toggle | client/src/components/AddExerciseModal.js:34-41 | a present group is removed: the result is exactly the list without any copy of it, the rest keeping their order; an absent one is appended at the end |
| AddExerciseModal.Modal.MuscleGroupChange | client/src/components/AddExerciseModal.js:34-41 | only the muscle groups change, by the toggle |
| AddExerciseModal.ToggleTwiceRestores | client/src/components/AddExerciseModal.js:37-39 | toggling an absent group twice gives the original list |
| AddExerciseModal.ToggleKeepsNoDuplicates | client/src/components/AddExerciseModal.js:37-39 | a duplicate-free list stays duplicate-free |
| AddExerciseModal.Validate | client/src/components/AddExerciseModal.js:67-89 | each message exactly when its check is the first to fail, in the order name required, name too short, category required, muscle group required; no message exactly when all hold |
| AddExerciseModal.OptionalFieldsNeverFail | client/src/components/AddExerciseModal.js:66-89 | description, equipment, difficulty and instructions do not affect validation |
| AddExerciseModal.FailureMessage | client/src/components/AddExerciseModal.js:95 | the server's error text when it has one, otherwise "Failed to create exercise" |
| AddExerciseModal.Modal.HandleSubmit | client/src/components/AddExerciseModal.js:61-100 | on a failed check its message is set and the callback is not called; the callback is called exactly when validation passes; success resets and closes; a rejected callback keeps the form and shows the message; `isSubmitting` always ends false |
| AddExerciseModal.Modal.ResetForm | client/src/components/AddExerciseModal.js:43-54 | every field empty, muscle groups `[]`, no error |
| AddExerciseModal.Modal.HandleClose | client/src/components/AddExerciseModal.js:56-59 | the form is reset to empty with no error |
| Dashboard.Recent | frontend/src/pages/Dashboard.js:35 | the first `min(5, n)` workouts in order |
| Dashboard.DashboardStats | frontend/src/pages/Dashboard.js:38-41 | the count is the number of workouts, with the calorie total and rounded average below |
| Dashboard.TotalCaloriesAppend | frontend/src/pages/Dashboard.js:39 | the calorie total of two lists is the sum of their totals |
| Dashboard.TotalCaloriesNonNegative | frontend/src/pages/Dashboard.js:39 | with missing counted as 0, non-negative values give a non-negative total, 0 only when every value is 0 |
| Dashboard.RoundedQuotient | frontend/src/pages/Dashboard.js:41 | `Math.round(total / n)`: the integer q with `n*q - n/2 <= total < n*q + n/2` |
| Dashboard.AvgDuration | frontend/src/pages/Dashboard.js:40-41 | 0 without workouts, otherwise the rounded mean duration, missing durations counted as 0 |
| Dashboard.AvgDurationBetween | frontend/src/pages/Dashboard.js:40-41 | the average lies between the smallest and the largest duration |
| TemplateCard.DifficultyColor | frontend/src/components/WorkoutTemplateCard.js:7-14 | beginner, intermediate and advanced each get their own colour, anything else grey |
| TemplateCard.ShownTags | frontend/src/components/WorkoutTemplateCard.js:72-76 | the first `min(3, n)` groups, trimmed, in order |
| TemplateCard.OverflowBadge | frontend/src/components/WorkoutTemplateCard.js:77-81 | a "+k" badge exactly when there are more than three groups |
| TemplateCard.TagsAndBadgeCoverAll | frontend/src/components/WorkoutTemplateCard.js:72-81 | the shown tags plus the number on the badge equal the number of groups |
| TemplateCard.ExerciseCount | frontend/src/components/WorkoutTemplateCard.js:97 | 0 without an exercise list, otherwise its length |
| TemplateCard.CaloriesLabel | frontend/src/components/WorkoutTemplateCard.js:60 | "N/A" exactly when the calories are missing or 0, otherwise text that reads back as the number |
| Models.CommaList | backend/models.py:59 | `[]` exactly for a NULL or empty column, otherwise comma-free pieces |
| Models.CommaListOfJoin | backend/models.py:59 | reading back `','.join(xs)` gives `xs` for comma-free items, except `[""]`, which reads back as `[]` |
| Models.UserToDict | backend/models.py:22-34 | every profile column copied |
| Models.UserDictHidesPassword | backend/models.py:22-34 | the dictionary never depends on the password hash |
| Models.ExerciseToDict | backend/models.py:53-64 | muscle groups are the comma split of the column (`[]` exactly for a NULL or empty column); id, name, description, category, equipment, difficulty and instructions copied |
| Models.TemplateToDict | backend/models.py:145-159 | both comma columns by the same rule; one exercise entry per related row |
| Models.WorkoutToDict | backend/models.py:82-94 | exactly one entry per related workout-exercise row, in relationship order |
| Models.WorkoutExerciseToDict | backend/models.py:111-125 | `exercise_name` is None exactly when there is no linked exercise |
| Models.TemplateExerciseToDict | backend/models.py:174-188 | name, description and instructions are None when there is no linked exercise and the exercise's otherwise |
| Models.NewWorkoutExercise | backend/models.py:109 | `order_in_workout` defaults to 1 |
| Models.NewTemplateExercise | backend/models.py:167-171 | `order_in_template` defaults to 1 and `rest_seconds` to 60 |
| Models.WorkoutRows | backend/models.py:80 | the rows of the workout: an order-preserving subsequence holding exactly the rows with its id |
| Models.TemplateRows | backend/models.py:143 | the rows of the template: an order-preserving subsequence holding exactly the rows with its id |
| Routes.Store.Register | server/routes.py:10-41 | a missing username gives 500 first; a taken username gives 400 "Username already exists" before the email is read; a missing email gives 500, a taken one 400 "Email already exists"; then a missing password, first_name or last_name gives 500 with that key, in that order; every failure leaves the store unchanged; success adds exactly one user and keeps usernames and emails unique |
| Routes.MergeUser | server/routes.py:72-77 | every absent profile field keeps its value, given ones take the new value; username, email and password never change |
| Routes.Store.UpdateUser | server/routes.py:65-83 | an unknown id gives 500 and no change; otherwise only that user changes, by the merge |
| Routes.WorkoutDate | server/routes.py:118 | the supplied date when non-empty, otherwise today |
| Routes.EntryRow | server/routes.py:129-141 | the i-th (from 0) payload exercise gets `order_in_workout = i + 1` and carries its own exercise, sets, reps, weight, duration, distance, calories and notes |
| Routes.Store.CreateWorkout | server/routes.py:109-148 | a missing user_id, then name, gives 500 with that key; a payload exercise without exercise_id gives 500 "'exercise_id'"; every failure leaves the store unchanged; otherwise one new workout and one row per payload exercise in order, with order i+1 |
| Routes.EntryRows | server/routes.py:128-142 | one row per payload exercise in payload order, the i-th with order i+1 and id `firstId + i`; no rows at all exactly when some payload exercise lacks `exercise_id` |
| Routes.MergeWorkout | server/routes.py:156-163 | absent fields kept; the date changes only for a non-empty one |
| Routes.Store.UpdateWorkout | server/routes.py:150-169 | unknown id gives 500 and no change; otherwise only that workout changes, by the merge |
| Routes.Store.DeleteWorkout | server/routes.py:171-179 | the workout and exactly its rows removed; unknown id gives 500 and no change |
| Routes.ExerciseQuery | server/routes.py:191-200 | the conditional query chain yields the exercises passing category equality, muscle-group substring and difficulty equality, for the arguments that are set, in table order |
| Routes.ExerciseQueryAll | server/routes.py:191-200 | without arguments every exercise is returned |
| Routes.Store.GetExercises | server/routes.py:184-203 | one dictionary per matching exercise, in table order |
| Routes.Store.CreateExercise | server/routes.py:213-234 | the muscle groups are stored comma-joined and read back as the same list when comma-free; missing name or category give 500 and no change |
| Routes.CopiedRow | server/routes.py:289-296 | exercise, sets, reps, duration and order copied from the template row, nothing else set |
| Routes.CopiedRows | server/routes.py:288-297 | one copied row per template exercise, in the template's order, the i-th with id `firstId + i` |
| Routes.Store.StartWorkoutFromTemplate | server/routes.py:265-308 | a missing or falsy user id gives 400 "User ID is required" before the template lookup; an unknown template gives 500; otherwise a workout named like the template with one copied row per template exercise |
| Routes.Pick | server/routes.py:72-77 | `data.get(key, current)`: the current value for an absent key, the given one otherwise |
| Text.ParseIntOfDecimal | client/src/pages/CreateWorkout.js:85 | `parseInt` reads back what number-to-text writes |
| Text.SplitJoin | server/routes.py:222 | splitting a comma-joined non-empty list of comma-free items gives the list back |
| Text.ContainsAt | client/src/pages/Workouts.js:28 | `includes` holds exactly when the term occurs at some position |
| Text.Trim | client/src/components/AddExerciseModal.js:67 | the result is a slice of the text with only whitespace cut from either end; no whitespace at either end, and empty exactly when the text is all whitespace |
| Seqs.FilterThenFilter | frontend/src/pages/Exercises.js:34-54 | filtering twice is filtering by the conjunction |

## Left out

- Timers and clocks: `setInterval`, `Date.now()`, `totalElapsedTime`, the dashboard's this-week count and every `date.today()` call. The tick is a method, and times and dates are parameters.
- Floating point: `parseFloat` of weight and distance, and the progress percentage. The payload carries the non-empty text of those two fields, and server-side floats are only copied.
- CreateWorkout.IntField: `parseInt` yields a double, so a number beyond 2^53 in size is rounded to the nearest representable value before it is sent; the model carries the exact integer. This applies to CreateWorkout.TypedNumberArrives too, which is exact only up to 2^53.
- CreateWorkout.IntField: a text `parseInt` cannot read is NaN, which the JSON body carries as null, so it is `None`. Hexadecimal `0x` prefixes are not modelled, because number inputs never produce them.
- AddExerciseModal.Validate: the trimmed name's length is counted in Unicode scalar values, while JavaScript's `.length` counts UTF-16 code units, so a one-character name outside the Basic Multilingual Plane (an emoji, say) is too short here but passes the length check in the browser.
- Text.ToLower, Text.Trim, Text.IsSpace: ASCII only. JavaScript's Unicode case mapping and whitespace set are not modelled.
- Routes.MuscleGroupOk: SQL `LIKE` wildcards (`%`, `_`) inside the argument are treated as ordinary characters.
- Routes.Store.CreateWorkout: dates are stored as the supplied text, assumed to be well-formed `YYYY-MM-DD`. The 500 that `strptime` raises for a malformed date is not modelled.
- Routes.Store.UpdateWorkout: dates are handled as in CreateWorkout.
- Routes.Store.Register: a JSON `null` or a value of the wrong type for a required column fails only at commit with an integrity error (500). This is not modelled; request values are typed.
- Routes.Store.UpdateUser: JSON `null` and wrongly typed values are treated as in Register.
- Primary keys come from counters that are never reused. SQLite may reuse the largest rowid after a delete.
- Models.WorkoutRows: relationship order is taken to be table order. SQLAlchemy promises no order without `order_by`.
- Routes.Store.GetExercises: result order is taken to be table order, although `query.all()` without `order_by` promises none.
- Models.TemplateRows: relationship order is treated the same way.
- `created_at` timestamps and the `isoformat` of dates.
- Password hashing and checking (werkzeug): the hash is a parameter. `login`, `get_user`, `get_workouts`, `get_workout`, `get_exercise`, `get_workout_templates` and `get_workout_template` are plain lookups and are not modelled.
- Flask, SQLAlchemy sessions, `flush` and `commit`, and the axios client. A failed request leaves the store unchanged, which stands for the rollback of the request's session.
- `create_workout` does not check that the user exists, and neither does the model.
- React rendering, navigation, `alert` and `window.confirm`. The confirmation is a parameter of `WorkoutsPage.Page.DeleteWorkout`.
- The equipment line of the template card (`join(', ') || 'None'`) and the category icon, which are rendering only.
- `handleExerciseChange` writes into an entry object shared between the old and new list (a shallow copy). The model uses values, so that aliasing is not captured; the resulting list is the same.
- Fetching (`fetchTemplates`, `fetchExercises`, `fetchWorkouts`): the lists are constructor parameters.
- The seed scripts, whose only logic is the `rest_seconds` default of 60, which `Models.NewTemplateExercise` already covers.

## Findings

| source | as written | input that shows it | evidently intended | confidence | as-written member | corrected member |
|---|---|---|---|---|---|---|
| frontend/src/pages/WorkoutSession.js:43-47 | when the rest countdown reaches 0, resting ends but `currentExerciseIndex` stays on the exercise just completed. A user who completes each exercise and waits out each rest keeps re-completing the first exercise and never finishes. | a template with two exercises: start, complete, then 60 ticks; the session is back on exercise 0, and completing again leaves one of two exercises done | rest expiry moves on to the next exercise, as "Skip Rest" does | not executed | WorkoutSession.GuidedRunStalls | WorkoutSession.GuidedRunCompletes |
