/** The database rows of the backend (backend/models.py) and the JSON
    dictionaries their `to_dict` methods produce, which are also the records the
    browser client works on.  SQL `NULL` / Python `None` is `None`; list-valued
    attributes are stored as one comma-separated string.  Floating-point columns
    (weights, heights, distances) are carried as `real` and only ever copied.
    `created_at` timestamps are not modelled. */
module Models {
  import opened Wrappers
  import opened Text
  import opened Seqs

  // ---------------------------------------------------------------------------
  // column defaults

  const DefaultOrderInWorkout: int := 1
  const DefaultOrderInTemplate: int := 1
  const DefaultRestSeconds: int := 60

  /** The value stored for a column with a Python-side default: the ORM leaves a
      `None` attribute out of the INSERT, so the default applies to it as well as
      to an attribute that was never set. */
  function WithDefault(supplied: Option<int>, default: int): (r: int)
    ensures supplied.None? ==> r == default
    ensures supplied.Some? ==> r == supplied.value
  {
    supplied.GetOr(default)
  }

  // ---------------------------------------------------------------------------
  // rows

  datatype UserRow = UserRow(
    id: int, username: string, email: string, passwordHash: string,
    firstName: string, lastName: string,
    age: Option<int>, weight: Option<real>, height: Option<real>, fitnessGoal: Option<string>)

  datatype ExerciseRow = ExerciseRow(
    id: int, name: string, description: Option<string>, category: string,
    muscleGroups: Option<string>, equipment: Option<string>,
    difficultyLevel: Option<string>, instructions: Option<string>)

  datatype WorkoutRow = WorkoutRow(
    id: int, userId: int, name: string, description: Option<string>, date: string,
    durationMinutes: Option<int>, caloriesBurned: Option<int>, notes: Option<string>)

  datatype WorkoutExerciseRow = WorkoutExerciseRow(
    id: int, workoutId: int, exerciseId: int,
    sets: Option<int>, reps: Option<int>, weight: Option<real>,
    durationSeconds: Option<int>, distance: Option<real>,
    caloriesBurned: Option<int>, notes: Option<string>, orderInWorkout: int)

  datatype TemplateRow = TemplateRow(
    id: int, name: string, description: Option<string>, category: string,
    difficultyLevel: string, estimatedDurationMinutes: int,
    estimatedCalories: Option<int>, imageUrl: Option<string>,
    equipmentNeeded: Option<string>, targetMuscleGroups: Option<string>)

  datatype TemplateExerciseRow = TemplateExerciseRow(
    id: int, templateId: int, exerciseId: int, orderInTemplate: int,
    sets: Option<int>, reps: Option<int>, durationSeconds: Option<int>,
    restSeconds: Option<int>, notes: Option<string>)

  /** A `WorkoutExercise(...)` row as inserted, `order_in_workout` defaulting to 1. */
  function NewWorkoutExercise(
    id: int, workoutId: int, exerciseId: int,
    sets: Option<int>, reps: Option<int>, weight: Option<real>,
    durationSeconds: Option<int>, distance: Option<real>,
    caloriesBurned: Option<int>, notes: Option<string>, order: Option<int>): (r: WorkoutExerciseRow)
    ensures r.orderInWorkout == (if order.Some? then order.value else DefaultOrderInWorkout)
    ensures r.id == id && r.workoutId == workoutId && r.exerciseId == exerciseId
    ensures r.sets == sets && r.reps == reps && r.weight == weight && r.durationSeconds == durationSeconds
    ensures r.distance == distance && r.caloriesBurned == caloriesBurned && r.notes == notes
  {
    WorkoutExerciseRow(id, workoutId, exerciseId, sets, reps, weight, durationSeconds, distance,
                       caloriesBurned, notes, WithDefault(order, DefaultOrderInWorkout))
  }

  /** A `WorkoutTemplateExercise(...)` row as inserted: `order_in_template`
      defaults to 1 and `rest_seconds` to 60. */
  function NewTemplateExercise(
    id: int, templateId: int, exerciseId: int, order: Option<int>,
    sets: Option<int>, reps: Option<int>, durationSeconds: Option<int>,
    restSeconds: Option<int>, notes: Option<string>): (r: TemplateExerciseRow)
    ensures r.orderInTemplate == (if order.Some? then order.value else DefaultOrderInTemplate)
    ensures r.restSeconds == Some(if restSeconds.Some? then restSeconds.value else DefaultRestSeconds)
    ensures r.id == id && r.templateId == templateId && r.exerciseId == exerciseId
    ensures r.sets == sets && r.reps == reps && r.durationSeconds == durationSeconds && r.notes == notes
  {
    TemplateExerciseRow(id, templateId, exerciseId, WithDefault(order, DefaultOrderInTemplate),
                        sets, reps, durationSeconds,
                        Some(WithDefault(restSeconds, DefaultRestSeconds)), notes)
  }

  // ---------------------------------------------------------------------------
  // dictionaries (the JSON the API returns)

  datatype UserDict = UserDict(
    id: int, username: string, email: string, firstName: string, lastName: string,
    age: Option<int>, weight: Option<real>, height: Option<real>, fitnessGoal: Option<string>)

  datatype ExerciseDict = ExerciseDict(
    id: int, name: string, description: Option<string>, category: string,
    muscleGroups: seq<string>, equipment: Option<string>,
    difficultyLevel: Option<string>, instructions: Option<string>)

  datatype WorkoutExerciseDict = WorkoutExerciseDict(
    id: int, workoutId: int, exerciseId: int, exerciseName: Option<string>,
    sets: Option<int>, reps: Option<int>, weight: Option<real>,
    durationSeconds: Option<int>, distance: Option<real>,
    caloriesBurned: Option<int>, notes: Option<string>, orderInWorkout: int)

  datatype WorkoutDict = WorkoutDict(
    id: int, userId: int, name: string, description: Option<string>, date: Option<string>,
    durationMinutes: Option<int>, caloriesBurned: Option<int>, notes: Option<string>,
    exercises: seq<WorkoutExerciseDict>)

  datatype TemplateExerciseDict = TemplateExerciseDict(
    id: int, templateId: int, exerciseId: int,
    exerciseName: Option<string>, exerciseDescription: Option<string>,
    exerciseInstructions: Option<string>, orderInTemplate: int,
    sets: Option<int>, reps: Option<int>, durationSeconds: Option<int>,
    restSeconds: Option<int>, notes: Option<string>)

  datatype TemplateDict = TemplateDict(
    id: int, name: string, description: Option<string>, category: string,
    difficultyLevel: string, estimatedDurationMinutes: int,
    estimatedCalories: Option<int>, imageUrl: Option<string>,
    equipmentNeeded: seq<string>, targetMuscleGroups: seq<string>,
    exercises: seq<TemplateExerciseDict>)

  // ---------------------------------------------------------------------------
  // to_dict

  /** A comma-separated column as a list: `s.split(',') if s else []`. */
  function CommaList(s: Option<string>): (r: seq<string>)
    ensures r == [] <==> s.None? || s.value == []
    ensures forall i :: 0 <= i < |r| ==> ',' !in r[i]
  {
    if s.None? || s.value == [] then [] else Split(s.value, ',')
  }

  /** Storing `','.join(xs)` and reading it back with `CommaList` gives `xs`
      again, for every list whose items hold no comma, except `[""]`, whose
      join is the empty string and reads back as `[]`. */
  lemma CommaListOfJoin(xs: seq<string>)
    requires forall i :: 0 <= i < |xs| ==> ',' !in xs[i]
    ensures CommaList(Some(Join(xs, ','))) == (if xs == [[]] then [] else xs)
  {
    JoinEmpty(xs, ',');
    if xs != [] && xs != [[]] {
      SplitJoin(xs, ',');
    }
  }

  /** `User.to_dict`: the profile columns, without the password hash. */
  function UserToDict(u: UserRow): (d: UserDict)
    ensures d.id == u.id && d.username == u.username && d.email == u.email
    ensures d.firstName == u.firstName && d.lastName == u.lastName
    ensures d.age == u.age && d.weight == u.weight && d.height == u.height && d.fitnessGoal == u.fitnessGoal
  {
    UserDict(u.id, u.username, u.email, u.firstName, u.lastName, u.age, u.weight, u.height, u.fitnessGoal)
  }

  /** The dictionary does not reveal the password hash: users that differ
      only in it have the same dictionary. */
  lemma UserDictHidesPassword(u: UserRow, hash: string)
    ensures UserToDict(u.(passwordHash := hash)) == UserToDict(u)
  {
  }

  /** `Exercise.to_dict`: the muscle-group column becomes the list of its
      comma-separated pieces, `[]` when it is `NULL` or empty. */
  function ExerciseToDict(e: ExerciseRow): (d: ExerciseDict)
    ensures d.muscleGroups == CommaList(e.muscleGroups)
    ensures d.muscleGroups == [] <==> e.muscleGroups.None? || e.muscleGroups.value == []
    ensures d.description == e.description && d.equipment == e.equipment && d.instructions == e.instructions
    ensures d.id == e.id && d.name == e.name && d.category == e.category
    ensures d.difficultyLevel == e.difficultyLevel
  {
    ExerciseDict(e.id, e.name, e.description, e.category, CommaList(e.muscleGroups),
                 e.equipment, e.difficultyLevel, e.instructions)
  }

  /** The exercise a row's `exercise_id` refers to, if the table holds it. */
  function Linked(exercises: seq<ExerciseRow>, id: int): (r: Option<ExerciseRow>)
    ensures r.Some? ==> r.value in exercises && r.value.id == id
    ensures r.None? ==> forall i :: 0 <= i < |exercises| ==> exercises[i].id != id
  {
    if exercises == [] then None
    else if exercises[0].id == id then Some(exercises[0])
    else Linked(exercises[1..], id)
  }

  /** `WorkoutExercise.to_dict`: `exercise_name` is `None` exactly when the row
      has no linked exercise, and that exercise's name otherwise. */
  function WorkoutExerciseToDict(r: WorkoutExerciseRow, linked: Option<ExerciseRow>): (d: WorkoutExerciseDict)
    ensures d.exerciseName.None? <==> linked.None?
    ensures linked.Some? ==> d.exerciseName == Some(linked.value.name)
    ensures d.id == r.id && d.exerciseId == r.exerciseId && d.orderInWorkout == r.orderInWorkout
  {
    WorkoutExerciseDict(r.id, r.workoutId, r.exerciseId,
                        if linked.Some? then Some(linked.value.name) else None,
                        r.sets, r.reps, r.weight, r.durationSeconds, r.distance,
                        r.caloriesBurned, r.notes, r.orderInWorkout)
  }

  /** The rows of `table` that belong to workout `workoutId` (the
      `workout_exercises` relationship), in table order. */
  function WorkoutRows(table: seq<WorkoutExerciseRow>, workoutId: int): (rel: seq<WorkoutExerciseRow>)
    ensures SubsequenceOf(rel, table)
    ensures forall i :: 0 <= i < |rel| ==> rel[i].workoutId == workoutId && rel[i] in table
    ensures forall i :: 0 <= i < |table| ==> (table[i] in rel <==> table[i].workoutId == workoutId)
  {
    FilterIsSubsequence(table, (r: WorkoutExerciseRow) => r.workoutId == workoutId);
    Filter(table, (r: WorkoutExerciseRow) => r.workoutId == workoutId)
  }

  /** `Workout.to_dict`: exactly one entry per related row, in relationship order. */
  function WorkoutToDict(w: WorkoutRow, table: seq<WorkoutExerciseRow>, exercises: seq<ExerciseRow>): (d: WorkoutDict)
    ensures |d.exercises| == |WorkoutRows(table, w.id)|
    ensures forall i :: 0 <= i < |d.exercises| ==>
              d.exercises[i] == WorkoutExerciseToDict(WorkoutRows(table, w.id)[i],
                                                      Linked(exercises, WorkoutRows(table, w.id)[i].exerciseId))
    ensures d.id == w.id && d.date == Some(w.date) && d.name == w.name
  {
    var rel := WorkoutRows(table, w.id);
    WorkoutDict(w.id, w.userId, w.name, w.description, Some(w.date), w.durationMinutes,
                w.caloriesBurned, w.notes,
                seq(|rel|, i requires 0 <= i < |rel| =>
                  WorkoutExerciseToDict(rel[i], Linked(exercises, rel[i].exerciseId))))
  }

  /** `WorkoutTemplateExercise.to_dict`: name, description and instructions of
      the linked exercise, each `None` when there is no linked exercise. */
  function TemplateExerciseToDict(r: TemplateExerciseRow, linked: Option<ExerciseRow>): (d: TemplateExerciseDict)
    ensures linked.None? ==>
              d.exerciseName.None? && d.exerciseDescription.None? && d.exerciseInstructions.None?
    ensures linked.Some? ==>
              d.exerciseName == Some(linked.value.name) &&
              d.exerciseDescription == linked.value.description &&
              d.exerciseInstructions == linked.value.instructions
    ensures d.exerciseId == r.exerciseId && d.orderInTemplate == r.orderInTemplate
    ensures d.restSeconds == r.restSeconds
  {
    TemplateExerciseDict(r.id, r.templateId, r.exerciseId,
                         if linked.Some? then Some(linked.value.name) else None,
                         if linked.Some? then linked.value.description else None,
                         if linked.Some? then linked.value.instructions else None,
                         r.orderInTemplate, r.sets, r.reps, r.durationSeconds, r.restSeconds, r.notes)
  }

  /** The rows of `table` that belong to template `templateId`, in table order. */
  function TemplateRows(table: seq<TemplateExerciseRow>, templateId: int): (rel: seq<TemplateExerciseRow>)
    ensures SubsequenceOf(rel, table)
    ensures forall i :: 0 <= i < |rel| ==> rel[i].templateId == templateId && rel[i] in table
    ensures forall i :: 0 <= i < |table| ==> (table[i] in rel <==> table[i].templateId == templateId)
  {
    FilterIsSubsequence(table, (r: TemplateExerciseRow) => r.templateId == templateId);
    Filter(table, (r: TemplateExerciseRow) => r.templateId == templateId)
  }

  /** `WorkoutTemplate.to_dict`: both comma-separated columns become lists
      by the `CommaList` rule; one exercise entry per related row. */
  function TemplateToDict(t: TemplateRow, table: seq<TemplateExerciseRow>, exercises: seq<ExerciseRow>): (d: TemplateDict)
    ensures d.equipmentNeeded == CommaList(t.equipmentNeeded)
    ensures d.targetMuscleGroups == CommaList(t.targetMuscleGroups)
    ensures |d.exercises| == |TemplateRows(table, t.id)|
    ensures forall i :: 0 <= i < |d.exercises| ==>
              d.exercises[i] == TemplateExerciseToDict(TemplateRows(table, t.id)[i],
                                                       Linked(exercises, TemplateRows(table, t.id)[i].exerciseId))
  {
    var rel := TemplateRows(table, t.id);
    TemplateDict(t.id, t.name, t.description, t.category, t.difficultyLevel,
                 t.estimatedDurationMinutes, t.estimatedCalories, t.imageUrl,
                 CommaList(t.equipmentNeeded), CommaList(t.targetMuscleGroups),
                 seq(|rel|, i requires 0 <= i < |rel| =>
                   TemplateExerciseToDict(rel[i], Linked(exercises, rel[i].exerciseId))))
  }
}
