/** The REST handlers of the backend (server/routes.py) over an in-memory
    store in place of the SQLAlchemy session.  Every handler runs in one
    request transaction: an exception before `commit` is caught, answered with
    status 500 and the exception's text, and the session's work is discarded,
    so a failed request leaves the store as it was.  A missing required key is
    Python's `KeyError`, whose text is the key in quotes; `get_or_404` raises
    werkzeug's `NotFound`, which is an `Exception` and so also becomes a 500. */
module Routes {
  import opened Wrappers
  import opened Text
  import opened Seqs
  import opened Models

  /** A JSON reply: the status with a value, or the status with an `error` text. */
  datatype Reply<T> = Success(status: int, value: T) | Failure(status: int, error: string)

  /** `str(KeyError(key))`. */
  function KeyErrorText(key: string): (t: string)
    ensures |t| == |key| + 2 && t[0] == '\'' && t[|t| - 1] == '\''
  {
    "'" + key + "'"
  }

  /** `str(NotFound())`. */
  const NotFoundText := "404 Not Found: The requested URL was not found on the server. If you entered the URL manually please check your spelling and try again."

  /** A key of an update request: left out of the JSON body, or given (possibly as `null`). */
  datatype Field<T> = Absent | Given(value: T)

  /** `data.get(key, current)`: the rule is the whole contract, a key the
      body supplies wins and an absent one keeps the current value. */
  function Pick<T>(f: Field<T>, current: T): (r: T)
    ensures f.Absent? ==> r == current
    ensures f.Given? ==> r == f.value
  {
    if f.Given? then f.value else current
  }

  // ---------------------------------------------------------------------------
  // request bodies (`None` is a key absent from the JSON object)

  datatype RegisterRequest = RegisterRequest(
    username: Option<string>, email: Option<string>, password: Option<string>,
    firstName: Option<string>, lastName: Option<string>,
    age: Option<int>, weight: Option<real>, height: Option<real>, fitnessGoal: Option<string>)

  datatype UserUpdate = UserUpdate(
    firstName: Field<string>, lastName: Field<string>, age: Field<Option<int>>,
    weight: Field<Option<real>>, height: Field<Option<real>>, fitnessGoal: Field<Option<string>>)

  datatype ExerciseEntryRequest = ExerciseEntryRequest(
    exerciseId: Option<int>, sets: Option<int>, reps: Option<int>, weight: Option<real>,
    durationSeconds: Option<int>, distance: Option<real>, caloriesBurned: Option<int>,
    notes: Option<string>)

  datatype WorkoutRequest = WorkoutRequest(
    userId: Option<int>, name: Option<string>, description: Option<string>, date: Option<string>,
    durationMinutes: Option<int>, caloriesBurned: Option<int>, notes: Option<string>,
    exercises: Option<seq<ExerciseEntryRequest>>)

  datatype WorkoutUpdate = WorkoutUpdate(
    name: Field<string>, description: Field<Option<string>>, durationMinutes: Field<Option<int>>,
    caloriesBurned: Field<Option<int>>, notes: Field<Option<string>>, date: Option<string>)

  datatype ExerciseRequest = ExerciseRequest(
    name: Option<string>, description: Option<string>, category: Option<string>,
    muscleGroups: Option<seq<string>>, equipment: Option<string>,
    difficultyLevel: Option<string>, instructions: Option<string>)

  /** The reply of `start_workout_from_template`. */
  datatype StartedWorkout = StartedWorkout(workout: WorkoutDict, template: TemplateDict)

  // ---------------------------------------------------------------------------
  // pure pieces of the handlers

  predicate UsernameTaken(users: map<int, UserRow>, username: string) {
    exists id :: id in users && users[id].username == username
  }

  predicate EmailTaken(users: map<int, UserRow>, email: string) {
    exists id :: id in users && users[id].email == email
  }

  /** `update_user` (lines 72-77): every profile field the body leaves out
      keeps its value; id, username, email and password never change. */
  function MergeUser(u: UserRow, req: UserUpdate): (r: UserRow)
    ensures r.id == u.id && r.username == u.username && r.email == u.email
    ensures r.passwordHash == u.passwordHash
    ensures r.firstName == Pick(req.firstName, u.firstName) && r.lastName == Pick(req.lastName, u.lastName)
    ensures r.age == Pick(req.age, u.age) && r.fitnessGoal == Pick(req.fitnessGoal, u.fitnessGoal)
    ensures r.weight == Pick(req.weight, u.weight) && r.height == Pick(req.height, u.height)
  {
    u.(firstName := Pick(req.firstName, u.firstName),
       lastName := Pick(req.lastName, u.lastName),
       age := Pick(req.age, u.age),
       weight := Pick(req.weight, u.weight),
       height := Pick(req.height, u.height),
       fitnessGoal := Pick(req.fitnessGoal, u.fitnessGoal))
  }

  /** An update that names no field leaves the profile as it is. */
  lemma EmptyUpdateKeepsUser(u: UserRow)
    ensures MergeUser(u, UserUpdate(Absent, Absent, Absent, Absent, Absent, Absent)) == u
  {
  }

  /** `data['date'] if data.get('date') else today` (line 118): the contract
      is that rule, where a missing or empty date falls back to today. */
  function WorkoutDate(date: Option<string>, today: string): (d: string)
    ensures date.Some? && date.value != [] ==> d == date.value
    ensures date.None? || date.value == [] ==> d == today
  {
    if date.Some? && date.value != [] then date.value else today
  }

  /** `update_workout` (lines 156-163): absent fields keep their value; the
      date changes only for a non-empty one. */
  function MergeWorkout(w: WorkoutRow, req: WorkoutUpdate): (r: WorkoutRow)
    ensures r.id == w.id && r.userId == w.userId
    ensures r.name == Pick(req.name, w.name) && r.description == Pick(req.description, w.description)
    ensures r.durationMinutes == Pick(req.durationMinutes, w.durationMinutes)
    ensures r.caloriesBurned == Pick(req.caloriesBurned, w.caloriesBurned)
    ensures r.notes == Pick(req.notes, w.notes)
    ensures r.date == WorkoutDate(req.date, w.date)
  {
    w.(name := Pick(req.name, w.name),
       description := Pick(req.description, w.description),
       durationMinutes := Pick(req.durationMinutes, w.durationMinutes),
       caloriesBurned := Pick(req.caloriesBurned, w.caloriesBurned),
       notes := Pick(req.notes, w.notes),
       date := WorkoutDate(req.date, w.date))
  }

  /** The row `create_workout` adds for the `i`-th payload exercise: its
      values, and `order_in_workout` one more than its position. */
  function EntryRow(e: ExerciseEntryRequest, workoutId: int, id: int, position: nat): (r: WorkoutExerciseRow)
    requires e.exerciseId.Some?
    ensures r.workoutId == workoutId && r.exerciseId == e.exerciseId.value && r.id == id
    ensures r.orderInWorkout == position + 1
    ensures r.sets == e.sets && r.reps == e.reps && r.durationSeconds == e.durationSeconds
    ensures r.weight == e.weight && r.distance == e.distance && r.caloriesBurned == e.caloriesBurned
    ensures r.notes == e.notes
  {
    NewWorkoutExercise(id, workoutId, e.exerciseId.value, e.sets, e.reps, e.weight,
                       e.durationSeconds, e.distance, e.caloriesBurned, e.notes, Some(position + 1))
  }

  /** The row `start_workout_from_template` adds for a template exercise: the
      exercise, sets, reps, duration and order copied, nothing else set. */
  function CopiedRow(te: TemplateExerciseRow, workoutId: int, id: int): (r: WorkoutExerciseRow)
    ensures r.workoutId == workoutId && r.id == id
    ensures r.exerciseId == te.exerciseId && r.sets == te.sets && r.reps == te.reps
    ensures r.durationSeconds == te.durationSeconds && r.orderInWorkout == te.orderInTemplate
    ensures r.weight.None? && r.distance.None? && r.caloriesBurned.None? && r.notes.None?
  {
    NewWorkoutExercise(id, workoutId, te.exerciseId, te.sets, te.reps, None,
                       te.durationSeconds, None, None, None, Some(te.orderInTemplate))
  }

  /** A new workout's rows are all of its rows once appended to a table that
      had none for it. */
  lemma NewWorkoutRows(table: seq<WorkoutExerciseRow>, rows: seq<WorkoutExerciseRow>, workoutId: int)
    requires forall i :: 0 <= i < |table| ==> table[i].workoutId != workoutId
    requires forall i :: 0 <= i < |rows| ==> rows[i].workoutId == workoutId
    ensures WorkoutRows(table + rows, workoutId) == rows
  {
    var p := (r: WorkoutExerciseRow) => r.workoutId == workoutId;
    FilterAppend(table, rows, p);
    FilterDropsAll(table, p);
    FilterKeepsAll(rows, p);
  }

  // ---------------------------------------------------------------------------
  // get_exercises

  /** The query filters of `get_exercises` (lines 193-198), each applied only
      for a non-empty argument: category by equality, muscle group as a
      substring of the stored comma-separated text (SQLite's `LIKE`, which
      ignores ASCII case and never matches `NULL`), difficulty by equality. */
  predicate CategoryOk(category: Option<string>, e: ExerciseRow) {
    category.None? || category.value == [] || e.category == category.value
  }

  predicate MuscleGroupOk(muscleGroup: Option<string>, e: ExerciseRow) {
    muscleGroup.None? || muscleGroup.value == [] ||
    (e.muscleGroups.Some? && Mentions(e.muscleGroups.value, muscleGroup.value))
  }

  predicate DifficultyOk(difficulty: Option<string>, e: ExerciseRow) {
    difficulty.None? || difficulty.value == [] || e.difficultyLevel == difficulty
  }

  predicate ExerciseQueryMatches(category: Option<string>, muscleGroup: Option<string>,
                                 difficulty: Option<string>, e: ExerciseRow) {
    CategoryOk(category, e) && MuscleGroupOk(muscleGroup, e) && DifficultyOk(difficulty, e)
  }

  /** Truthiness of a query argument. */
  predicate Supplied(arg: Option<string>) {
    arg.Some? && arg.value != []
  }

  /** The query of `get_exercises`, built by conditional refinement: the
      exercises that pass all three filters, in table order. */
  method ExerciseQuery(table: seq<ExerciseRow>, category: Option<string>, muscleGroup: Option<string>,
                       difficulty: Option<string>) returns (rows: seq<ExerciseRow>)
    ensures rows == Filter(table, (e: ExerciseRow) => ExerciseQueryMatches(category, muscleGroup, difficulty, e))
    ensures SubsequenceOf(rows, table)
  {
    var all := (e: ExerciseRow) => true;
    var upToCategory := (e: ExerciseRow) => CategoryOk(category, e);
    var upToMuscle := (e: ExerciseRow) => CategoryOk(category, e) && MuscleGroupOk(muscleGroup, e);
    var every := (e: ExerciseRow) => ExerciseQueryMatches(category, muscleGroup, difficulty, e);
    FilterKeepsAll(table, all);
    rows := table;

    var byCategory := (e: ExerciseRow) => e.category == category.GetOr([]);
    FilterStep(table, rows, all, Supplied(category), byCategory, upToCategory);
    if Supplied(category) {
      rows := Filter(rows, byCategory);
    }
    var byMuscle := (e: ExerciseRow) => e.muscleGroups.Some? && Mentions(e.muscleGroups.value, muscleGroup.GetOr([]));
    FilterStep(table, rows, upToCategory, Supplied(muscleGroup), byMuscle, upToMuscle);
    if Supplied(muscleGroup) {
      rows := Filter(rows, byMuscle);
    }
    var byDifficulty := (e: ExerciseRow) => e.difficultyLevel == difficulty;
    FilterStep(table, rows, upToMuscle, Supplied(difficulty), byDifficulty, every);
    if Supplied(difficulty) {
      rows := Filter(rows, byDifficulty);
    }
    FilterIsSubsequence(table, every);
  }

  /** Without arguments the query returns the whole table. */
  lemma ExerciseQueryAll(table: seq<ExerciseRow>)
    ensures Filter(table, (e: ExerciseRow) => ExerciseQueryMatches(None, None, None, e)) == table
  {
    FilterKeepsAll(table, (e: ExerciseRow) => ExerciseQueryMatches(None, None, None, e));
  }

  // ---------------------------------------------------------------------------
  // the store

  /** The whole store as one value. */
  datatype Database = Database(
    users: map<int, UserRow>, exercises: seq<ExerciseRow>, workouts: map<int, WorkoutRow>,
    workoutExercises: seq<WorkoutExerciseRow>, templates: map<int, TemplateRow>,
    templateExercises: seq<TemplateExerciseRow>,
    nextUserId: int, nextExerciseId: int, nextWorkoutId: int, nextWorkoutExerciseId: int)

  /** Users are keyed by id, below the next free key, and no two share a
      username or an email (the unique columns). */
  ghost predicate UsersValid(users: map<int, UserRow>, next: int) {
    (forall id :: id in users ==> users[id].id == id && 1 <= id < next) &&
    (forall a, b :: a in users && b in users && a != b ==>
       users[a].username != users[b].username && users[a].email != users[b].email)
  }

  ghost predicate WorkoutsValid(workouts: map<int, WorkoutRow>, next: int) {
    forall id :: id in workouts ==> workouts[id].id == id && 1 <= id < next
  }

  /** Workout-exercise rows point below the next workout key and have ids
      below their own next key. */
  ghost predicate RowsValid(rows: seq<WorkoutExerciseRow>, nextWorkout: int, next: int) {
    forall i :: 0 <= i < |rows| ==> rows[i].workoutId < nextWorkout && rows[i].id < next
  }

  /** Rows made for workout `workoutId` with consecutive ids from `firstId`. */
  ghost predicate RowsFor(rows: seq<WorkoutExerciseRow>, workoutId: int, firstId: int) {
    forall i :: 0 <= i < |rows| ==> rows[i].workoutId == workoutId && rows[i].id == firstId + i
  }

  ghost predicate ExercisesValid(exercises: seq<ExerciseRow>, next: int) {
    forall i :: 0 <= i < |exercises| ==> exercises[i].id < next
  }

  ghost predicate TemplatesValid(templates: map<int, TemplateRow>) {
    forall id :: id in templates ==> templates[id].id == id
  }

  /** The loop of `create_workout` (lines 128-142): one row per payload
      exercise, the `i`-th (from 0) with id `firstId + i`, or `None` when some
      payload exercise has no `exercise_id`. */
  method EntryRows(entries: seq<ExerciseEntryRequest>, workoutId: int, firstId: int)
    returns (rows: Option<seq<WorkoutExerciseRow>>)
    ensures rows.None? <==> exists j :: 0 <= j < |entries| && entries[j].exerciseId.None?
    ensures rows.Some? ==>
              |rows.value| == |entries| &&
              forall j :: 0 <= j < |entries| ==>
                entries[j].exerciseId.Some? && rows.value[j] == EntryRow(entries[j], workoutId, firstId + j, j)
  {
    var acc: seq<WorkoutExerciseRow> := [];
    var i := 0;
    while i < |entries|
      invariant 0 <= i <= |entries|
      invariant |acc| == i
      invariant forall j :: 0 <= j < i ==> entries[j].exerciseId.Some?
      invariant forall j :: 0 <= j < i ==> acc[j] == EntryRow(entries[j], workoutId, firstId + j, j)
    {
      if entries[i].exerciseId.None? {
        return None;
      }
      acc := acc + [EntryRow(entries[i], workoutId, firstId + i, i)];
      i := i + 1;
    }
    return Some(acc);
  }

  /** The loop of `start_workout_from_template` (lines 288-297): one copied
      row per template exercise, the `i`-th (from 0) with id `firstId + i`. */
  method CopiedRows(source: seq<TemplateExerciseRow>, workoutId: int, firstId: int)
    returns (rows: seq<WorkoutExerciseRow>)
    ensures |rows| == |source|
    ensures forall j :: 0 <= j < |source| ==> rows[j] == CopiedRow(source[j], workoutId, firstId + j)
  {
    rows := [];
    var i := 0;
    while i < |source|
      invariant 0 <= i <= |source|
      invariant |rows| == i
      invariant forall j :: 0 <= j < i ==> rows[j] == CopiedRow(source[j], workoutId, firstId + j)
    {
      rows := rows + [CopiedRow(source[i], workoutId, firstId + i)];
      i := i + 1;
    }
  }

  /** The dictionary of a workout lists its rows' exercises in row order. */
  lemma WorkoutDictOfRows(w: WorkoutRow, table: seq<WorkoutExerciseRow>, exercises: seq<ExerciseRow>,
                          rows: seq<WorkoutExerciseRow>)
    requires WorkoutRows(table, w.id) == rows
    ensures var d := WorkoutToDict(w, table, exercises);
            |d.exercises| == |rows| &&
            forall i :: 0 <= i < |rows| ==>
              d.exercises[i].exerciseId == rows[i].exerciseId &&
              d.exercises[i].orderInWorkout == rows[i].orderInWorkout
  {
  }

  /** Inserting a user under the next free key whose username and email are
      not taken keeps the users table valid. */
  lemma AddUserValid(users: map<int, UserRow>, next: int, u: UserRow)
    requires UsersValid(users, next) && u.id == next && next >= 1
    requires !UsernameTaken(users, u.username) && !EmailTaken(users, u.email)
    ensures UsersValid(users[next := u], next + 1)
  {
    var users' := users[next := u];
    forall a, b | a in users' && b in users' && a != b
      ensures users'[a].username != users'[b].username && users'[a].email != users'[b].email
    {
      if a == next {
        assert users'[b] == users[b];
      } else if b == next {
        assert users'[a] == users[a];
      }
    }
  }

  /** Adding a new workout with its rows keeps the bookkeeping valid, and the
      relationship of the new workout is exactly the new rows. */
  lemma AddWorkoutRows(workouts: map<int, WorkoutRow>, table: seq<WorkoutExerciseRow>,
                       w: WorkoutRow, rows: seq<WorkoutExerciseRow>, firstId: int)
    requires WorkoutsValid(workouts, w.id) && RowsValid(table, w.id, firstId) && w.id >= 1
    requires RowsFor(rows, w.id, firstId)
    ensures WorkoutsValid(workouts[w.id := w], w.id + 1)
    ensures RowsValid(table + rows, w.id + 1, firstId + |rows|)
    ensures WorkoutRows(table + rows, w.id) == rows
  {
    NewWorkoutRows(table, rows, w.id);
  }

  /** The tables and the next free primary key of each table rows are added to. */
  class Store {
    var users: map<int, UserRow>
    var exercises: seq<ExerciseRow>
    var workouts: map<int, WorkoutRow>
    var workoutExercises: seq<WorkoutExerciseRow>
    var templates: map<int, TemplateRow>
    var templateExercises: seq<TemplateExerciseRow>
    var nextUserId: int
    var nextExerciseId: int
    var nextWorkoutId: int
    var nextWorkoutExerciseId: int

    function Db(): Database
      reads this
    {
      Database(users, exercises, workouts, workoutExercises, templates, templateExercises,
               nextUserId, nextExerciseId, nextWorkoutId, nextWorkoutExerciseId)
    }

    ghost predicate Valid()
      reads this
    {
      nextUserId >= 1 && nextExerciseId >= 1 && nextWorkoutId >= 1 && nextWorkoutExerciseId >= 1 &&
      UsersValid(users, nextUserId) && WorkoutsValid(workouts, nextWorkoutId) &&
      RowsValid(workoutExercises, nextWorkoutId, nextWorkoutExerciseId) &&
      ExercisesValid(exercises, nextExerciseId) && TemplatesValid(templates)
    }

    constructor ()
      ensures Valid()
      ensures users == map[] && workouts == map[] && templates == map[]
      ensures exercises == [] && workoutExercises == [] && templateExercises == []
    {
      users, workouts, templates := map[], map[], map[];
      exercises, workoutExercises, templateExercises := [], [], [];
      nextUserId, nextExerciseId, nextWorkoutId, nextWorkoutExerciseId := 1, 1, 1, 1;
    }

    /** `register` (lines 10-41).  Keys are read in the order the handler
        reads them; a taken username is reported before the email is even
        looked at, and a taken email before the password is.  `hash` stands
        for `generate_password_hash`. */
    method Register(req: RegisterRequest, hash: string -> string) returns (reply: Reply<UserDict>)
      requires Valid()
      modifies this
      ensures Valid()
      ensures req.username.None? ==> reply == Failure(500, KeyErrorText("username"))
      ensures req.username.Some? && UsernameTaken(old(users), req.username.value) ==>
                reply == Failure(400, "Username already exists")
      ensures req.username.Some? && !UsernameTaken(old(users), req.username.value) && req.email.None? ==>
                reply == Failure(500, KeyErrorText("email"))
      ensures req.username.Some? && !UsernameTaken(old(users), req.username.value) &&
              req.email.Some? && EmailTaken(old(users), req.email.value) ==>
                reply == Failure(400, "Email already exists")
      ensures req.username.Some? && !UsernameTaken(old(users), req.username.value) &&
              req.email.Some? && !EmailTaken(old(users), req.email.value) && req.password.None? ==>
                reply == Failure(500, KeyErrorText("password"))
      ensures req.username.Some? && !UsernameTaken(old(users), req.username.value) &&
              req.email.Some? && !EmailTaken(old(users), req.email.value) && req.password.Some? &&
              req.firstName.None? ==>
                reply == Failure(500, KeyErrorText("first_name"))
      ensures req.username.Some? && !UsernameTaken(old(users), req.username.value) &&
              req.email.Some? && !EmailTaken(old(users), req.email.value) && req.password.Some? &&
              req.firstName.Some? && req.lastName.None? ==>
                reply == Failure(500, KeyErrorText("last_name"))
      ensures reply.Failure? ==> Db() == old(Db())
      ensures reply.Success? ==>
                req.username.Some? && req.email.Some? && req.password.Some? &&
                req.firstName.Some? && req.lastName.Some? &&
                !UsernameTaken(old(users), req.username.value) && !EmailTaken(old(users), req.email.value) &&
                reply.status == 201 &&
                var u := UserRow(old(nextUserId), req.username.value, req.email.value, hash(req.password.value),
                                 req.firstName.value, req.lastName.value, req.age, req.weight, req.height,
                                 req.fitnessGoal);
                Db() == old(Db()).(users := old(users)[old(nextUserId) := u], nextUserId := old(nextUserId) + 1) &&
                reply.value == UserToDict(u)
      ensures req.username.Some? && req.email.Some? && req.password.Some? &&
              req.firstName.Some? && req.lastName.Some? &&
              !UsernameTaken(old(users), req.username.value) && !EmailTaken(old(users), req.email.value) ==>
                reply.Success?
    {
      if req.username.None? {
        return Failure(500, KeyErrorText("username"));
      }
      var username := req.username.value;
      if UsernameTaken(users, username) {
        return Failure(400, "Username already exists");
      }
      if req.email.None? {
        return Failure(500, KeyErrorText("email"));
      }
      var email := req.email.value;
      if EmailTaken(users, email) {
        return Failure(400, "Email already exists");
      }
      if req.password.None? {
        return Failure(500, KeyErrorText("password"));
      }
      if req.firstName.None? {
        return Failure(500, KeyErrorText("first_name"));
      }
      if req.lastName.None? {
        return Failure(500, KeyErrorText("last_name"));
      }
      var user := UserRow(nextUserId, username, email, hash(req.password.value),
                          req.firstName.value, req.lastName.value, req.age, req.weight, req.height,
                          req.fitnessGoal);
      AddUserValid(users, nextUserId, user);
      users := users[nextUserId := user];
      nextUserId := nextUserId + 1;
      reply := Success(201, UserToDict(user));
    }

    /** `update_user` (lines 65-83). */
    method UpdateUser(userId: int, req: UserUpdate) returns (reply: Reply<UserDict>)
      requires Valid()
      modifies this
      ensures Valid()
      ensures userId !in old(users) ==> reply == Failure(500, NotFoundText) && Db() == old(Db())
      ensures userId in old(users) ==>
                var u := MergeUser(old(users)[userId], req);
                Db() == old(Db()).(users := old(users)[userId := u]) && reply == Success(200, UserToDict(u))
    {
      if userId !in users {
        return Failure(500, NotFoundText);
      }
      var user := MergeUser(users[userId], req);
      users := users[userId := user];
      reply := Success(200, UserToDict(user));
    }

    /** `create_workout` (lines 109-148): the workout with the supplied or
        today's date, then one row per payload exercise, the `i`-th (from 0)
        with `order_in_workout = i + 1`.  A payload exercise without
        `exercise_id` fails the whole request. */
    method CreateWorkout(req: WorkoutRequest, today: string) returns (reply: Reply<WorkoutDict>)
      requires Valid()
      modifies this
      ensures Valid()
      ensures req.userId.None? ==> reply == Failure(500, KeyErrorText("user_id"))
      ensures req.userId.Some? && req.name.None? ==> reply == Failure(500, KeyErrorText("name"))
      ensures req.userId.Some? && req.name.Some? &&
              (exists i :: 0 <= i < |req.exercises.GetOr([])| && req.exercises.GetOr([])[i].exerciseId.None?) ==>
                reply == Failure(500, KeyErrorText("exercise_id"))
      ensures reply.Failure? ==> Db() == old(Db())
      ensures reply.Success? ==> req.userId.Some? && req.name.Some? && reply.status == 201
      ensures reply.Success? ==>
                var entries := req.exercises.GetOr([]);
                forall i :: 0 <= i < |entries| ==> entries[i].exerciseId.Some?
      ensures reply.Success? ==>
                var wid := old(nextWorkoutId);
                workouts == old(workouts)[wid := WorkoutRow(wid, req.userId.value, req.name.value, req.description,
                                                            WorkoutDate(req.date, today), req.durationMinutes,
                                                            req.caloriesBurned, req.notes)]
      ensures reply.Success? ==>
                var entries := req.exercises.GetOr([]);
                |workoutExercises| == |old(workoutExercises)| + |entries| &&
                workoutExercises[..|old(workoutExercises)|] == old(workoutExercises)
      ensures reply.Success? ==>
                var entries := req.exercises.GetOr([]);
                forall i :: 0 <= i < |entries| && entries[i].exerciseId.Some? ==>
                  workoutExercises[|old(workoutExercises)| + i] ==
                    EntryRow(entries[i], old(nextWorkoutId), old(nextWorkoutExerciseId) + i, i)
      ensures reply.Success? ==>
                users == old(users) && exercises == old(exercises) &&
                templates == old(templates) && templateExercises == old(templateExercises)
      ensures reply.Success? ==>
                var entries := req.exercises.GetOr([]);
                |reply.value.exercises| == |entries| &&
                forall i :: 0 <= i < |entries| ==>
                  reply.value.exercises[i].exerciseId == entries[i].exerciseId.value &&
                  reply.value.exercises[i].orderInWorkout == i + 1
      ensures req.userId.Some? && req.name.Some? &&
              (forall i :: 0 <= i < |req.exercises.GetOr([])| ==> req.exercises.GetOr([])[i].exerciseId.Some?) ==>
                reply.Success?
    {
      if req.userId.None? {
        return Failure(500, KeyErrorText("user_id"));
      }
      if req.name.None? {
        return Failure(500, KeyErrorText("name"));
      }
      var wid := nextWorkoutId;
      var workout := WorkoutRow(wid, req.userId.value, req.name.value, req.description,
                                WorkoutDate(req.date, today), req.durationMinutes, req.caloriesBurned, req.notes);
      var entries := req.exercises.GetOr([]);
      var built := EntryRows(entries, wid, nextWorkoutExerciseId);
      if built.None? {
        return Failure(500, KeyErrorText("exercise_id"));
      }
      var rows := built.value;
      var before := workoutExercises;
      AddWorkout(workout, rows);
      AppendParts(before, rows);
      WorkoutDictOfRows(workout, workoutExercises, exercises, rows);
      reply := Success(201, WorkoutToDict(workout, workoutExercises, exercises));
    }

    /** The flush and commit shared by `create_workout` and
        `start_workout_from_template`: the workout under the next free key,
        then its rows after the existing ones. */
    method AddWorkout(workout: WorkoutRow, rows: seq<WorkoutExerciseRow>)
      requires Valid()
      requires workout.id == nextWorkoutId && RowsFor(rows, nextWorkoutId, nextWorkoutExerciseId)
      modifies this
      ensures Valid()
      ensures workouts == old(workouts)[workout.id := workout] && nextWorkoutId == old(nextWorkoutId) + 1
      ensures workoutExercises == old(workoutExercises) + rows
      ensures nextWorkoutExerciseId == old(nextWorkoutExerciseId) + |rows|
      ensures users == old(users) && exercises == old(exercises) && templates == old(templates)
      ensures templateExercises == old(templateExercises)
      ensures nextUserId == old(nextUserId) && nextExerciseId == old(nextExerciseId)
      ensures WorkoutRows(workoutExercises, workout.id) == rows
    {
      AddWorkoutRows(workouts, workoutExercises, workout, rows, nextWorkoutExerciseId);
      workouts := workouts[workout.id := workout];
      nextWorkoutId := nextWorkoutId + 1;
      workoutExercises := workoutExercises + rows;
      nextWorkoutExerciseId := nextWorkoutExerciseId + |rows|;
    }

    /** `update_workout` (lines 150-169). */
    method UpdateWorkout(workoutId: int, req: WorkoutUpdate) returns (reply: Reply<WorkoutDict>)
      requires Valid()
      modifies this
      ensures Valid()
      ensures workoutId !in old(workouts) ==> reply == Failure(500, NotFoundText) && Db() == old(Db())
      ensures workoutId in old(workouts) ==>
                var w := MergeWorkout(old(workouts)[workoutId], req);
                Db() == old(Db()).(workouts := old(workouts)[workoutId := w]) &&
                reply == Success(200, WorkoutToDict(w, workoutExercises, exercises))
    {
      if workoutId !in workouts {
        return Failure(500, NotFoundText);
      }
      var workout := MergeWorkout(workouts[workoutId], req);
      workouts := workouts[workoutId := workout];
      reply := Success(200, WorkoutToDict(workout, workoutExercises, exercises));
    }

    /** `delete_workout` (lines 171-179): the workout and, by the cascade on
        its relationship, its exercise rows. */
    method DeleteWorkout(workoutId: int) returns (reply: Reply<()>)
      requires Valid()
      modifies this
      ensures Valid()
      ensures workoutId !in old(workouts) ==> reply == Failure(500, NotFoundText) && Db() == old(Db())
      ensures workoutId in old(workouts) ==>
                reply == Success(200, ()) &&
                Db() == old(Db()).(workouts := old(workouts) - {workoutId},
                                   workoutExercises := Filter(old(workoutExercises),
                                                              (r: WorkoutExerciseRow) => r.workoutId != workoutId))
    {
      if workoutId !in workouts {
        return Failure(500, NotFoundText);
      }
      workouts := workouts - {workoutId};
      workoutExercises := Filter(workoutExercises, (r: WorkoutExerciseRow) => r.workoutId != workoutId);
      reply := Success(200, ());
    }

    /** `get_exercises` (lines 184-203). */
    method GetExercises(category: Option<string>, muscleGroup: Option<string>, difficulty: Option<string>)
      returns (reply: Reply<seq<ExerciseDict>>)
      ensures reply.Success? && reply.status == 200
      ensures var rows := Filter(exercises, (e: ExerciseRow) => ExerciseQueryMatches(category, muscleGroup, difficulty, e));
              |reply.value| == |rows| &&
              forall i :: 0 <= i < |rows| ==> reply.value[i] == ExerciseToDict(rows[i])
    {
      var rows := ExerciseQuery(exercises, category, muscleGroup, difficulty);
      reply := Success(200, seq(|rows|, i requires 0 <= i < |rows| => ExerciseToDict(rows[i])));
    }

    /** `create_exercise` (lines 213-234): the muscle-group list is stored
        joined with commas (an absent list as the empty text). */
    method CreateExercise(req: ExerciseRequest) returns (reply: Reply<ExerciseDict>)
      requires Valid()
      modifies this
      ensures Valid()
      ensures req.name.None? ==> reply == Failure(500, KeyErrorText("name"))
      ensures req.name.Some? && req.category.None? ==> reply == Failure(500, KeyErrorText("category"))
      ensures reply.Failure? ==> Db() == old(Db())
      ensures req.name.Some? && req.category.Some? ==>
                var e := ExerciseRow(old(nextExerciseId), req.name.value, req.description, req.category.value,
                                     Some(Join(req.muscleGroups.GetOr([]), ',')), req.equipment,
                                     req.difficultyLevel, req.instructions);
                Db() == old(Db()).(exercises := old(exercises) + [e], nextExerciseId := old(nextExerciseId) + 1) &&
                reply == Success(201, ExerciseToDict(e))
      ensures reply.Success? ==>
                var groups := req.muscleGroups.GetOr([]);
                (forall i :: 0 <= i < |groups| ==> ',' !in groups[i]) ==>
                  reply.value.muscleGroups == (if groups == [[]] then [] else groups)
    {
      if req.name.None? {
        return Failure(500, KeyErrorText("name"));
      }
      if req.category.None? {
        return Failure(500, KeyErrorText("category"));
      }
      var groups := if req.muscleGroups.Some? then req.muscleGroups.value else [];
      var exercise := ExerciseRow(nextExerciseId, req.name.value, req.description, req.category.value,
                                  Some(Join(groups, ',')), req.equipment, req.difficultyLevel, req.instructions);
      exercises := exercises + [exercise];
      nextExerciseId := nextExerciseId + 1;
      if forall i :: 0 <= i < |groups| ==> ',' !in groups[i] {
        CommaListOfJoin(groups);
      }
      reply := Success(201, ExerciseToDict(exercise));
    }

    /** `start_workout_from_template` (lines 265-308): a falsy `user_id` is
        refused before the template is looked up; otherwise a workout named
        and described like the template, dated today, with one row per
        template exercise (in relationship order) copying its exercise, sets,
        reps, duration and order.  The user id is not looked up. */
    method StartWorkoutFromTemplate(templateId: int, userId: Option<int>, today: string)
      returns (reply: Reply<StartedWorkout>)
      requires Valid()
      modifies this
      ensures Valid()
      ensures userId.None? || userId.value == 0 ==> reply == Failure(400, "User ID is required")
      ensures userId.Some? && userId.value != 0 && templateId !in old(templates) ==>
                reply == Failure(500, NotFoundText)
      ensures reply.Failure? ==> Db() == old(Db())
      ensures userId.Some? && userId.value != 0 && templateId in old(templates) ==>
                var t := old(templates)[templateId];
                var source := TemplateRows(old(templateExercises), templateId);
                var wid := old(nextWorkoutId);
                reply.Success? && reply.status == 201 &&
                workouts == old(workouts)[wid := WorkoutRow(wid, userId.value, t.name, t.description, today,
                                                            None, None, None)] &&
                |workoutExercises| == |old(workoutExercises)| + |source| &&
                workoutExercises[..|old(workoutExercises)|] == old(workoutExercises) &&
                (forall i :: 0 <= i < |source| ==>
                   workoutExercises[|old(workoutExercises)| + i] ==
                     CopiedRow(source[i], wid, old(nextWorkoutExerciseId) + i)) &&
                users == old(users) && exercises == old(exercises) &&
                templates == old(templates) && templateExercises == old(templateExercises) &&
                reply.value.template == TemplateToDict(t, templateExercises, exercises)
      ensures reply.Success? ==>
                var source := TemplateRows(old(templateExercises), templateId);
                |reply.value.workout.exercises| == |source| &&
                forall i :: 0 <= i < |source| ==>
                  reply.value.workout.exercises[i].exerciseId == source[i].exerciseId &&
                  reply.value.workout.exercises[i].orderInWorkout == source[i].orderInTemplate
    {
      if userId.None? || userId.value == 0 {
        return Failure(400, "User ID is required");
      }
      if templateId !in templates {
        return Failure(500, NotFoundText);
      }
      var template := templates[templateId];
      var wid := nextWorkoutId;
      var workout := WorkoutRow(wid, userId.value, template.name, template.description, today, None, None, None);
      var source := TemplateRows(templateExercises, templateId);
      var rows := CopiedRows(source, wid, nextWorkoutExerciseId);
      var before := workoutExercises;
      AddWorkout(workout, rows);
      AppendParts(before, rows);
      WorkoutDictOfRows(workout, workoutExercises, exercises, rows);
      reply := Success(201, StartedWorkout(WorkoutToDict(workout, workoutExercises, exercises),
                                           TemplateToDict(template, templateExercises, exercises)));
    }
  }
}
