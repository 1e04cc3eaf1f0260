/** The workout form (client/src/pages/CreateWorkout.js): the list of chosen
    exercises with their text fields, edited by append, remove and per-field
    change, and the JSON payload built from it on submit. */
module CreateWorkout {
  import opened Wrappers
  import opened Text
  import opened Models

  /** An entry of `selectedExercises`: the chosen exercise and the raw text of
      its six input fields. */
  datatype Entry = Entry(
    exerciseId: int, exerciseName: string,
    sets: string, reps: string, weight: string, durationSeconds: string,
    distance: string, notes: string)

  /** The fields the form's inputs write through `handleExerciseChange`. */
  datatype EntryField = Sets | Reps | Weight | DurationSeconds | Distance | Notes

  function Get(e: Entry, field: EntryField): string {
    match field
    case Sets => e.sets
    case Reps => e.reps
    case Weight => e.weight
    case DurationSeconds => e.durationSeconds
    case Distance => e.distance
    case Notes => e.notes
  }

  /** `entry[field] = value`: that field holds `value`, every other field and
      the exercise are as before. */
  function SetField(e: Entry, field: EntryField, value: string): (r: Entry)
    ensures Get(r, field) == value
    ensures forall g :: g != field ==> Get(r, g) == Get(e, g)
    ensures r.exerciseId == e.exerciseId && r.exerciseName == e.exerciseName
  {
    match field
    case Sets => e.(sets := value)
    case Reps => e.(reps := value)
    case Weight => e.(weight := value)
    case DurationSeconds => e.(durationSeconds := value)
    case Distance => e.(distance := value)
    case Notes => e.(notes := value)
  }

  /** The entry `handleAddExercise` (lines 51-61) builds for a library exercise. */
  function NewEntry(exercise: ExerciseDict): (r: Entry)
    ensures r.exerciseId == exercise.id && r.exerciseName == exercise.name
    ensures forall g :: Get(r, g) == ""
  {
    Entry(exercise.id, exercise.name, "", "", "", "", "", "")
  }

  /** `list.filter((_, i) => i !== index)`: the element at `index` gone, the
      others in order; an index outside the list removes nothing. */
  function RemovedAt(s: seq<Entry>, index: int): (r: seq<Entry>)
    ensures 0 <= index < |s| ==> |r| == |s| - 1
    ensures 0 <= index < |s| ==> forall j :: 0 <= j < index ==> r[j] == s[j]
    ensures 0 <= index < |s| ==> forall j :: index <= j < |r| ==> r[j] == s[j + 1]
    ensures !(0 <= index < |s|) ==> r == s
  {
    if 0 <= index < |s| then s[..index] + s[index + 1..] else s
  }

  /** `updated[index][field] = value` on a copy of the list: entry `index`
      changed in that one field, the length and every other entry as before.
      Outside the list the write throws before the state is set, so the list
      stays as it was. */
  function ChangedAt(s: seq<Entry>, index: int, field: EntryField, value: string): (r: seq<Entry>)
    ensures |r| == |s|
    ensures 0 <= index < |s| ==> r[index] == SetField(s[index], field, value)
    ensures forall j :: 0 <= j < |s| && j != index ==> r[j] == s[j]
  {
    if 0 <= index < |s| then s[index := SetField(s[index], field, value)] else s
  }

  // ---------------------------------------------------------------------------
  // the submit payload

  /** One element of `exercises` in the payload (lines 83-91).  A number field
      that is empty is `null`; a text `parseInt` cannot read gives `NaN`, which
      the JSON body also carries as `null`, so both are `None`.  Weight and
      distance go through `parseFloat`, which is not part of this model: they
      carry the non-empty text. */
  datatype ExercisePayload = ExercisePayload(
    exerciseId: int, sets: Option<int>, reps: Option<int>, weight: Option<string>,
    durationSeconds: Option<int>, distance: Option<string>, notes: Option<string>)

  /** `s ? parseInt(s) : null`, as the JSON body carries it. */
  function IntField(s: string): (r: Option<int>)
    ensures s == "" ==> r.None?
    ensures s != "" ==> r == ParseInt(s)
  {
    if s == "" then None else ParseInt(s)
  }

  /** `s || null` for a text. */
  function TextField(s: string): (r: Option<string>)
    ensures r.None? <==> s == ""
    ensures r.Some? ==> r.value == s
  {
    if s == "" then None else Some(s)
  }

  function EntryPayload(e: Entry): (p: ExercisePayload)
    ensures p.exerciseId == e.exerciseId
    ensures p.sets == IntField(e.sets) && p.reps == IntField(e.reps)
    ensures p.durationSeconds == IntField(e.durationSeconds)
    ensures p.weight == TextField(e.weight) && p.distance == TextField(e.distance)
    ensures p.notes == TextField(e.notes)
    ensures e.sets == "" ==> p.sets.None?
    ensures e.reps == "" ==> p.reps.None?
    ensures e.durationSeconds == "" ==> p.durationSeconds.None?
    ensures p.weight.None? <==> e.weight == ""
    ensures p.distance.None? <==> e.distance == ""
    ensures p.notes.None? <==> e.notes == ""
  {
    ExercisePayload(e.exerciseId, IntField(e.sets), IntField(e.reps), TextField(e.weight),
                    IntField(e.durationSeconds), TextField(e.distance), TextField(e.notes))
  }

  /** `selectedExercises.map(...)`: one payload element per entry, in order,
      for the same exercise. */
  function Payload(selected: seq<Entry>): (r: seq<ExercisePayload>)
    ensures |r| == |selected|
    ensures forall i :: 0 <= i < |r| ==> r[i] == EntryPayload(selected[i])
    ensures forall i :: 0 <= i < |r| ==> r[i].exerciseId == selected[i].exerciseId
  {
    seq(|selected|, i requires 0 <= i < |selected| => EntryPayload(selected[i]))
  }

  /** A whole number typed into a number field reaches the server as that number. */
  lemma TypedNumberArrives(e: Entry, field: EntryField, n: int)
    requires field == Sets || field == Reps || field == DurationSeconds
    ensures var p := EntryPayload(SetField(e, field, IntToString(n)));
            (if field == Sets then p.sets else if field == Reps then p.reps else p.durationSeconds) == Some(n)
  {
    ParseIntOfDecimal(n);
    assert IntToString(n) != "";
  }

  /** The payload of a freshly added exercise carries no values. */
  lemma NewEntryPayloadIsBlank(exercise: ExerciseDict)
    ensures EntryPayload(NewEntry(exercise)) ==
              ExercisePayload(exercise.id, None, None, None, None, None, None)
  {
    var e := NewEntry(exercise);
    assert Get(e, Sets) == "" && Get(e, Reps) == "" && Get(e, DurationSeconds) == "";
    assert Get(e, Weight) == "" && Get(e, Distance) == "" && Get(e, Notes) == "";
  }

  /** Removing an entry removes its payload element and keeps the others in order. */
  lemma RemoveThenPayload(s: seq<Entry>, index: int)
    requires 0 <= index < |s|
    ensures Payload(RemovedAt(s, index)) == Payload(s)[..index] + Payload(s)[index + 1..]
  {
  }

  /** The form's state. */
  class WorkoutForm {
    var selectedExercises: seq<Entry>
    var showExerciseLibrary: bool

    constructor ()
      ensures selectedExercises == [] && !showExerciseLibrary
    {
      selectedExercises := [];
      showExerciseLibrary := false;
    }

    /** `handleAddExercise` (lines 51-64): one blank entry appended for the
        exercise, and the library closed. */
    method AddExercise(exercise: ExerciseDict)
      modifies this
      ensures selectedExercises == old(selectedExercises) + [NewEntry(exercise)]
      ensures !showExerciseLibrary
    {
      selectedExercises := selectedExercises + [NewEntry(exercise)];
      showExerciseLibrary := false;
    }

    /** `handleRemoveExercise` (lines 66-68). */
    method RemoveExercise(index: int)
      modifies this
      ensures selectedExercises == RemovedAt(old(selectedExercises), index)
      ensures showExerciseLibrary == old(showExerciseLibrary)
    {
      selectedExercises := RemovedAt(selectedExercises, index);
    }

    /** `handleExerciseChange` (lines 70-74). */
    method ExerciseChange(index: int, field: EntryField, value: string)
      modifies this
      ensures selectedExercises == ChangedAt(old(selectedExercises), index, field, value)
      ensures showExerciseLibrary == old(showExerciseLibrary)
    {
      if 0 <= index < |selectedExercises| {
        var updated := selectedExercises;
        updated := updated[index := SetField(updated[index], field, value)];
        selectedExercises := updated;
      }
    }

    /** The `exercises` part of the body `onSubmit` sends (lines 80-92). */
    function SubmitPayload(): (r: seq<ExercisePayload>)
      reads this
      ensures |r| == |selectedExercises|
      ensures forall i :: 0 <= i < |r| ==> r[i].exerciseId == selectedExercises[i].exerciseId
    {
      Payload(selectedExercises)
    }
  }
}
