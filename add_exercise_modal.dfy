/** The "add exercise" dialog (client/src/components/AddExerciseModal.js): the
    form's fields, the muscle-group checkboxes, the ordered validation in
    `handleSubmit` and the hand-over to the parent's `onExerciseCreated`. */
module AddExerciseModal {
  import opened Wrappers
  import opened Text
  import opened Seqs

  /** `formData`. */
  datatype FormData = FormData(
    name: string, description: string, category: string, muscleGroups: seq<string>,
    equipment: string, difficultyLevel: string, instructions: string)

  /** The initial and reset value of `formData` (lines 6-14 and 44-52). */
  const EmptyForm: FormData := FormData("", "", "", [], "", "", "")

  const NameRequired := "Exercise name is required"
  const NameTooShort := "Exercise name must be at least 2 characters long"
  const CategoryRequired := "Category is required"
  const MuscleGroupRequired := "Please select at least one muscle group"
  const CreateFailed := "Failed to create exercise"

  /** `handleMuscleGroupChange` (lines 34-41): a group that is present is
      removed (every copy of it, the rest keeping their order); an absent one
      is appended. */
  function Toggle(groups: seq<string>, g: string): (r: seq<string>)
    ensures g in groups ==> r == Filter(groups, (x: string) => x != g)
    ensures g in groups ==> g !in r && SubsequenceOf(r, groups)
    ensures g in groups ==> forall i :: 0 <= i < |groups| && groups[i] != g ==> groups[i] in r
    ensures g !in groups ==> r == groups + [g]
  {
    if g in groups then
      var r := Filter(groups, (x: string) => x != g);
      FilterIsSubsequence(groups, (x: string) => x != g);
      r
    else groups + [g]
  }

  /** Ticking an unticked group and unticking it again restores the list. */
  lemma ToggleTwiceRestores(groups: seq<string>, g: string)
    requires g !in groups
    ensures Toggle(Toggle(groups, g), g) == groups
  {
    var p := (x: string) => x != g;
    FilterAppend(groups, [g], p);
    FilterKeepsAll(groups, p);
    FilterDropsAll([g], p);
  }

  /** The checkbox list never holds a group twice. */
  lemma ToggleKeepsNoDuplicates(groups: seq<string>, g: string)
    requires NoDuplicates(groups)
    ensures NoDuplicates(Toggle(groups, g))
  {
    if g in groups {
      FilterNoDuplicates(groups, (x: string) => x != g);
    }
  }

  /** The checks of `handleSubmit` (lines 67-89), in order; the first one
      that fails gives the message. */
  function Validate(form: FormData): (r: Option<string>)
    ensures r == Some(NameRequired) <==> Trim(form.name) == []
    ensures r == Some(NameTooShort) <==> |Trim(form.name)| == 1
    ensures r == Some(CategoryRequired) <==> |Trim(form.name)| >= 2 && form.category == []
    ensures r == Some(MuscleGroupRequired) <==>
              |Trim(form.name)| >= 2 && form.category != [] && form.muscleGroups == []
    ensures r.None? <==> |Trim(form.name)| >= 2 && form.category != [] && form.muscleGroups != []
  {
    var name := Trim(form.name);
    if name == [] then Some(NameRequired)
    else if |name| < 2 then Some(NameTooShort)
    else if form.category == [] then Some(CategoryRequired)
    else if |form.muscleGroups| == 0 then Some(MuscleGroupRequired)
    else None
  }

  /** Description, equipment, difficulty and instructions play no part in validation. */
  lemma OptionalFieldsNeverFail(form: FormData, description: string, equipment: string,
                                difficulty: string, instructions: string)
    ensures Validate(form.(description := description, equipment := equipment,
                           difficultyLevel := difficulty, instructions := instructions))
         == Validate(form)
  {
  }

  /** A name made only of whitespace counts as missing. */
  lemma BlankNameIsMissing(form: FormData)
    requires forall i :: 0 <= i < |form.name| ==> IsSpace(form.name[i])
    ensures Validate(form) == Some(NameRequired)
  {
  }

  /** How the parent's `onExerciseCreated` promise settles: resolved, or
      rejected with the server's `error` text if the response carries one. */
  datatype CallbackOutcome = Resolved | Rejected(serverError: Option<string>)

  /** `err.response?.data?.error || 'Failed to create exercise'`. */
  function FailureMessage(serverError: Option<string>): (m: string)
    ensures m != []
    ensures serverError.Some? && serverError.value != [] ==> m == serverError.value
    ensures serverError.None? || serverError.value == [] ==> m == CreateFailed
  {
    if serverError.Some? && serverError.value != [] then serverError.value else CreateFailed
  }

  /** The dialog's state. */
  class Modal {
    var formData: FormData
    var isSubmitting: bool
    var error: string

    constructor ()
      ensures formData == EmptyForm && !isSubmitting && error == ""
    {
      formData := EmptyForm;
      isSubmitting := false;
      error := "";
    }

    /** `handleMuscleGroupChange`. */
    method MuscleGroupChange(g: string)
      modifies this
      ensures formData == old(formData).(muscleGroups := Toggle(old(formData).muscleGroups, g))
      ensures isSubmitting == old(isSubmitting) && error == old(error)
    {
      formData := formData.(muscleGroups := Toggle(formData.muscleGroups, g));
    }

    /** `resetForm` (lines 43-54): every field empty and no error. */
    method ResetForm()
      modifies this
      ensures formData == EmptyForm && error == ""
      ensures isSubmitting == old(isSubmitting)
    {
      formData := EmptyForm;
      error := "";
    }

    /** `handleSubmit` (lines 61-100).  `called` says whether `onExerciseCreated`
        was invoked (with the form as it stood), `closed` whether `onClose`
        followed.  A failed check sets its message and calls nothing; a
        resolved callback resets the form and closes the dialog; a rejected
        one keeps the form and shows the failure.  Submission always ends. */
    method HandleSubmit(outcome: CallbackOutcome) returns (called: bool, closed: bool)
      modifies this
      ensures !isSubmitting
      ensures called <==> Validate(old(formData)).None?
      ensures closed <==> called && outcome.Resolved?
      ensures !called ==> formData == old(formData) && Some(error) == Validate(old(formData))
      ensures called && outcome.Resolved? ==> formData == EmptyForm && error == ""
      ensures called && outcome.Rejected? ==>
                formData == old(formData) && error == FailureMessage(outcome.serverError)
    {
      called, closed := false, false;
      isSubmitting := true;
      error := "";

      if Trim(formData.name) == [] {
        error := NameRequired;
        isSubmitting := false;
        return;
      }
      if |Trim(formData.name)| < 2 {
        error := NameTooShort;
        isSubmitting := false;
        return;
      }
      if formData.category == [] {
        error := CategoryRequired;
        isSubmitting := false;
        return;
      }
      if |formData.muscleGroups| == 0 {
        error := MuscleGroupRequired;
        isSubmitting := false;
        return;
      }

      called := true;
      match outcome {
        case Resolved =>
          ResetForm();
          closed := true;
        case Rejected(serverError) =>
          error := FailureMessage(serverError);
      }
      isSubmitting := false;
    }

    /** `handleClose` (lines 56-59): the form reset before the parent closes it. */
    method HandleClose()
      modifies this
      ensures formData == EmptyForm && error == ""
      ensures isSubmitting == old(isSubmitting)
    {
      ResetForm();
    }
  }
}
