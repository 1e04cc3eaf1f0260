/** The exercise library page (frontend/src/pages/Exercises.js): a search box
    and two filters narrow the fetched exercises. */
module ExercisesPage {
  import opened Wrappers
  import opened Text
  import opened Seqs
  import opened Models

  /** `searchTerm`, `categoryFilter` and `difficultyFilter`; `""` means "not set". */
  datatype ExerciseFilters = ExerciseFilters(search: string, category: string, difficulty: string)

  const NoFilters: ExerciseFilters := ExerciseFilters("", "", "")

  /** The search predicate (lines 37-43): the term in the name, in a
      (non-empty) description or in one of the muscle groups. */
  predicate MatchesSearch(e: ExerciseDict, term: string) {
    Mentions(e.name, term) ||
    (e.description.Some? && e.description.value != [] && Mentions(e.description.value, term)) ||
    (exists g :: g in e.muscleGroups && Mentions(g, term))
  }

  predicate UpToSearch(f: ExerciseFilters, e: ExerciseDict) {
    f.search == "" || MatchesSearch(e, f.search)
  }

  predicate UpToCategory(f: ExerciseFilters, e: ExerciseDict) {
    UpToSearch(f, e) && (f.category == "" || e.category == f.category)
  }

  /** An exercise passes every active criterion; an exercise without a
      difficulty level never equals a set difficulty filter. */
  predicate Matches(f: ExerciseFilters, e: ExerciseDict) {
    UpToCategory(f, e) && (f.difficulty == "" || e.difficultyLevel == Some(f.difficulty))
  }

  /** The exercises the page shows for the criteria `f`. */
  function Shown(exercises: seq<ExerciseDict>, f: ExerciseFilters): seq<ExerciseDict> {
    Filter(exercises, e => Matches(f, e))
  }

  /** The filter effect (lines 32-55). */
  method FilterExercises(exercises: seq<ExerciseDict>, f: ExerciseFilters) returns (filtered: seq<ExerciseDict>)
    ensures filtered == Shown(exercises, f)
  {
    FilterKeepsAll(exercises, e => true);
    filtered := exercises;

    var search := (e: ExerciseDict) => MatchesSearch(e, f.search);
    FilterStep(exercises, filtered, e => true, f.search != "", search, e => UpToSearch(f, e));
    if f.search != "" {
      filtered := Filter(filtered, search);
    }

    var category := (e: ExerciseDict) => e.category == f.category;
    FilterStep(exercises, filtered, e => UpToSearch(f, e), f.category != "", category, e => UpToCategory(f, e));
    if f.category != "" {
      filtered := Filter(filtered, category);
    }

    var difficulty := (e: ExerciseDict) => e.difficultyLevel == Some(f.difficulty);
    FilterStep(exercises, filtered, e => UpToCategory(f, e), f.difficulty != "", difficulty, e => Matches(f, e));
    if f.difficulty != "" {
      filtered := Filter(filtered, difficulty);
    }
  }

  /** What is shown is exactly the exercises that pass every active
      criterion, in their original order. */
  lemma ShownMeansMatches(exercises: seq<ExerciseDict>, f: ExerciseFilters)
    ensures SubsequenceOf(Shown(exercises, f), exercises)
    ensures forall i :: 0 <= i < |exercises| ==> (exercises[i] in Shown(exercises, f) <==> Matches(f, exercises[i]))
  {
    FilterIsSubsequence(exercises, e => Matches(f, e));
  }

  /** The criteria may be applied in any order: applying them in reverse
      (difficulty, then category, then search) shows the same exercises. */
  lemma OrderOfCriteriaIrrelevant(exercises: seq<ExerciseDict>, f: ExerciseFilters)
    ensures var search := (e: ExerciseDict) => f.search == "" || MatchesSearch(e, f.search);
            var category := (e: ExerciseDict) => f.category == "" || e.category == f.category;
            var difficulty := (e: ExerciseDict) => f.difficulty == "" || e.difficultyLevel == Some(f.difficulty);
            Filter(Filter(Filter(exercises, difficulty), category), search) == Shown(exercises, f)
  {
    var search := (e: ExerciseDict) => f.search == "" || MatchesSearch(e, f.search);
    var category := (e: ExerciseDict) => f.category == "" || e.category == f.category;
    var difficulty := (e: ExerciseDict) => f.difficulty == "" || e.difficultyLevel == Some(f.difficulty);
    var both := (e: ExerciseDict) => difficulty(e) && category(e);
    FilterThenFilter(exercises, difficulty, category, both);
    FilterThenFilter(exercises, both, search, e => Matches(f, e));
  }

  /** With nothing set, every exercise is shown. */
  lemma NoFiltersShowAll(exercises: seq<ExerciseDict>)
    ensures Shown(exercises, NoFilters) == exercises
  {
    FilterKeepsAll(exercises, e => Matches(NoFilters, e));
  }

  /** Narrowing the category or the difficulty of a filter only removes
      exercises: the result under more criteria is drawn from the result
      under fewer. */
  lemma MoreCriteriaShowFewer(exercises: seq<ExerciseDict>, f: ExerciseFilters, e: ExerciseDict)
    requires e in Shown(exercises, f)
    ensures e in Shown(exercises, f.(difficulty := ""))
    ensures e in Shown(exercises, f.(category := ""))
  {
    var i :| 0 <= i < |exercises| && exercises[i] == e;
  }

  /** The page's state. */
  class Page {
    var exercises: seq<ExerciseDict>
    var filteredExercises: seq<ExerciseDict>
    var searchTerm: string
    var categoryFilter: string
    var difficultyFilter: string

    function Filters(): ExerciseFilters
      reads this
    {
      ExerciseFilters(searchTerm, categoryFilter, difficultyFilter)
    }

    constructor (exercises: seq<ExerciseDict>)
      ensures this.exercises == exercises && Filters() == NoFilters
      ensures filteredExercises == exercises
    {
      this.exercises := exercises;
      filteredExercises := exercises;
      searchTerm, categoryFilter, difficultyFilter := "", "", "";
      NoFiltersShowAll(exercises);
    }

    /** The filter effect, rerun after any criterion or the list changes. */
    method ApplyFilters()
      modifies this
      ensures filteredExercises == Shown(exercises, Filters())
      ensures exercises == old(exercises) && Filters() == old(Filters())
    {
      filteredExercises := FilterExercises(exercises, Filters());
    }

    /** `clearFilters` (lines 68-72), followed by the effect: every exercise shown. */
    method ClearFilters()
      modifies this
      ensures Filters() == NoFilters
      ensures exercises == old(exercises) && filteredExercises == exercises
    {
      searchTerm := "";
      categoryFilter := "";
      difficultyFilter := "";
      ApplyFilters();
      NoFiltersShowAll(exercises);
    }
  }
}
