/** The template browser (client/src/pages/WorkoutTemplates.js): a search box and
    four filters narrow the fetched templates, and the active filters are
    counted for a badge. */
module WorkoutTemplates {
  import opened Wrappers
  import opened Text
  import opened Seqs
  import opened Models

  /** The five criteria: `searchTerm`, `categoryFilter`, `difficultyFilter`,
      `durationFilter` and `muscleGroupFilter`; `""` means "not set". */
  datatype TemplateFilters = TemplateFilters(
    search: string, category: string, difficulty: string, duration: string, muscleGroup: string)

  const NoFilters: TemplateFilters := TemplateFilters("", "", "", "", "")

  // ---------------------------------------------------------------------------
  // duration buckets

  /** An entry of the `durations` table: `min` and `max` are optional bounds. */
  datatype DurationBucket = DurationBucket(value: string, min: Option<int>, max: Option<int>)

  const Durations: seq<DurationBucket> := [
    DurationBucket("quick", None, Some(30)),
    DurationBucket("medium", Some(30), Some(60)),
    DurationBucket("long", Some(60), None)
  ]

  /** `durations.find(d => d.value === v)`. */
  function FindBucket(buckets: seq<DurationBucket>, v: string): (r: Option<DurationBucket>)
    ensures r.Some? ==> r.value in buckets && r.value.value == v
    ensures r.None? ==> forall i :: 0 <= i < |buckets| ==> buckets[i].value != v
  {
    if buckets == [] then None
    else if buckets[0].value == v then Some(buckets[0])
    else FindBucket(buckets[1..], v)
  }

  /** JavaScript truthiness of an optional number. */
  predicate Truthy(o: Option<int>) {
    o.Some? && o.value != 0
  }

  /** The bucket test of lines 64-74: both bounds inclusive, an upper bound
      alone strict, a lower bound alone strict. */
  predicate InBucket(b: DurationBucket, d: int) {
    if Truthy(b.min) && Truthy(b.max) then b.min.value <= d <= b.max.value
    else if Truthy(b.max) then d < b.max.value
    else if Truthy(b.min) then d > b.min.value
    else true
  }

  /** Whether a template of `d` minutes passes the duration filter `filter`:
      quick is under 30, medium 30 to 60 inclusive, long over 60; an unset or
      unknown filter lets everything through.  So 30 and 60 are medium only. */
  predicate DurationOk(filter: string, d: int)
    ensures filter == "quick" ==> (DurationOk(filter, d) <==> d < 30)
    ensures filter == "medium" ==> (DurationOk(filter, d) <==> 30 <= d <= 60)
    ensures filter == "long" ==> (DurationOk(filter, d) <==> d > 60)
    ensures filter != "quick" && filter != "medium" && filter != "long" ==> DurationOk(filter, d)
  {
    filter == "" ||
    var b := FindBucket(Durations, filter);
    b.None? || InBucket(b.value, d)
  }

  // ---------------------------------------------------------------------------
  // the predicates of the chain

  /** The search predicate (lines 44-50): the term in the name, in a
      (non-empty) description or in one of the target muscle groups. */
  predicate MatchesSearch(t: TemplateDict, term: string) {
    Mentions(t.name, term) ||
    (t.description.Some? && t.description.value != [] && Mentions(t.description.value, term)) ||
    (exists g :: g in t.targetMuscleGroups && Mentions(g, term))
  }

  /** The muscle-group predicate (lines 79-84): some target group contains the filter. */
  predicate MatchesMuscleGroup(t: TemplateDict, group: string) {
    exists g :: g in t.targetMuscleGroups && Mentions(g, group)
  }

  /** The criteria applied so far after each stage of the chain. */
  predicate UpToSearch(f: TemplateFilters, t: TemplateDict) {
    f.search == "" || MatchesSearch(t, f.search)
  }

  predicate UpToCategory(f: TemplateFilters, t: TemplateDict) {
    UpToSearch(f, t) && (f.category == "" || t.category == f.category)
  }

  predicate UpToDifficulty(f: TemplateFilters, t: TemplateDict) {
    UpToCategory(f, t) && (f.difficulty == "" || t.difficultyLevel == f.difficulty)
  }

  predicate UpToDuration(f: TemplateFilters, t: TemplateDict) {
    UpToDifficulty(f, t) && DurationOk(f.duration, t.estimatedDurationMinutes)
  }

  /** A template passes every active criterion. */
  predicate Matches(f: TemplateFilters, t: TemplateDict) {
    UpToDuration(f, t) && (f.muscleGroup == "" || MatchesMuscleGroup(t, f.muscleGroup))
  }

  /** The filter effect (lines 39-88): start from all templates and narrow them
      by each criterion that is set.  The result is the templates that pass
      every active criterion, in their original order. */
  method FilterTemplates(templates: seq<TemplateDict>, f: TemplateFilters) returns (filtered: seq<TemplateDict>)
    ensures filtered == Shown(templates, f)
  {
    FilterKeepsAll(templates, t => true);
    filtered := templates;

    var search := (t: TemplateDict) => MatchesSearch(t, f.search);
    FilterStep(templates, filtered, t => true, f.search != "", search, t => UpToSearch(f, t));
    if f.search != "" {
      filtered := Filter(filtered, search);
    }

    var category := (t: TemplateDict) => t.category == f.category;
    FilterStep(templates, filtered, t => UpToSearch(f, t), f.category != "", category, t => UpToCategory(f, t));
    if f.category != "" {
      filtered := Filter(filtered, category);
    }

    var difficulty := (t: TemplateDict) => t.difficultyLevel == f.difficulty;
    FilterStep(templates, filtered, t => UpToCategory(f, t), f.difficulty != "", difficulty, t => UpToDifficulty(f, t));
    if f.difficulty != "" {
      filtered := Filter(filtered, difficulty);
    }

    if f.duration != "" {
      var duration := FindBucket(Durations, f.duration);
      if duration.Some? {
        var b := duration.value;
        var inBucket := (t: TemplateDict) => InBucket(b, t.estimatedDurationMinutes);
        FilterStep(templates, filtered, t => UpToDifficulty(f, t), true, inBucket, t => UpToDuration(f, t));
        filtered := Filter(filtered, inBucket);
      } else {
        FilterStep(templates, filtered, t => UpToDifficulty(f, t), false, t => true, t => UpToDuration(f, t));
      }
    } else {
      FilterStep(templates, filtered, t => UpToDifficulty(f, t), false, t => true, t => UpToDuration(f, t));
    }

    var muscle := (t: TemplateDict) => MatchesMuscleGroup(t, f.muscleGroup);
    FilterStep(templates, filtered, t => UpToDuration(f, t), f.muscleGroup != "", muscle, t => Matches(f, t));
    if f.muscleGroup != "" {
      filtered := Filter(filtered, muscle);
    }
  }

  /** The templates the page shows for the criteria `f`. */
  function Shown(templates: seq<TemplateDict>, f: TemplateFilters): seq<TemplateDict> {
    Filter(templates, t => Matches(f, t))
  }

  /** What is shown is exactly the templates that pass every active
      criterion, in their original order. */
  lemma ShownMeansMatches(templates: seq<TemplateDict>, f: TemplateFilters)
    ensures SubsequenceOf(Shown(templates, f), templates)
    ensures forall i :: 0 <= i < |templates| ==> (templates[i] in Shown(templates, f) <==> Matches(f, templates[i]))
  {
    FilterIsSubsequence(templates, t => Matches(f, t));
  }

  /** With no search term and no filter set, every template is shown. */
  lemma NoFiltersShowAll(templates: seq<TemplateDict>)
    ensures Shown(templates, NoFilters) == templates
  {
    FilterKeepsAll(templates, t => Matches(NoFilters, t));
  }

  /** A search term keeps a template exactly when the term, lower-cased,
      occurs in its lower-cased name, description or a target muscle group. */
  lemma SearchOnly(templates: seq<TemplateDict>, term: string, t: TemplateDict)
    requires term != [] && t in templates
    ensures var f := NoFilters.(search := term);
            t in Shown(templates, f) <==>
              (exists k :: OccursAt(ToLower(t.name), ToLower(term), k)) ||
              (t.description.Some? &&
               exists k :: OccursAt(ToLower(t.description.value), ToLower(term), k)) ||
              (exists g, k :: g in t.targetMuscleGroups && OccursAt(ToLower(g), ToLower(term), k))
  {
    var f := NoFilters.(search := term);
    var i :| 0 <= i < |templates| && templates[i] == t;
    assert t in Shown(templates, f) <==> MatchesSearch(t, term);
    ContainsAt(ToLower(t.name), ToLower(term));
    if t.description.Some? {
      ContainsAt(ToLower(t.description.value), ToLower(term));
      if t.description.value == [] {
        assert |ToLower(term)| > 0;
        assert !exists k :: OccursAt(ToLower(t.description.value), ToLower(term), k);
      }
    }
    forall g | g in t.targetMuscleGroups {
      ContainsAt(ToLower(g), ToLower(term));
    }
  }

  /** Whatever the other criteria, a muscle-group filter hides every template
      without target muscle groups. */
  lemma MuscleFilterNeedsGroups(templates: seq<TemplateDict>, f: TemplateFilters, t: TemplateDict)
    requires f.muscleGroup != "" && t.targetMuscleGroups == []
    ensures t !in Shown(templates, f)
  {
    assert !Matches(f, t);
  }

  /** `getActiveFiltersCount`: how many of category, difficulty, duration and
      muscle group are set; the search term is not counted. */
  method ActiveFiltersCount(f: TemplateFilters) returns (count: nat)
    ensures count == |Filter([f.category, f.difficulty, f.duration, f.muscleGroup], (x: string) => x != "")|
    ensures count <= 4
    ensures count == 0 <==> f.category == "" && f.difficulty == "" && f.duration == "" && f.muscleGroup == ""
  {
    ghost var nonEmpty := (x: string) => x != "";
    FilterCons(f.muscleGroup, [], nonEmpty);
    FilterCons(f.duration, [f.muscleGroup], nonEmpty);
    FilterCons(f.difficulty, [f.duration, f.muscleGroup], nonEmpty);
    FilterCons(f.category, [f.difficulty, f.duration, f.muscleGroup], nonEmpty);
    assert [f.muscleGroup] == [f.muscleGroup] + [];
    ghost var flag := (x: string) => if x != "" then 1 else 0;
    assert |Filter([f.category, f.difficulty, f.duration, f.muscleGroup], nonEmpty)|
        == flag(f.category) + flag(f.difficulty) + flag(f.duration) + flag(f.muscleGroup);
    count := 0;
    if f.category != "" { count := count + 1; }
    if f.difficulty != "" { count := count + 1; }
    if f.duration != "" { count := count + 1; }
    if f.muscleGroup != "" { count := count + 1; }
  }

  /** The page's state. */
  class TemplatesPage {
    var templates: seq<TemplateDict>
    var filteredTemplates: seq<TemplateDict>
    var searchTerm: string
    var categoryFilter: string
    var difficultyFilter: string
    var durationFilter: string
    var muscleGroupFilter: string

    function Filters(): TemplateFilters
      reads this
    {
      TemplateFilters(searchTerm, categoryFilter, difficultyFilter, durationFilter, muscleGroupFilter)
    }

    constructor (templates: seq<TemplateDict>)
      ensures this.templates == templates && Filters() == NoFilters
      ensures filteredTemplates == templates
    {
      this.templates := templates;
      filteredTemplates := templates;
      searchTerm, categoryFilter, difficultyFilter, durationFilter, muscleGroupFilter := "", "", "", "", "";
      NoFiltersShowAll(templates);
    }

    /** The filter effect, rerun after any criterion or the list changes. */
    method ApplyFilters()
      modifies this
      ensures filteredTemplates == Shown(templates, Filters())
      ensures templates == old(templates) && Filters() == old(Filters())
    {
      filteredTemplates := FilterTemplates(templates, Filters());
    }

    /** `clearFilters`: all five criteria unset; the effect then shows every template. */
    method ClearFilters()
      modifies this
      ensures Filters() == NoFilters
      ensures templates == old(templates) && filteredTemplates == templates
    {
      searchTerm := "";
      categoryFilter := "";
      difficultyFilter := "";
      durationFilter := "";
      muscleGroupFilter := "";
      ApplyFilters();
      NoFiltersShowAll(templates);
    }
  }
}
