/** The workout history page (client/src/pages/Workouts.js): a search box over
    the user's workouts, and deletion after confirmation. */
module WorkoutsPage {
  import opened Wrappers
  import opened Text
  import opened Seqs
  import opened Models

  /** The search predicate (lines 28-29): the term in the name or in a
      (non-empty) description, ignoring case. */
  predicate MatchesSearch(w: WorkoutDict, term: string) {
    Mentions(w.name, term) ||
    (w.description.Some? && w.description.value != [] && Mentions(w.description.value, term))
  }

  /** The search effect (lines 25-32): the workouts matching the term, in order. */
  function SearchWorkouts(workouts: seq<WorkoutDict>, term: string): (r: seq<WorkoutDict>)
    ensures forall i :: 0 <= i < |workouts| ==> (workouts[i] in r <==> MatchesSearch(workouts[i], term))
    ensures forall i :: 0 <= i < |r| ==> r[i] in workouts && MatchesSearch(r[i], term)
  {
    Filter(workouts, w => MatchesSearch(w, term))
  }

  /** The search keeps the workouts' order. */
  lemma SearchKeepsOrder(workouts: seq<WorkoutDict>, term: string)
    ensures SubsequenceOf(SearchWorkouts(workouts, term), workouts)
  {
    FilterIsSubsequence(workouts, w => MatchesSearch(w, term));
  }

  /** An empty search term shows every workout (the initial state). */
  lemma EmptySearchShowsAll(workouts: seq<WorkoutDict>)
    ensures SearchWorkouts(workouts, "") == workouts
  {
    forall i | 0 <= i < |workouts| ensures MatchesSearch(workouts[i], "") {
      MentionsEmpty(workouts[i].name);
    }
    FilterKeepsAll(workouts, w => MatchesSearch(w, ""));
  }

  /** `workouts.filter(w => w.id !== workoutId)`. */
  function WithoutWorkout(workouts: seq<WorkoutDict>, id: int): (r: seq<WorkoutDict>)
    ensures forall i :: 0 <= i < |r| ==> r[i].id != id
    ensures forall i :: 0 <= i < |workouts| ==> (workouts[i] in r <==> workouts[i].id != id)
  {
    Filter(workouts, (w: WorkoutDict) => w.id != id)
  }

  /** Deleting an id nobody has changes nothing; deleting twice is deleting once. */
  lemma WithoutWorkoutProperties(workouts: seq<WorkoutDict>, id: int)
    ensures (forall i :: 0 <= i < |workouts| ==> workouts[i].id != id) ==> WithoutWorkout(workouts, id) == workouts
    ensures WithoutWorkout(WithoutWorkout(workouts, id), id) == WithoutWorkout(workouts, id)
    ensures SubsequenceOf(WithoutWorkout(workouts, id), workouts)
  {
    var p := (w: WorkoutDict) => w.id != id;
    if forall i :: 0 <= i < |workouts| ==> workouts[i].id != id {
      FilterKeepsAll(workouts, p);
    }
    FilterKeepsAll(WithoutWorkout(workouts, id), p);
    FilterIsSubsequence(workouts, p);
  }

  /** A deletion removes exactly the workouts with that id: every other
      workout survives, in its place relative to the others. */
  lemma DeleteRemovesOnlyThatId(workouts: seq<WorkoutDict>, id: int, w: WorkoutDict)
    requires w in workouts
    ensures w in WithoutWorkout(workouts, id) <==> w.id != id
  {
    var i :| 0 <= i < |workouts| && workouts[i] == w;
  }

  /** Whether the server call succeeded. */
  datatype CallOutcome = Succeeded | Failed

  /** The page's state. */
  class Page {
    var workouts: seq<WorkoutDict>
    var filteredWorkouts: seq<WorkoutDict>
    var searchTerm: string

    constructor (workouts: seq<WorkoutDict>)
      ensures this.workouts == workouts && searchTerm == "" && filteredWorkouts == workouts
    {
      this.workouts := workouts;
      searchTerm := "";
      filteredWorkouts := workouts;
      EmptySearchShowsAll(workouts);
    }

    /** The search effect, rerun after the term or the list changes. */
    method ApplySearch()
      modifies this
      ensures filteredWorkouts == SearchWorkouts(workouts, searchTerm)
      ensures workouts == old(workouts) && searchTerm == old(searchTerm)
    {
      filteredWorkouts := SearchWorkouts(workouts, searchTerm);
    }

    /** `handleDeleteWorkout` (lines 45-55): only when the user confirms and
        the server accepts the deletion is the workout dropped from the list
        (and the search re-applied); a refusal or a failed call changes
        nothing, and `alerted` reports the failure. */
    method DeleteWorkout(id: int, confirmed: bool, outcome: CallOutcome) returns (alerted: bool)
      modifies this
      ensures confirmed && outcome == Succeeded ==>
                workouts == WithoutWorkout(old(workouts), id) &&
                filteredWorkouts == SearchWorkouts(workouts, searchTerm)
      ensures !(confirmed && outcome == Succeeded) ==>
                workouts == old(workouts) && filteredWorkouts == old(filteredWorkouts)
      ensures searchTerm == old(searchTerm)
      ensures alerted <==> confirmed && outcome == Failed
    {
      alerted := false;
      if confirmed {
        if outcome == Succeeded {
          workouts := WithoutWorkout(workouts, id);
          ApplySearch();
        } else {
          alerted := true;
        }
      }
    }
  }
}
