/** What a template card displays (frontend/src/components/WorkoutTemplateCard.js):
    the difficulty colour, the first target muscle groups with a "+N" badge
    for the rest, the exercise count and the calories label. */
module TemplateCard {
  import opened Wrappers
  import opened Text
  import opened Models

  const Green := "#22c55e"
  const Amber := "#f59e0b"
  const Red := "#ef4444"
  const Grey := "#6b7280"

  /** `getDifficultyColor` (lines 7-14): each known difficulty has its own
      colour, and everything else is grey. */
  function DifficultyColor(difficulty: string): (colour: string)
    ensures colour in {Green, Amber, Red, Grey}
    ensures colour == Grey <==> difficulty !in {"beginner", "intermediate", "advanced"}
    ensures difficulty == "beginner" <==> colour == Green
    ensures difficulty == "intermediate" <==> colour == Amber
    ensures difficulty == "advanced" <==> colour == Red
  {
    match difficulty
    case "beginner" => Green
    case "intermediate" => Amber
    case "advanced" => Red
    case _ => Grey
  }

  /** How many muscle tags a card shows before the badge. */
  const MaxTags: nat := 3

  /** Whether the "Target" block is rendered (line 68): only for a non-empty list. */
  predicate ShowsMuscleGroups(groups: seq<string>) {
    |groups| > 0
  }

  /** `groups.slice(0, 3).map(m => m.trim())` (lines 72-76): the first three
      groups, or all if fewer, each trimmed, in order. */
  function ShownTags(groups: seq<string>): (tags: seq<string>)
    ensures |tags| == if |groups| < MaxTags then |groups| else MaxTags
    ensures forall i :: 0 <= i < |tags| ==> tags[i] == Trim(groups[i])
  {
    var n := if |groups| < MaxTags then |groups| else MaxTags;
    seq(n, i requires 0 <= i < n => Trim(groups[i]))
  }

  /** The "+N" badge (lines 77-81), present only when there are more than
      three groups. */
  function OverflowBadge(groups: seq<string>): (badge: Option<string>)
    ensures badge.Some? <==> |groups| > MaxTags
    ensures badge.Some? ==> |badge.value| >= 2 && badge.value[0] == '+'
  {
    if |groups| > MaxTags then Some("+" + NatToString(|groups| - MaxTags)) else None
  }

  /** The shown tags and the number on the badge account for every group. */
  lemma TagsAndBadgeCoverAll(groups: seq<string>)
    ensures var badge := OverflowBadge(groups);
            |ShownTags(groups)| + (if badge.Some? then ParseInt(badge.value[1..]).GetOr(0) else 0) == |groups|
  {
    if |groups| > MaxTags {
      var digits := NatToString(|groups| - MaxTags);
      ParseIntOfDigits(digits);
      assert OverflowBadge(groups).value[1..] == digits;
    }
  }

  /** The exercise count (line 97): the contract is the rule shown on the
      card, the list's length, or 0 without an exercise list. */
  function ExerciseCount(exercises: Option<seq<TemplateExerciseDict>>): (n: nat)
    ensures exercises.None? ==> n == 0
    ensures exercises.Some? ==> n == |exercises.value|
  {
    if exercises.Some? then |exercises.value| else 0
  }

  /** `estimated_calories || 'N/A'` (line 60): the number, or "N/A" when it
      is missing or zero. */
  function CaloriesLabel(calories: Option<int>): (shown: string)
    ensures shown == "N/A" <==> calories.None? || calories.value == 0
    ensures shown != "N/A" ==> ParseInt(shown) == calories
  {
    if calories.None? || calories.value == 0 then "N/A"
    else
      ParseIntOfDecimal(calories.value);
      assert IntToString(calories.value)[0] != 'N';
      IntToString(calories.value)
  }
}
