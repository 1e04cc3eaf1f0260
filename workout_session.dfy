/** The guided workout session (frontend/src/pages/WorkoutSession.js): a timer
    over the exercises of a template that alternates between exercising and
    resting.  The React state becomes the fields of class `Session`; each
    handler and the once-a-second interval callback becomes a method.  The pure
    transition functions below (`Step` and its cases) are the specification the
    methods are proved against, and they let the lemmas speak about whole runs
    of user actions and timer ticks. */
module WorkoutSession {
  import opened Wrappers
  import opened Text
  import opened Models

  /** Rest used when an exercise has no (or a zero) `rest_seconds`. */
  const FallbackRestSeconds: int := 60

  /** `currentExercise.rest_seconds || 60`. */
  function RestAfter(e: TemplateExerciseDict): (r: int)
    ensures e.restSeconds.None? || e.restSeconds.value == 0 ==> r == FallbackRestSeconds
    ensures e.restSeconds.Some? && e.restSeconds.value != 0 ==> r == e.restSeconds.value
    ensures r != 0
  {
    if e.restSeconds.Some? && e.restSeconds.value != 0 then e.restSeconds.value else FallbackRestSeconds
  }

  // ---------------------------------------------------------------------------
  // formatTime

  /** JavaScript's `%` on integers: division truncates toward zero, so the
      remainder takes the sign of the dividend. */
  function JsRemainder(a: int, b: int): (r: int)
    requires b > 0
    ensures exists q :: a == q * b + r
    ensures a >= 0 ==> 0 <= r < b
    ensures a < 0 ==> -b < r <= 0
  {
    var r := if a >= 0 then a % b else -((-a) % b);
    if a >= 0 then
      assert a == (a / b) * b + r;
      r
    else
      assert a == (-((-a) / b)) * b + r;
      r
  }

  /** A two-digit field of `formatTime` reads back as the number it shows. */
  lemma TwoDigits(n: nat)
    requires n < 100
    ensures |PadStart(NatToString(n), 2, '0')| == 2
    ensures AllDigits(PadStart(NatToString(n), 2, '0'))
    ensures DigitsValue(PadStart(NatToString(n), 2, '0')) == n
  {
    var p := PadStart(NatToString(n), 2, '0');
    if n < 10 {
      assert p == ['0'] + NatToString(n);
      assert p[..1] == ['0'];
    }
  }

  /** `formatTime(seconds)`: minutes `Math.floor(seconds / 60)` and seconds
      `seconds % 60`, each padded to two digits with zeros, joined by a colon.
      From 0 up to 99:59 the text is "mm:ss" and reads back as `seconds`. */
  function FormatTime(seconds: int): (r: string)
    ensures 0 <= seconds < 6000 ==>
              |r| == 5 && r[2] == ':' && AllDigits(r[..2]) && AllDigits(r[3..]) &&
              DigitsValue(r[3..]) < 60 &&
              DigitsValue(r[..2]) * 60 + DigitsValue(r[3..]) == seconds
    ensures seconds >= 6000 ==> |r| > 5
  {
    var mins := seconds / 60;   // Euclidean division by a positive divisor is Math.floor
    var secs := JsRemainder(seconds, 60);
    var mm := PadStart(IntToString(mins), 2, '0');
    var ss := PadStart(IntToString(secs), 2, '0');
    var r := mm + ":" + ss;
    if 0 <= seconds < 6000 then
      TwoDigits(mins);
      TwoDigits(secs);
      assert r[..2] == mm && r[3..] == ss;
      r
    else
      r
  }

  // ---------------------------------------------------------------------------
  // the state machine, as pure transitions

  /** The session's React state: `currentExerciseIndex`, `isRunning`,
      `exerciseTime`, `restTime`, `isResting`, `completedExercises` and
      `workoutStartTime`. */
  datatype SessionState = SessionState(
    index: int, running: bool, exerciseTime: int, restTime: int, resting: bool,
    completed: set<int>, startTime: Option<int>)

  const Initial: SessionState := SessionState(0, false, 0, 0, false, {}, None)

  /** The index is a valid position (0 when there are no exercises), the
      exercise timer is not negative and only valid positions are completed. */
  predicate WellFormed(n: nat, s: SessionState) {
    0 <= s.index && (n == 0 ==> s.index == 0) && (n > 0 ==> s.index < n) &&
    0 <= s.exerciseTime &&
    forall i :: i in s.completed ==> 0 <= i < n
  }

  datatype Action = Start(now: int) | Pause | Stop | CompleteCurrent | SkipToNext | SkipRest | Tick

  /** The interval callback (lines 40-57): nothing while paused; while resting
      the countdown drops by one and, at 1 or below, rest ends at 0 WITHOUT
      moving to another exercise; otherwise the exercise timer counts up. */
  function Ticked(s: SessionState): SessionState {
    if !s.running then s
    else if s.resting then
      if s.restTime <= 1 then s.(resting := false, restTime := 0)
      else s.(restTime := s.restTime - 1)
    else s.(exerciseTime := s.exerciseTime + 1)
  }

  /** `startWorkout`: running, and the start time recorded unless one is set. */
  function Started(s: SessionState, now: int): SessionState {
    s.(running := true,
       startTime := if s.startTime.None? || s.startTime.value == 0 then Some(now) else s.startTime)
  }

  /** `stopWorkout`: not running, both timers 0, not resting. */
  function Stopped(s: SessionState): SessionState {
    s.(running := false, exerciseTime := 0, restTime := 0, resting := false)
  }

  /** `completeCurrentExercise`: marks the current exercise; before the last
      one it starts the rest period, on the last one it stops the timer. */
  function CompletedCurrent(exs: seq<TemplateExerciseDict>, s: SessionState): SessionState {
    if !(0 <= s.index < |exs|) then s
    else
      var marked := s.(completed := s.completed + {s.index});
      if s.index < |exs| - 1 then
        marked.(restTime := RestAfter(exs[s.index]), resting := true, exerciseTime := 0)
      else
        marked.(running := false, exerciseTime := 0)
  }

  /** `skipToNextExercise`: one exercise on, timers reset, unless on the last. */
  function SkippedToNext(exs: seq<TemplateExerciseDict>, s: SessionState): SessionState {
    if s.index < |exs| - 1 then s.(index := s.index + 1, exerciseTime := 0, restTime := 0, resting := false)
    else s
  }

  /** `skipRest`: rest cleared, then `skipToNextExercise`. */
  function RestSkipped(exs: seq<TemplateExerciseDict>, s: SessionState): SessionState {
    SkippedToNext(exs, s.(resting := false, restTime := 0))
  }

  /** One user action or timer tick.  Every step keeps the state well formed,
      never forgets a completed exercise and never moves the index backwards;
      it moves forward by at most one, and only by skipping. */
  function Step(exs: seq<TemplateExerciseDict>, s: SessionState, a: Action): (r: SessionState)
    ensures WellFormed(|exs|, s) ==> WellFormed(|exs|, r)
    ensures s.completed <= r.completed
    ensures r.index == s.index || (r.index == s.index + 1 && (a.SkipToNext? || a.SkipRest?))
  {
    match a
    case Start(now) => Started(s, now)
    case Pause => s.(running := false)
    case Stop => Stopped(s)
    case CompleteCurrent => CompletedCurrent(exs, s)
    case SkipToNext => SkippedToNext(exs, s)
    case SkipRest => RestSkipped(exs, s)
    case Tick => Ticked(s)
  }

  /** The state after a sequence of actions. */
  function Run(exs: seq<TemplateExerciseDict>, s: SessionState, actions: seq<Action>): SessionState
    decreases |actions|
  {
    if actions == [] then s else Run(exs, Step(exs, s, actions[0]), actions[1..])
  }

  /** `isWorkoutComplete`: as many completed indices as template exercises. */
  predicate IsComplete(exs: seq<TemplateExerciseDict>, s: SessionState) {
    |s.completed| == |exs|
  }

  // ---------------------------------------------------------------------------
  // properties of the machine

  /** Along any run the state stays well formed, completed exercises stay
      completed and the index never decreases. */
  lemma {:induction false} RunInvariant(exs: seq<TemplateExerciseDict>, s: SessionState, actions: seq<Action>)
    requires WellFormed(|exs|, s)
    ensures WellFormed(|exs|, Run(exs, s, actions))
    ensures s.completed <= Run(exs, s, actions).completed
    ensures s.index <= Run(exs, s, actions).index
    decreases |actions|
  {
    if actions != [] {
      RunInvariant(exs, Step(exs, s, actions[0]), actions[1..]);
    }
  }

  function Range(n: nat): (r: set<int>)
    ensures forall i :: i in r <==> 0 <= i < n
    ensures |r| == n
  {
    if n == 0 then {}
    else
      var r := Range(n - 1) + {n - 1};
      assert n - 1 !in Range(n - 1);
      r
  }

  /** A subset of `[0, n)` with `n` elements is all of `[0, n)`. */
  lemma FullSubset(a: set<int>, n: nat)
    requires forall i :: i in a ==> 0 <= i < n
    requires |a| == n
    ensures forall i :: 0 <= i < n ==> i in a
  {
    var whole := Range(n);
    assert a <= whole;
    assert |whole - a| == |whole| - |a|;
    assert whole - a == {};
    forall i | 0 <= i < n ensures i in a {
      assert i in whole;
      assert i !in whole - a;
    }
  }

  /** In a well-formed state the workout counts as complete exactly when
      every exercise index has been completed. */
  lemma CompleteMeansAllDone(exs: seq<TemplateExerciseDict>, s: SessionState)
    requires WellFormed(|exs|, s)
    ensures IsComplete(exs, s) <==> forall i :: 0 <= i < |exs| ==> i in s.completed
  {
    if IsComplete(exs, s) {
      FullSubset(s.completed, |exs|);
    }
    if forall i :: 0 <= i < |exs| ==> i in s.completed {
      assert s.completed == Range(|exs|);
    }
  }

  function Ticks(k: nat): (r: seq<Action>)
    ensures |r| == k && forall i :: 0 <= i < k ==> r[i] == Tick
  {
    seq(k, _ => Tick)
  }

  /** While counting down, a rest of `k` seconds ends after `k` ticks (one
      tick when it is already at 1 or below) with the timer at 0, and the
      session is still on the same exercise with the same completed set. */
  lemma {:induction false} RestRunsOut(exs: seq<TemplateExerciseDict>, s: SessionState, k: nat)
    requires s.running && s.resting && k >= 1
    requires if k == 1 then s.restTime <= 1 else s.restTime == k
    ensures Run(exs, s, Ticks(k)) == s.(resting := false, restTime := 0)
    decreases k
  {
    var next := Step(exs, s, Tick);
    assert Ticks(k)[1..] == Ticks(k - 1);
    if k == 1 {
      assert Ticks(0) == [];
    } else {
      RestRunsOut(exs, next, k - 1);
    }
  }

  /** Complete, pause, start, stop and the timer never change the index. */
  predicate NoSkip(actions: seq<Action>) {
    forall i :: 0 <= i < |actions| ==> !actions[i].SkipToNext? && !actions[i].SkipRest?
  }

  /** Without the skip buttons a session never leaves the exercise it is on,
      so at most that one exercise is ever completed. */
  lemma {:induction false} NoSkipStaysPut(exs: seq<TemplateExerciseDict>, s: SessionState, actions: seq<Action>)
    requires WellFormed(|exs|, s) && NoSkip(actions)
    ensures Run(exs, s, actions).index == s.index
    ensures Run(exs, s, actions).completed <= s.completed + {s.index}
    decreases |actions|
  {
    if actions != [] {
      var next := Step(exs, s, actions[0]);
      assert next.index == s.index;
      assert next.completed <= s.completed + {s.index};
      assert NoSkip(actions[1..]) by {
        forall i | 0 <= i < |actions[1..]| ensures !actions[1..][i].SkipToNext? && !actions[1..][i].SkipRest? {
          assert actions[1..][i] == actions[i + 1];
        }
      }
      NoSkipStaysPut(exs, next, actions[1..]);
    }
  }

  // ---------------------------------------------------------------------------
  // the guided run: complete each exercise and wait out each rest period

  /** Ticks needed for the rest after `e` to run out. */
  function RestTicks(e: TemplateExerciseDict): (k: nat)
    ensures k >= 1 && (if k == 1 then RestAfter(e) <= 1 else RestAfter(e) == k)
  {
    if RestAfter(e) <= 1 then 1 else RestAfter(e)
  }

  /** From exercise `i` on: press "Complete Exercise", then let the rest
      countdown expire; on the last exercise only complete it. */
  function GuidedFrom(exs: seq<TemplateExerciseDict>, i: nat): seq<Action>
    decreases |exs| - i
  {
    if i >= |exs| then []
    else if i == |exs| - 1 then [CompleteCurrent]
    else [CompleteCurrent] + Ticks(RestTicks(exs[i])) + GuidedFrom(exs, i + 1)
  }

  lemma {:induction false} GuidedFromNoSkip(exs: seq<TemplateExerciseDict>, i: nat)
    ensures NoSkip(GuidedFrom(exs, i))
    decreases |exs| - i
  {
    if i < |exs| - 1 {
      GuidedFromNoSkip(exs, i + 1);
      var g := GuidedFrom(exs, i);
      var t := Ticks(RestTicks(exs[i]));
      forall j | 0 <= j < |g| ensures !g[j].SkipToNext? && !g[j].SkipRest? {
        if j == 0 {
        } else if j <= |t| {
          assert g[j] == t[j - 1];
        } else {
          assert g[j] == GuidedFrom(exs, i + 1)[j - 1 - |t|];
        }
      }
    }
  }

  /** As the code is written, the guided run never completes a template of
      two or more exercises: when a rest runs out the session stays on the
      exercise just completed, and completing it again adds nothing. */
  lemma GuidedRunStalls(exs: seq<TemplateExerciseDict>, now: int)
    requires |exs| >= 2
    ensures !IsComplete(exs, Run(exs, Started(Initial, now), GuidedFrom(exs, 0)))
  {
    var s := Started(Initial, now);
    GuidedFromNoSkip(exs, 0);
    NoSkipStaysPut(exs, s, GuidedFrom(exs, 0));
    var final := Run(exs, s, GuidedFrom(exs, 0));
    assert final.completed <= {0};
    assert |final.completed| <= 1 by {
      if final.completed != {} {
        assert final.completed == {0};
      }
    }
  }

  // ---------------------------------------------------------------------------
  // the evidently intended tick: rest expiry moves on like "Skip Rest"

  /** The tick with the rest expiry of the "Skip Rest" button: when the
      countdown runs out the session moves to the next exercise. */
  function TickedIntended(exs: seq<TemplateExerciseDict>, s: SessionState): SessionState {
    if s.running && s.resting && s.restTime <= 1 then RestSkipped(exs, s) else Ticked(s)
  }

  function StepIntended(exs: seq<TemplateExerciseDict>, s: SessionState, a: Action): (r: SessionState)
    ensures WellFormed(|exs|, s) ==> WellFormed(|exs|, r)
    ensures s.completed <= r.completed
  {
    if a.Tick? then TickedIntended(exs, s) else Step(exs, s, a)
  }

  function RunIntended(exs: seq<TemplateExerciseDict>, s: SessionState, actions: seq<Action>): SessionState
    decreases |actions|
  {
    if actions == [] then s else RunIntended(exs, StepIntended(exs, s, actions[0]), actions[1..])
  }

  lemma {:induction false} RunIntendedAppend(exs: seq<TemplateExerciseDict>, s: SessionState, a: seq<Action>, b: seq<Action>)
    ensures RunIntended(exs, s, a + b) == RunIntended(exs, RunIntended(exs, s, a), b)
    decreases |a|
  {
    if a == [] {
      assert a + b == b;
    } else {
      assert (a + b)[0] == a[0] && (a + b)[1..] == a[1..] + b;
      RunIntendedAppend(exs, StepIntended(exs, s, a[0]), a[1..], b);
    }
  }

  /** With the intended tick the rest of `k` seconds ends with "Skip Rest". */
  lemma {:induction false} RestRunsOutIntended(exs: seq<TemplateExerciseDict>, s: SessionState, k: nat)
    requires s.running && s.resting && k >= 1
    requires if k == 1 then s.restTime <= 1 else s.restTime == k
    ensures RunIntended(exs, s, Ticks(k)) == RestSkipped(exs, s)
    decreases k
  {
    var next := StepIntended(exs, s, Tick);
    assert Ticks(k)[1..] == Ticks(k - 1);
    if k == 1 {
      assert Ticks(0) == [];
    } else {
      RestRunsOutIntended(exs, next, k - 1);
    }
  }

  /** With the intended tick one round of the guided run (complete, then
      wait out the rest) moves from exercise `i` to exercise `i + 1`. */
  lemma GuidedRoundIntended(exs: seq<TemplateExerciseDict>, s: SessionState, i: nat)
    requires i < |exs| - 1 && s.index == i && s.running && !s.resting
    requires s.completed == Range(i)
    ensures var r := RunIntended(exs, s, [CompleteCurrent] + Ticks(RestTicks(exs[i])));
            r.index == i + 1 && r.running && !r.resting && r.completed == Range(i + 1)
  {
    var t := Ticks(RestTicks(exs[i]));
    var c := StepIntended(exs, s, CompleteCurrent);
    assert c.completed == Range(i + 1);
    assert c.running && c.resting && c.restTime == RestAfter(exs[i]);
    assert ([CompleteCurrent] + t)[0] == CompleteCurrent && ([CompleteCurrent] + t)[1..] == t;
    assert RunIntended(exs, s, [CompleteCurrent] + t) == RunIntended(exs, c, t);
    RestRunsOutIntended(exs, c, RestTicks(exs[i]));
  }

  /** With the intended tick the guided run from exercise `i`, begun while
      running and with exactly the earlier exercises completed, completes
      every exercise. */
  lemma {:induction false} GuidedRunCompletesFrom(exs: seq<TemplateExerciseDict>, s: SessionState, i: nat)
    requires i < |exs| && s.index == i && s.running && !s.resting
    requires s.completed == Range(i)
    ensures RunIntended(exs, s, GuidedFrom(exs, i)).completed == Range(|exs|)
    decreases |exs| - i
  {
    if i == |exs| - 1 {
      var c := StepIntended(exs, s, CompleteCurrent);
      assert c.completed == Range(i + 1);
      assert GuidedFrom(exs, i) == [CompleteCurrent];
      assert RunIntended(exs, s, [CompleteCurrent]) == RunIntended(exs, c, []);
    } else {
      var round := [CompleteCurrent] + Ticks(RestTicks(exs[i]));
      assert GuidedFrom(exs, i) == round + GuidedFrom(exs, i + 1);
      RunIntendedAppend(exs, s, round, GuidedFrom(exs, i + 1));
      GuidedRoundIntended(exs, s, i);
      GuidedRunCompletesFrom(exs, RunIntended(exs, s, round), i + 1);
    }
  }

  /** With the intended tick, starting the workout and following the guided
      run completes it, whatever the number of exercises. */
  lemma GuidedRunCompletes(exs: seq<TemplateExerciseDict>, now: int)
    ensures IsComplete(exs, RunIntended(exs, Started(Initial, now), GuidedFrom(exs, 0)))
  {
    if |exs| > 0 {
      assert Range(0) == {};
      GuidedRunCompletesFrom(exs, Started(Initial, now), 0);
    }
  }

  // ---------------------------------------------------------------------------
  // the component's state

  class Session {
    /** `template.exercises`, fixed for the session. */
    const exercises: seq<TemplateExerciseDict>
    var currentExerciseIndex: int
    var isRunning: bool
    var exerciseTime: int
    var restTime: int
    var isResting: bool
    var completedExercises: set<int>
    var workoutStartTime: Option<int>

    function State(): SessionState
      reads this
    {
      SessionState(currentExerciseIndex, isRunning, exerciseTime, restTime, isResting,
                   completedExercises, workoutStartTime)
    }

    ghost predicate Valid()
      reads this
    {
      WellFormed(|exercises|, State())
    }

    /** The `useState` initial values. */
    constructor (exercises: seq<TemplateExerciseDict>)
      ensures this.exercises == exercises
      ensures State() == Initial && Valid()
    {
      this.exercises := exercises;
      currentExerciseIndex := 0;
      isRunning := false;
      exerciseTime := 0;
      restTime := 0;
      isResting := false;
      completedExercises := {};
      workoutStartTime := None;
    }

    /** One firing of the one-second interval. */
    method Tick()
      requires Valid()
      modifies this
      ensures Valid() && State() == Ticked(old(State()))
      ensures currentExerciseIndex == old(currentExerciseIndex)
      ensures completedExercises == old(completedExercises) && isRunning == old(isRunning)
      ensures !old(isRunning) ==> State() == old(State())
      ensures old(isRunning) && !old(isResting) ==>
                exerciseTime == old(exerciseTime) + 1 && restTime == old(restTime) && !isResting
      ensures old(isRunning) && old(isResting) && old(restTime) > 1 ==>
                restTime == old(restTime) - 1 && isResting && exerciseTime == old(exerciseTime)
      ensures old(isRunning) && old(isResting) && old(restTime) <= 1 ==>
                restTime == 0 && !isResting && exerciseTime == old(exerciseTime)
    {
      if isRunning {
        if isResting {
          if restTime <= 1 {
            isResting := false;
            restTime := 0;
          } else {
            restTime := restTime - 1;
          }
        } else {
          exerciseTime := exerciseTime + 1;
        }
      }
    }

    /** `startWorkout`; `now` stands for `Date.now()`. */
    method StartWorkout(now: int)
      requires Valid()
      modifies this
      ensures Valid() && State() == Started(old(State()), now)
      ensures isRunning
      ensures (old(workoutStartTime).None? || old(workoutStartTime).value == 0) ==> workoutStartTime == Some(now)
      ensures !(old(workoutStartTime).None? || old(workoutStartTime).value == 0) ==> workoutStartTime == old(workoutStartTime)
    {
      isRunning := true;
      if workoutStartTime.None? || workoutStartTime.value == 0 {
        workoutStartTime := Some(now);
      }
    }

    /** `pauseWorkout`. */
    method PauseWorkout()
      requires Valid()
      modifies this
      ensures Valid() && State() == old(State()).(running := false)
    {
      isRunning := false;
    }

    /** `stopWorkout` (the navigation to the dashboard is not modelled). */
    method StopWorkout()
      requires Valid()
      modifies this
      ensures Valid() && State() == Stopped(old(State()))
      ensures !isRunning && exerciseTime == 0 && restTime == 0 && !isResting
      ensures currentExerciseIndex == old(currentExerciseIndex) && completedExercises == old(completedExercises)
    {
      isRunning := false;
      exerciseTime := 0;
      restTime := 0;
      isResting := false;
    }

    /** `completeCurrentExercise`. */
    method CompleteCurrentExercise()
      requires Valid()
      modifies this
      ensures Valid() && State() == CompletedCurrent(exercises, old(State()))
      ensures |exercises| == 0 ==> State() == old(State())
      ensures |exercises| > 0 ==> completedExercises == old(completedExercises) + {old(currentExerciseIndex)}
      ensures currentExerciseIndex == old(currentExerciseIndex)
      ensures old(currentExerciseIndex) < |exercises| - 1 ==>
                isResting && restTime == RestAfter(exercises[old(currentExerciseIndex)]) &&
                exerciseTime == 0 && isRunning == old(isRunning)
      ensures |exercises| > 0 && old(currentExerciseIndex) == |exercises| - 1 ==>
                !isRunning && exerciseTime == 0 && isResting == old(isResting) && restTime == old(restTime)
    {
      if !(0 <= currentExerciseIndex < |exercises|) {
        return;
      }
      completedExercises := completedExercises + {currentExerciseIndex};
      if currentExerciseIndex < |exercises| - 1 {
        var restSeconds := RestAfter(exercises[currentExerciseIndex]);
        restTime := restSeconds;
        isResting := true;
        exerciseTime := 0;
      } else {
        isRunning := false;
        exerciseTime := 0;
      }
    }

    /** `skipToNextExercise`. */
    method SkipToNextExercise()
      requires Valid()
      modifies this
      ensures Valid() && State() == SkippedToNext(exercises, old(State()))
      ensures old(currentExerciseIndex) < |exercises| - 1 ==>
                currentExerciseIndex == old(currentExerciseIndex) + 1 &&
                exerciseTime == 0 && restTime == 0 && !isResting
      ensures old(currentExerciseIndex) >= |exercises| - 1 ==> State() == old(State())
      ensures completedExercises == old(completedExercises) && isRunning == old(isRunning)
    {
      if currentExerciseIndex < |exercises| - 1 {
        currentExerciseIndex := currentExerciseIndex + 1;
        exerciseTime := 0;
        restTime := 0;
        isResting := false;
      }
    }

    /** `skipRest`. */
    method SkipRest()
      requires Valid()
      modifies this
      ensures Valid() && State() == RestSkipped(exercises, old(State()))
      ensures !isResting && restTime == 0
      ensures currentExerciseIndex == (if old(currentExerciseIndex) < |exercises| - 1
                                       then old(currentExerciseIndex) + 1 else old(currentExerciseIndex))
      ensures completedExercises == old(completedExercises) && isRunning == old(isRunning)
    {
      isResting := false;
      restTime := 0;
      SkipToNextExercise();
    }

    /** `isWorkoutComplete`: every exercise of the template has been completed. */
    function IsWorkoutComplete(): (done: bool)
      reads this
      requires Valid()
      ensures done == IsComplete(exercises, State())
      ensures done <==> forall i :: 0 <= i < |exercises| ==> i in completedExercises
    {
      CompleteMeansAllDone(exercises, State());
      |completedExercises| == |exercises|
    }
  }
}
