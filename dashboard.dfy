/** The dashboard's statistics (frontend/src/pages/Dashboard.js, lines 35-41):
    the recent workouts, their count, the calories burnt and the average
    duration rounded to whole minutes. */
module Dashboard {
  import opened Wrappers
  import opened Models

  /** `workouts.slice(0, 5)`: the first five workouts, or all if fewer. */
  function Recent(workouts: seq<WorkoutDict>): (r: seq<WorkoutDict>)
    ensures |r| == if |workouts| < 5 then |workouts| else 5
    ensures forall i :: 0 <= i < |r| ==> r[i] == workouts[i]
  {
    if |workouts| < 5 then workouts else workouts[..5]
  }

  /** `value || 0` for an optional number. */
  function OrZero(value: Option<int>): int {
    if value.Some? then value.value else 0
  }

  function Calories(w: WorkoutDict): int {
    OrZero(w.caloriesBurned)
  }

  function Duration(w: WorkoutDict): int {
    OrZero(w.durationMinutes)
  }

  /** `workouts.reduce((sum, w) => sum + (w.calories_burned || 0), 0)`. */
  function TotalCalories(workouts: seq<WorkoutDict>): int {
    if workouts == [] then 0 else Calories(workouts[0]) + TotalCalories(workouts[1..])
  }

  /** The same reduction over `duration_minutes`. */
  function TotalDuration(workouts: seq<WorkoutDict>): int {
    if workouts == [] then 0 else Duration(workouts[0]) + TotalDuration(workouts[1..])
  }

  /** A missing value counts as nothing: workouts without calories can be
      dropped from the total. */
  lemma {:induction false} TotalCaloriesAppend(a: seq<WorkoutDict>, b: seq<WorkoutDict>)
    ensures TotalCalories(a + b) == TotalCalories(a) + TotalCalories(b)
  {
    if a == [] {
      assert a + b == b;
    } else {
      assert (a + b)[1..] == a[1..] + b;
      TotalCaloriesAppend(a[1..], b);
    }
  }

  /** Non-negative calorie values give a non-negative total, and a total of
      zero means no workout recorded any. */
  lemma {:induction false} TotalCaloriesNonNegative(workouts: seq<WorkoutDict>)
    requires forall i :: 0 <= i < |workouts| ==> Calories(workouts[i]) >= 0
    ensures TotalCalories(workouts) >= 0
    ensures TotalCalories(workouts) == 0 <==> forall i :: 0 <= i < |workouts| ==> Calories(workouts[i]) == 0
  {
    if workouts != [] {
      TotalCaloriesNonNegative(workouts[1..]);
      assert forall i :: 1 <= i < |workouts| ==> workouts[1..][i - 1] == workouts[i];
    }
  }

  /** `Math.round(total / n)` for `n > 0`: the nearest whole number, halves
      rounded up. */
  function RoundedQuotient(total: int, n: int): (q: int)
    requires n > 0
    ensures 2 * n * q <= 2 * total + n < 2 * n * q + 2 * n
  {
    (2 * total + n) / (2 * n)
  }

  /** `avgDuration`: 0 without workouts, otherwise the rounded mean duration. */
  function AvgDuration(workouts: seq<WorkoutDict>): (avg: int)
    ensures workouts == [] ==> avg == 0
    ensures workouts != [] ==>
              2 * |workouts| * avg <= 2 * TotalDuration(workouts) + |workouts| < 2 * |workouts| * avg + 2 * |workouts|
  {
    if |workouts| > 0 then RoundedQuotient(TotalDuration(workouts), |workouts|) else 0
  }

  /** The figures `setStats` stores. */
  datatype Stats = Stats(totalWorkouts: nat, totalCalories: int, avgDuration: int)

  function DashboardStats(workouts: seq<WorkoutDict>): (s: Stats)
    ensures s.totalWorkouts == |workouts|
    ensures s.totalCalories == TotalCalories(workouts) && s.avgDuration == AvgDuration(workouts)
  {
    Stats(|workouts|, TotalCalories(workouts), AvgDuration(workouts))
  }

  /** Durations between `lo` and `hi` sum to between `n * lo` and `n * hi`. */
  lemma {:induction false} TotalDurationBounds(workouts: seq<WorkoutDict>, lo: int, hi: int)
    requires forall i :: 0 <= i < |workouts| ==> lo <= Duration(workouts[i]) <= hi
    ensures |workouts| * lo <= TotalDuration(workouts) <= |workouts| * hi
  {
    if workouts != [] {
      var rest := workouts[1..];
      var n := |rest|;
      assert forall i :: 0 <= i < n ==> rest[i] == workouts[i + 1];
      TotalDurationBounds(rest, lo, hi);
      assert TotalDuration(workouts) == Duration(workouts[0]) + TotalDuration(rest);
      assert (n + 1) * lo == n * lo + lo && (n + 1) * hi == n * hi + hi;
    }
  }

  /** When every duration lies between `lo` and `hi`, so does the rounded
      average. */
  lemma AvgDurationBetween(workouts: seq<WorkoutDict>, lo: int, hi: int)
    requires workouts != []
    requires forall i :: 0 <= i < |workouts| ==> lo <= Duration(workouts[i]) <= hi
    ensures lo <= AvgDuration(workouts) <= hi
  {
    TotalDurationBounds(workouts, lo, hi);
    RoundedBetween(TotalDuration(workouts), |workouts|, lo, hi);
  }

  /** The rounded quotient of a total between `n * lo` and `n * hi` lies
      between `lo` and `hi`. */
  lemma RoundedBetween(t: int, n: int, lo: int, hi: int)
    requires n > 0 && n * lo <= t <= n * hi
    ensures lo <= RoundedQuotient(t, n) <= hi
  {
    var a := RoundedQuotient(t, n);
    var m := 2 * n;
    assert m * a <= 2 * t + n < m * a + m;
    assert m * hi == 2 * (n * hi) && m * lo == 2 * (n * lo);
    assert m * a < m * (hi + 1) by {
      assert m * (hi + 1) == m * hi + m;
    }
    assert m * lo < m * (a + 1) by {
      assert m * (a + 1) == m * a + m;
    }
    MultiplyLess(m, a, hi + 1);
    MultiplyLess(m, lo, a + 1);
  }

  lemma MultiplyLess(k: int, x: int, y: int)
    requires k > 0 && k * x < k * y
    ensures x < y
  {
  }

  /** With no workouts every figure is zero. */
  lemma NoWorkoutsNoStats()
    ensures DashboardStats([]) == Stats(0, 0, 0)
    ensures Recent([]) == []
  {
  }
}
