/*
 * The `training` slice of the application store
 * (src/redux/trainingSlice.js): the global difficulty level, the list of
 * completed workout ids and the fixed table of workouts, with the two
 * reducers that change them.
 *
 * The level is a `real`: the reducer's `+ 0.2` is exact here, so the model
 * says nothing about floating-point rounding.
 */
module TrainingSlice {

  type WorkoutId = string

  /** A pre-seeded workout record. `dayIndex` counts from Monday (0). */
  datatype Workout = Workout(
    id: WorkoutId,
    dayIndex: int,
    title: string,
    description: string,
    baseDifficulty: int,
    exercises: seq<string>,
    duration: nat)

  const InitialLevel: real := 1.0
  const MaxLevel: real := 10.0
  /** What one `incrementDifficulty` adds. */
  const Step: real := 0.2
  const DaysPerWeek: int := 7

  /** The workout table of the initial state. */
  const InitialWorkouts: seq<Workout> := [
    Workout("mon-1", 0, "Upper Body Strength",
      "Focus on chest, shoulders, and triceps with compound movements", 2,
      ["Bench Press", "Shoulder Press", "Tricep Dips", "Push-ups"], 45),
    Workout("mon-2", 0, "Core Conditioning",
      "Strengthen your core with various abdominal exercises", 1,
      ["Planks", "Russian Twists", "Leg Raises", "Mountain Climbers"], 30),
    Workout("tue-1", 1, "Lower Body Power",
      "Build leg strength and power with compound movements", 3,
      ["Squats", "Lunges", "Deadlifts", "Calf Raises"], 50),
    Workout("wed-1", 2, "Active Recovery",
      "Light cardio and stretching to promote recovery", 1,
      ["Walking", "Light Cycling", "Stretching", "Foam Rolling"], 40),
    Workout("thu-1", 3, "Back and Biceps",
      "Focus on back strength and bicep development", 2,
      ["Pull-ups", "Rows", "Bicep Curls", "Face Pulls"], 45),
    Workout("fri-1", 4, "HIIT Training",
      "High-intensity interval training for cardiovascular fitness", 4,
      ["Burpees", "Sprints", "Jump Squats", "Mountain Climbers"], 30),
    Workout("sat-1", 5, "Full Body Strength",
      "Comprehensive workout targeting all major muscle groups", 3,
      ["Deadlifts", "Push Press", "Pull-ups", "Squats"], 60),
    Workout("sun-1", 6, "Rest and Recover",
      "Focus on stretching, mobility, and proper recovery", 1,
      ["Yoga", "Stretching", "Meditation", "Foam Rolling"], 40)
  ]

  /** No two entries of `ids` are equal. */
  predicate NoDuplicates<T(==)>(ids: seq<T>) {
    forall i, j | 0 <= i < j < |ids| :: ids[i] != ids[j]
  }

  function Ids(ws: seq<Workout>): (r: seq<WorkoutId>)
    ensures |r| == |ws|
    ensures forall i | 0 <= i < |ws| :: r[i] == ws[i].id
  {
    seq(|ws|, i requires 0 <= i < |ws| => ws[i].id)
  }

  /** A table the schedule can show: ids are unique, every record sits on a
      day of the week, and base difficulties lie in 1..4. */
  predicate WellFormedTable(ws: seq<Workout>) {
    && NoDuplicates(Ids(ws))
    && (forall i | 0 <= i < |ws| :: 0 <= ws[i].dayIndex < DaysPerWeek)
    && (forall i | 0 <= i < |ws| :: 1 <= ws[i].baseDifficulty <= 4)
  }

  /** Some workout of the table falls on day `d`. */
  predicate CoversDay(ws: seq<Workout>, d: int) {
    exists i | 0 <= i < |ws| :: ws[i].dayIndex == d
  }

  /** The shipped table is well formed, and every day of the week has at
      least one workout. */
  lemma InitialTableWellFormed()
    ensures |InitialWorkouts| == 8
    ensures WellFormedTable(InitialWorkouts)
    ensures forall d | 0 <= d < DaysPerWeek :: CoversDay(InitialWorkouts, d)
  {
    var ws := InitialWorkouts;
    forall d | 0 <= d < DaysPerWeek
      ensures CoversDay(ws, d)
    {
      var i := if d == 0 then 0 else d + 1;
      assert ws[i].dayIndex == d;
    }
    var ids := Ids(ws);
    assert ids == ["mon-1", "mon-2", "tue-1", "wed-1", "thu-1", "fri-1", "sat-1", "sun-1"];
  }

  // ---------------------------------------------------------------------------
  // The difficulty level

  function Min(a: real, b: real): real { if a <= b then a else b }

  /** `Math.min(10, level + 0.2)`: one step up, capped at the maximum level. */
  function Increment(level: real): (r: real)
    ensures r <= MaxLevel
    ensures level <= MaxLevel ==> level <= r
    ensures level + Step <= MaxLevel ==> r == level + Step
    ensures MaxLevel <= level + Step ==> r == MaxLevel
  {
    Min(MaxLevel, level + Step)
  }

  /** Once the level is at the cap, further increments leave it there; and a
      higher level never increments to a lower one. */
  lemma IncrementFixpointAndMonotone(a: real, b: real)
    ensures Increment(MaxLevel) == MaxLevel
    ensures a <= b ==> Increment(a) <= Increment(b)
  {
  }

  /** The level after `n` increments from the initial level. */
  function LevelAfter(n: nat): real {
    if n == 0 then InitialLevel else Increment(LevelAfter(n - 1))
  }

  /** After n increments from 1 the level is min(10, 1 + 0.2 n). */
  lemma {:induction false} LevelAfterClosedForm(n: nat)
    ensures LevelAfter(n) == Min(MaxLevel, InitialLevel + Step * n as real)
  {
    if n > 0 {
      LevelAfterClosedForm(n - 1);
    }
  }

  /** The level stays in [1, 10], climbs with every increment and reaches the
      cap after exactly 45 of them; 50 increments give 10, not 11. */
  lemma {:induction false} LevelAfterProperties(m: nat, n: nat)
    requires m <= n
    ensures InitialLevel <= LevelAfter(n) <= MaxLevel
    ensures LevelAfter(m) <= LevelAfter(n)
    ensures n < 45 ==> LevelAfter(n) < MaxLevel
    ensures n >= 45 ==> LevelAfter(n) == MaxLevel
    ensures LevelAfter(50) == MaxLevel
  {
    LevelAfterClosedForm(m);
    LevelAfterClosedForm(n);
    LevelAfterClosedForm(50);
  }

  // ---------------------------------------------------------------------------
  // The slice

  /** The state of the slice, updated in place by its reducers. */
  class TrainingStore {
    var difficultyLevel: real
    var completedWorkouts: seq<WorkoutId>
    var workouts: seq<Workout>

    /** The level stays in [1, 10] and the table is never changed. */
    ghost predicate Valid()
      reads this
    {
      InitialLevel <= difficultyLevel <= MaxLevel && workouts == InitialWorkouts
    }

    /** `initialState` */
    constructor ()
      ensures Valid()
      ensures difficultyLevel == InitialLevel && completedWorkouts == [] && workouts == InitialWorkouts
    {
      difficultyLevel := InitialLevel;
      completedWorkouts := [];
      workouts := InitialWorkouts;
    }

    /** The `incrementDifficulty` reducer: only the level changes. */
    method IncrementDifficulty()
      modifies this`difficultyLevel
      ensures difficultyLevel == Increment(old(difficultyLevel))
      ensures old(Valid()) ==> Valid()
      ensures old(difficultyLevel) <= MaxLevel ==> old(difficultyLevel) <= difficultyLevel <= MaxLevel
      ensures completedWorkouts == old(completedWorkouts) && workouts == old(workouts)
    {
      difficultyLevel := Min(MaxLevel, difficultyLevel + Step);
    }

    /** The `completeWorkout` reducer: the id is pushed at the end, even when
        it is already in the list. */
    method CompleteWorkout(id: WorkoutId)
      modifies this`completedWorkouts
      ensures completedWorkouts == old(completedWorkouts) + [id]
      ensures old(Valid()) ==> Valid()
      ensures difficultyLevel == old(difficultyLevel) && workouts == old(workouts)
    {
      completedWorkouts := completedWorkouts + [id];
    }
  }
}
