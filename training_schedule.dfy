/*
 * The decision logic of the training-schedule page
 * (src/pages/TrainingSchedule.jsx): the tier label and colour of a
 * difficulty, the effective difficulty of a workout, the workouts of the
 * selected day, and the page's own list of completed workouts.
 */
module TrainingSchedule {
  import opened TrainingSlice

  // ---------------------------------------------------------------------------
  // Difficulty tiers

  /** The tier names and bar colours, from the lowest tier to the highest. */
  const TierLabels: seq<string> := ["Beginner", "Intermediate", "Advanced", "Expert", "Master"]
  const TierColors: seq<string> := ["bg-green-500", "bg-blue-500", "bg-yellow-500", "bg-orange-500", "bg-red-500"]

  /** The inclusive upper bounds of every tier but the last. */
  const Thresholds: seq<real> := [2.0, 4.0, 6.0, 8.0]

  /** How many of `bounds` lie strictly below `level`. */
  function CountBelow(bounds: seq<real>, level: real): (n: nat)
    ensures n <= |bounds|
  {
    if bounds == [] then 0
    else (if bounds[0] < level then 1 else 0) + CountBelow(bounds[1..], level)
  }

  /** The tier a level falls in: the number of thresholds it exceeds. */
  function Tier(level: real): (t: nat)
    ensures t < |TierLabels| && t < |TierColors|
  {
    CountBelow(Thresholds, level)
  }

  /** `getDifficultyLabel` */
  function DifficultyLabel(level: real): string {
    if level <= 2.0 then "Beginner"
    else if level <= 4.0 then "Intermediate"
    else if level <= 6.0 then "Advanced"
    else if level <= 8.0 then "Expert"
    else "Master"
  }

  /** `getDifficultyColor` */
  function DifficultyColor(level: real): string {
    if level <= 2.0 then "bg-green-500"
    else if level <= 4.0 then "bg-blue-500"
    else if level <= 6.0 then "bg-yellow-500"
    else if level <= 8.0 then "bg-orange-500"
    else "bg-red-500"
  }

  /** Label and colour are both chosen by the tier the level falls in: the
      colour band always matches the label band, and every level gets a
      label, the bands being closed at their upper end. */
  lemma TierSelectsLabelAndColor(level: real)
    ensures DifficultyLabel(level) == TierLabels[Tier(level)]
    ensures DifficultyColor(level) == TierColors[Tier(level)]
    ensures Tier(level) == 0 <==> level <= 2.0
    ensures Tier(level) == 4 <==> level > 8.0
  {
    var b1, b2, b3 := Thresholds[1..], Thresholds[2..], Thresholds[3..];
    assert b1 == [4.0, 6.0, 8.0] && b1[1..] == b2;
    assert b2 == [6.0, 8.0] && b2[1..] == b3;
    assert b3 == [8.0] && b3[1..] == [];
    assert CountBelow(b3, level) == if 8.0 < level then 1 else 0;
    assert CountBelow(b2, level) == (if 6.0 < level then 1 else 0) + CountBelow(b3, level);
    assert CountBelow(b1, level) == (if 4.0 < level then 1 else 0) + CountBelow(b2, level);
    assert Tier(level) == (if 2.0 < level then 1 else 0) + CountBelow(b1, level);
  }

  /** A higher bound list entry never makes the count smaller. */
  lemma {:induction false} CountBelowMonotone(bounds: seq<real>, a: real, b: real)
    requires a <= b
    ensures CountBelow(bounds, a) <= CountBelow(bounds, b)
  {
    if bounds != [] {
      CountBelowMonotone(bounds[1..], a, b);
    }
  }

  /** A higher level never yields an earlier tier. */
  lemma LabelMonotone(a: real, b: real)
    requires a <= b
    ensures Tier(a) <= Tier(b)
    ensures DifficultyLabel(a) == TierLabels[Tier(a)] && DifficultyLabel(b) == TierLabels[Tier(b)]
  {
    CountBelowMonotone(Thresholds, a, b);
    TierSelectsLabelAndColor(a);
    TierSelectsLabelAndColor(b);
  }

  /** Two levels share a colour exactly when they share a label. */
  lemma ColorMatchesLabel(a: real, b: real)
    ensures DifficultyColor(a) == DifficultyColor(b) <==> DifficultyLabel(a) == DifficultyLabel(b)
  {
    TierSelectsLabelAndColor(a);
    TierSelectsLabelAndColor(b);
  }

  /** The boundaries are exact: 2 is still "Beginner", anything above it is
      not, and the cap 10 is "Master". */
  lemma LabelBoundaries()
    ensures DifficultyLabel(2.0) == "Beginner"
    ensures DifficultyLabel(2.01) == "Intermediate"
    ensures DifficultyLabel(8.0) == "Expert"
    ensures DifficultyLabel(MaxLevel) == "Master"
  {
  }

  // ---------------------------------------------------------------------------
  // Effective difficulty

  /** `Math.min(10, workout.baseDifficulty + difficultyLevel)` */
  function WorkoutDifficulty(baseDifficulty: int, level: real): (r: real)
    ensures r <= MaxLevel
    ensures baseDifficulty as real + level <= MaxLevel ==> r == baseDifficulty as real + level
    ensures baseDifficulty as real + level > MaxLevel ==> r == MaxLevel
  {
    Min(MaxLevel, baseDifficulty as real + level)
  }

  /** For a well-formed table and a level in [1, 10], every effective
      difficulty lies in [2, 10], and base 4 at level 8 is capped to 10. */
  lemma WorkoutDifficultyBounds(ws: seq<Workout>, i: int, level: real)
    requires WellFormedTable(ws) && 0 <= i < |ws|
    requires InitialLevel <= level <= MaxLevel
    ensures 2.0 <= WorkoutDifficulty(ws[i].baseDifficulty, level) <= MaxLevel
    ensures WorkoutDifficulty(4, 8.0) == MaxLevel
  {
  }

  // ---------------------------------------------------------------------------
  // The selected day

  /** `ws` is `full` with some entries removed, the rest in their order. */
  ghost predicate SubsequenceOf<T>(ws: seq<T>, full: seq<T>)
    decreases |full|
  {
    if ws == [] then true
    else if full == [] then false
    else if ws[0] == full[0] then SubsequenceOf(ws[1..], full[1..])
    else SubsequenceOf(ws, full[1..])
  }

  /** `workouts.filter(workout => workout.dayIndex === selectedDay)`: exactly
      the workouts of that day, in table order. */
  function WorkoutsForDay(ws: seq<Workout>, day: int): (r: seq<Workout>)
    ensures forall i | 0 <= i < |r| :: r[i].dayIndex == day
    ensures forall i | 0 <= i < |ws| && ws[i].dayIndex == day :: ws[i] in r
    ensures forall w | w in r :: w in ws
    ensures SubsequenceOf(r, ws)
    ensures forall w :: multiset(r)[w] == if w.dayIndex == day then multiset(ws)[w] else 0
  {
    assert ws != [] ==> ws == [ws[0]] + ws[1..];
    if ws == [] then []
    else if ws[0].dayIndex == day then [ws[0]] + WorkoutsForDay(ws[1..], day)
    else WorkoutsForDay(ws[1..], day)
  }

  // ---------------------------------------------------------------------------
  // The cards of the selected day

  /** What a workout card shows: its record, its effective difficulty, the
      colour of its bar, and whether it is completed (which also disables
      its button). */
  datatype Card = Card(workout: Workout, difficulty: real, color: string, completed: bool)

  /** The cards of the selected day, one per workout of that day. */
  function DayCards(ws: seq<Workout>, level: real, completed: seq<WorkoutId>, day: int): (r: seq<Card>)
    ensures |r| == |WorkoutsForDay(ws, day)|
    ensures forall i | 0 <= i < |r| :: r[i].workout == WorkoutsForDay(ws, day)[i] && r[i].workout.dayIndex == day
    ensures forall i | 0 <= i < |r| :: r[i].completed <==> r[i].workout.id in completed
    ensures forall i | 0 <= i < |r| :: r[i].difficulty == WorkoutDifficulty(r[i].workout.baseDifficulty, level)
    ensures forall i | 0 <= i < |r| ::
      r[i].difficulty <= MaxLevel && r[i].color == DifficultyColor(r[i].difficulty)
  {
    var shown := WorkoutsForDay(ws, day);
    seq(|shown|, i requires 0 <= i < |shown| =>
      var d := WorkoutDifficulty(shown[i].baseDifficulty, level);
      Card(shown[i], d, DifficultyColor(d), shown[i].id in completed))
  }

  // ---------------------------------------------------------------------------
  // Completion

  /** The completion list after a click on "Mark Complete" for `id`: an id
      already present changes nothing; a new one is appended at the end. */
  function MarkComplete(completed: seq<WorkoutId>, id: WorkoutId): (r: seq<WorkoutId>)
    ensures id in r
    ensures id in completed ==> r == completed
    ensures id !in completed ==> |r| == |completed| + 1 && r[..|completed|] == completed && r[|completed|] == id
    ensures forall x | x in r :: x in completed || x == id
    ensures NoDuplicates(completed) ==> NoDuplicates(r)
  {
    if id in completed then completed else completed + [id]
  }

  /** The page: the selected day and its own list of completed ids, beside
      the store it reads the table and level from. */
  class SchedulePage {
    const store: TrainingStore
    var selectedDay: int
    var completedWorkouts: seq<WorkoutId>
    /** The store's completion list as it was when the page was opened. */
    ghost var completedBefore: seq<WorkoutId>

    /** The page's list has no duplicates, and the store's list is what it
        held when the page opened, followed by the page's list. */
    ghost predicate Valid()
      reads this, store
    {
      && store.Valid()
      && NoDuplicates(completedWorkouts)
      && store.completedWorkouts == completedBefore + completedWorkouts
    }

    /** Opening the page on day `today` (the clock's day of the week is an
        input here). */
    constructor (store: TrainingStore, today: int)
      requires store.Valid()
      ensures Valid()
      ensures this.store == store && selectedDay == today && completedWorkouts == []
    {
      this.store := store;
      selectedDay := today;
      completedWorkouts := [];
      completedBefore := store.completedWorkouts;
    }

    /** A click on one of the seven day buttons. */
    method SelectDay(index: int)
      requires Valid()
      modifies this`selectedDay
      ensures Valid()
      ensures selectedDay == index && completedWorkouts == old(completedWorkouts)
    {
      selectedDay := index;
    }

    /** One firing of the page's interval timer. */
    method Tick()
      requires Valid()
      modifies store
      ensures Valid()
      ensures store.difficultyLevel == Increment(old(store.difficultyLevel))
      ensures completedWorkouts == old(completedWorkouts)
    {
      store.IncrementDifficulty();
    }

    /** `handleWorkoutComplete`: a repeated id is ignored; a new one is
        appended to the page's list and dispatched to the store. */
    method HandleWorkoutComplete(id: WorkoutId)
      requires Valid()
      modifies this, store
      ensures Valid()
      ensures completedWorkouts == MarkComplete(old(completedWorkouts), id)
      ensures id in old(completedWorkouts) ==> store.completedWorkouts == old(store.completedWorkouts)
      ensures id !in old(completedWorkouts) ==> store.completedWorkouts == old(store.completedWorkouts) + [id]
      ensures store.difficultyLevel == old(store.difficultyLevel) && selectedDay == old(selectedDay)
    {
      if id in completedWorkouts {
        return;
      }
      completedWorkouts := completedWorkouts + [id];
      store.CompleteWorkout(id);
    }

    /** The cards the page shows now. */
    function Cards(): (r: seq<Card>)
      reads this, store
      ensures |r| == |WorkoutsForDay(store.workouts, selectedDay)|
      ensures forall i | 0 <= i < |r| :: r[i].workout == WorkoutsForDay(store.workouts, selectedDay)[i]
      ensures forall i | 0 <= i < |r| ::
        r[i].difficulty == WorkoutDifficulty(r[i].workout.baseDifficulty, store.difficultyLevel)
      ensures forall i | 0 <= i < |r| :: r[i].completed <==> r[i].workout.id in completedWorkouts
    {
      DayCards(store.workouts, store.difficultyLevel, completedWorkouts, selectedDay)
    }
  }
}
