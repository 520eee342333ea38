/**
 * The habit registry: an in-memory list of habits that delegates
 * persistence to a storage object.
 */
module Tracker {

  import opened Optional
  import opened Habits
  import opened MockPersistence

  /** The streak of `h` at time `now`, as `Habit.GetAccumulatedStreak` computes it. */
  function StreakOf(h: Habit, now: int): nat
    reads h`periodicity, h`completedDates
  {
    AccumulatedStreak(h.periodicity, h.completedDates, now)
  }

  /** The habits of `hs` with periodicity `periodicity`, in their original order. */
  function WithPeriodicity(hs: seq<Habit>, periodicity: string): (r: seq<Habit>)
    reads hs`periodicity
    ensures |r| <= |hs|
    ensures forall j :: 0 <= j < |r| ==> r[j] in hs && r[j].periodicity == periodicity
    ensures forall j :: 0 <= j < |hs| && hs[j].periodicity == periodicity ==> hs[j] in r
    decreases |hs|
  {
    if hs == [] then []
    else (if hs[0].periodicity == periodicity then [hs[0]] else []) + WithPeriodicity(hs[1..], periodicity)
  }

  /** Filtering by periodicity distributes over concatenation, so the result keeps the list's order. */
  lemma {:induction false} WithPeriodicityDistributes(a: seq<Habit>, b: seq<Habit>, periodicity: string)
    ensures WithPeriodicity(a + b, periodicity) == WithPeriodicity(a, periodicity) + WithPeriodicity(b, periodicity)
    decreases |a|
  {
    if a == [] {
      assert a + b == b;
    } else {
      assert (a + b)[0] == a[0] && (a + b)[1..] == a[1..] + b;
      WithPeriodicityDistributes(a[1..], b, periodicity);
    }
  }

  class HabitTracker {
    var db: MockDataPersistence
    var habits: seq<Habit>

    /** Starts from the habits the storage holds. */
    constructor (db: MockDataPersistence)
      ensures this.db == db && habits == db.habits
    {
      this.db := db;
      new;
      habits := db.LoadHabits();
    }

    /** Creates a habit, has storage assign its id, appends it and returns it. */
    method AddHabit(name: string, description: string, periodicity: string, now: int) returns (habit: Habit)
      modifies this`habits, db
      ensures fresh(habit)
      ensures habits == old(habits) + [habit]
      ensures habit.name == name && habit.description == description && habit.periodicity == periodicity
      ensures habit.creationDate == now && habit.completedDates == [] && !habit.isBroken
      ensures old(HasId(db.habits, None)) ==> habit.id == None && db.habits == old(db.habits)
      ensures !old(HasId(db.habits, None)) ==>
                habit.id == Some(|old(db.habits)| + 1) && db.habits == old(db.habits) + [habit]
    {
      habit := new Habit(name, description, periodicity, None, None, now);
      var id := db.SaveHabit(habit);
      habit.id := id;
      habits := habits + [habit];
    }

    /** The first habit whose id is `habitId`, or null when there is none. */
    function GetHabitById(habitId: int): (habit: Habit?)
      reads this`habits, habits`id
      ensures habit == null <==> !HasId(habits, Some(habitId))
      ensures habit != null ==>
                exists k :: 0 <= k < |habits| && habits[k] == habit && habit.id == Some(habitId) &&
                  forall j :: 0 <= j < k ==> habits[j].id != Some(habitId)
    {
      match FirstIndexWithId(habits, Some(habitId))
      case None => null
      case Some(k) => habits[k]
    }

    /** Completes the habit with id `habitId` at `now` and writes it back to storage; null if there is none. */
    method CompleteHabit(habitId: int, now: int) returns (habit: Habit?)
      modifies db, habits
      ensures habit == old(GetHabitById(habitId))
      ensures habit == null ==> db.habits == old(db.habits)
      ensures habit != null ==>
                && habit.completedDates == old(habit.completedDates) + [now]
                && !habit.isBroken
                && habit.id == old(habit.id) && habit.name == old(habit.name)
                && habit.description == old(habit.description)
                && habit.periodicity == old(habit.periodicity)
                && habit.creationDate == old(habit.creationDate)
                && db.habits == old(ReplacedById(db.habits, habit))
      ensures forall g :: g in habits && g != habit ==> unchanged(g)
    {
      habit := GetHabitById(habitId);
      if habit != null {
        habit.CompleteTask(now);
        db.UpdateHabit(habit);
      }
    }

    /** The tracker's own list of habits. */
    function GetAllHabits(): (all: seq<Habit>)
      reads this`habits
      ensures all == habits
    {
      habits
    }

    /**
     * The habits whose periodicity is `periodicity`. List order and repetitions
     * are kept, as `WithPeriodicityDistributes` shows for `WithPeriodicity`.
     */
    function GetHabitsByPeriodicity(periodicity: string): (selected: seq<Habit>)
      reads this`habits, habits`periodicity
      ensures forall j :: 0 <= j < |selected| ==> selected[j] in habits && selected[j].periodicity == periodicity
      ensures forall j :: 0 <= j < |habits| && habits[j].periodicity == periodicity ==> habits[j] in selected
    {
      WithPeriodicity(habits, periodicity)
    }

    /**
     * The largest streak over all habits and the first habit that reaches it;
     * (0, null) when the list is empty or every streak is 0.
     */
    method GetLongestStreakAllHabits(now: int) returns (longestStreak: nat, longestStreakHabit: Habit?)
      ensures forall j :: 0 <= j < |habits| ==> StreakOf(habits[j], now) <= longestStreak
      ensures longestStreakHabit == null <==> longestStreak == 0
      ensures longestStreakHabit != null ==>
                exists k :: 0 <= k < |habits| && habits[k] == longestStreakHabit &&
                  StreakOf(longestStreakHabit, now) == longestStreak &&
                  forall j :: 0 <= j < k ==> StreakOf(habits[j], now) < longestStreak
    {
      if habits == [] {
        return 0, null;
      }
      longestStreak, longestStreakHabit := 0, null;
      var i := 0;
      while i < |habits|
        invariant 0 <= i <= |habits|
        invariant forall j :: 0 <= j < i ==> StreakOf(habits[j], now) <= longestStreak
        invariant longestStreakHabit == null <==> longestStreak == 0
        invariant longestStreakHabit != null ==>
                    exists k :: 0 <= k < i && habits[k] == longestStreakHabit &&
                      StreakOf(longestStreakHabit, now) == longestStreak &&
                      forall j :: 0 <= j < k ==> StreakOf(habits[j], now) < longestStreak
      {
        var habit := habits[i];
        var streak := habit.GetAccumulatedStreak(now);
        if streak > longestStreak {
          longestStreak := streak;
          longestStreakHabit := habit;
        }
        i := i + 1;
      }
    }

    /** The streak of one habit, computed by its own backward scan. */
    static method GetLongestStreakForHabit(habit: Habit, now: int) returns (streak: nat)
      ensures streak == StreakOf(habit, now)
    {
      streak := habit.GetAccumulatedStreak(now);
    }

    /**
     * Asks storage to delete the habit with id `habitId` and returns it; null,
     * with storage untouched, when there is none. The tracker's own list is
     * left as it was, so the habit stays visible through it.
     */
    method DeleteHabit(habitId: int) returns (habit: Habit?)
      modifies db
      ensures habits == old(habits)
      ensures habit == GetHabitById(habitId)
      ensures habit == null ==> db.habits == old(db.habits)
      ensures habit != null ==> db.habits == old(WithoutId(db.habits, Some(habitId)))
    {
      habit := GetHabitById(habitId);
      if habit != null {
        db.DeleteHabit(habitId);
      }
    }
  }

  /**
   * Two daily habits on an empty store; the first is completed once and the
   * second twice, all at `now`. The longest streak is 2, held by the second.
   */
  method LongestStreakScenario(now: int) returns (longest: nat, best: Habit?, second: Habit)
    ensures longest == 2 && best == second
  {
    var tracker, first;
    tracker, first, second := TwoDailyHabits(now);
    CompleteOneOfTwo(tracker, first, second, 1, now);
    CompleteOneOfTwo(tracker, first, second, 2, now);
    CompleteOneOfTwo(tracker, first, second, 2, now);
    assert first.completedDates == [now] && second.completedDates == [now, now];
    SameTimeCompletionsAllCount(Daily, first.completedDates, now);
    SameTimeCompletionsAllCount(Daily, second.completedDates, now);
    longest, best := tracker.GetLongestStreakAllHabits(now);
  }

  /** Completes, through the tracker, the habit with id `which` of a tracker holding exactly `first` and `second`. */
  method CompleteOneOfTwo(tracker: HabitTracker, first: Habit, second: Habit, which: int, now: int)
    requires tracker.habits == [first, second] && first != second
    requires first.id == Some(1) && second.id == Some(2) && (which == 1 || which == 2)
    modifies tracker.db, tracker.habits
    ensures first.id == Some(1) && second.id == Some(2)
    ensures first.periodicity == old(first.periodicity) && second.periodicity == old(second.periodicity)
    ensures first.completedDates == old(first.completedDates) + (if which == 1 then [now] else [])
    ensures second.completedDates == old(second.completedDates) + (if which == 2 then [now] else [])
  {
    assert tracker.habits[which - 1].id == Some(which);
    assert tracker.GetHabitById(which) == (if which == 1 then first else second);
    var done := tracker.CompleteHabit(which, now);
    assert first in tracker.habits && second in tracker.habits;
  }

  /** A tracker over an empty store after adding two daily habits. */
  method TwoDailyHabits(now: int) returns (tracker: HabitTracker, first: Habit, second: Habit)
    ensures fresh(tracker) && fresh(tracker.db) && fresh(first) && fresh(second)
    ensures tracker.habits == [first, second] && first != second
    ensures first.id == Some(1) && second.id == Some(2)
    ensures first.periodicity == Daily && second.periodicity == Daily
    ensures first.completedDates == [] && second.completedDates == []
  {
    var store := new MockDataPersistence();
    tracker := new HabitTracker(store);
    assert !HasId([], None);
    first := tracker.AddHabit("Exercise", "Do 30 minutes of exercise", Daily, now);
    assert !HasId([first], None);
    second := tracker.AddHabit("Read", "Read for 30 minutes", Daily, now);
  }
}
