# Habit tracker core, modelled in Dafny

This project models the core of a small habit tracker. Users define recurring
habits, either `'daily'` or `'weekly'`. Each completion is recorded as a
timestamp, and the tracker computes whether a habit is completed within its
period, whether it is broken, and how long its current streak is.

The project has four parts:

- `option.dfy` (module `Optional`) holds the `Option` type used for a habit's
  id. The id is `None` until storage assigns one.
- `habit.dfy` (module `Habits`) holds the `Habit` class and the evaluator.
  The class has the same fields as the source, and its methods update them in
  place. The evaluator's specification is a set of pure functions:
  - `ElapsedDays` counts whole days, rounded down like `timedelta.days`.
  - `AccumulatedStreak` is the backward streak scan, written as a recursive
    function.
  - `QualifyingRun` is an independent definition of a run of completions in
    which each step is at most 1 (daily) or 7 (weekly) whole elapsed days,
    rounded down, so a daily gap under two days still counts.
  The lemmas show that the streak is the longest suffix of the completions
  that forms a qualifying run.
- `mock_persistence.dfy` (module `MockPersistence`) models the list-backed
  store that the tracker's tests use. It saves with id `len + 1`, replaces
  the first habit with a matching id on update, and filters on delete. It
  also holds the id lookup and filter functions that both the store and the
  tracker use.
- `habit_tracker.dfy` (module `Tracker`) holds the `HabitTracker` class. It
  keeps an in-memory list of `Habit` objects and delegates persistence to a
  `MockDataPersistence` object. The same `Habit` objects are shared between
  the tracker's list and the store's list, as they are in the source, so
  completing a habit through the tracker also changes the object the store
  holds.

Time is an integer number of seconds. The current time, which the source
reads with `datetime.now()`, is an explicit `now` parameter. A periodicity is
kept as a `string`, so the model also covers what the code does with a value
other than `'daily'` and `'weekly'`:

- `is_task_completed` returns false.
- `check_if_broken` stores and returns false.
- The streak is 0.

Where the code and the program's own docstrings or tests disagree, the model
follows the code:

- The docstrings (src/habit.py:13, 26) name only `'daily'` and `'weekly'`,
  but `__init__` (src/habit.py:31-37) stores any string. So does the model.
- tests/test_habit_tracker.py:316-317 expect a deleted habit to leave the
  tracker's `habits`. `delete_habit` (src/habit_tracker.py:130-133) only
  calls storage, so `HabitTracker.DeleteHabit` leaves `habits` unchanged. Its
  contract states that the deleted habit is still found by id afterwards.
- `get_longest_streak_all_habits` and `get_longest_streak_for_habit` call
  `habit.get_current_streak()`. `Habit` has no method by that name. The model
  uses `get_accumulated_streak`, the streak the class does define.

## Model

| member | source | states |
|---|---|---|
| `Habits.ElapsedDays` | src/habit.py:56 | the elapsed day count is the floor of the elapsed seconds over 86400, like `timedelta.days`, including for negative gaps |
| `Habits.AccumulatedStreak` | src/habit.py:103-121 | the streak never exceeds the number of completions, and it is 0 for a periodicity other than daily or weekly |
| `Habits.StreakIsLongestQualifyingSuffix` | src/habit.py:106-120 | the streak is the length of the longest suffix of the completions in which each step qualifies; the steps run from `now` to the newest completion and then between neighbours, each at most 1 (daily) or 7 (weekly) whole elapsed days, rounded down, so a daily gap under two days still counts; no longer suffix qualifies, so the scan stops at the first gap that is too large |
| `Habits.QualifyingRunSnoc` | src/habit.py:108-120 | extending a run by a newer completion adds exactly one window test, the one measured from the reference time |
| `Habits.SameTimeCompletionsAllCount` | tests/test_habit.py:114-119 | when every completion is at the reference time, a daily or weekly streak counts all of them |
| `Habits.DailyStreakOfThree` | src/habit.py:108-114 | daily completions at now, now minus 1 day and now minus 2 days give a streak of 3 |
| `Habits.WholeDayWindows` | src/habit.py:110-116 | the window counts whole days rounded down: a daily gap of 47 hours and a weekly gap of 191 hours still count, a daily gap of 48 hours does not |
| `Habits.WeeklyGapStopsScan` | src/habit.py:115-120 | weekly completions at now and now minus 9 days give a streak of 1, because the 9-day gap ends the scan |
| `Habits.Habit.constructor` | src/habit.py:19-37 | a new habit keeps the given name, description, periodicity and id; it has no completions and is not broken; its creation date defaults to `now` |
| `Habits.Habit.CompleteTask` | src/habit.py:39-43 | appends exactly `now` to the completions, keeps earlier entries, clears `isBroken`, touches no other field; afterwards a daily or weekly habit is completed at that same `now` |
| `Habits.Habit.IsTaskCompleted` | src/habit.py:45-67 | true exactly when the periodicity is daily or weekly and fewer than 1 or 7 whole days have passed since the last completion (or, if there is none, since creation) |
| `Habits.Habit.CheckIfBroken` | src/habit.py:69-93 | stores and returns whether a full period or more has passed since the last event; for daily or weekly this is the negation of `IsTaskCompleted` at the same `now`; otherwise it is false |
| `Habits.Habit.GetAccumulatedStreak` | src/habit.py:95-121 | the backward loop returns `AccumulatedStreak` of the completions from `now`; the result is 0 for no completions and at most their number |
| `MockPersistence.FirstIndexWithId` | src/habit_tracker.py:66 | returns the position of the first habit with the id, or none exactly when no habit carries it |
| `MockPersistence.WithoutId` | tests/test_habit_tracker.py:72 | keeps exactly the habits whose id differs, drops every match, and is the identity when the id is absent |
| `MockPersistence.WithoutIdDistributes` | tests/test_habit_tracker.py:72 | filtering by id distributes over concatenation, so the kept habits stay in their original order |
| `MockPersistence.ReplacedByIdIsFound` | tests/test_habit_tracker.py:59-62 | replacing by id keeps the length, and a later lookup of that id finds the new habit at the replaced position |
| `MockPersistence.MockDataPersistence.constructor` | tests/test_habit_tracker.py:17-23 | the store starts empty |
| `MockPersistence.MockDataPersistence.SaveHabit` | tests/test_habit_tracker.py:25-39 | if no stored habit has the habit's id, the habit gets id `len + 1` and is appended; otherwise store and id are unchanged; the habit's id is returned |
| `MockPersistence.MockDataPersistence.LoadHabits` | tests/test_habit_tracker.py:41-49 | returns the stored habits in order and changes nothing |
| `MockPersistence.MockDataPersistence.UpdateHabit` | tests/test_habit_tracker.py:51-62 | replaces only the first stored habit with a matching id, keeping length and all other entries; changes nothing when no id matches |
| `MockPersistence.MockDataPersistence.DeleteHabit` | tests/test_habit_tracker.py:64-72 | the store becomes the order-preserving filter that drops every habit with the id |
| `MockPersistence.SaveAfterDeleteReusesId` | tests/test_habit_tracker.py:36-39 | save two habits, delete the first, save a third: two distinct stored habits then carry the same id, because ids are assigned as `len + 1` |
| `Tracker.WithPeriodicity` | src/habit_tracker.py:87 | keeps exactly the habits with the given periodicity |
| `Tracker.WithPeriodicityDistributes` | src/habit_tracker.py:87 | the periodicity filter distributes over concatenation, so it keeps list order |
| `Tracker.HabitTracker.constructor` | src/habit_tracker.py:13-21 | the tracker holds the given storage object and starts from the list that storage loads |
| `Tracker.HabitTracker.AddHabit` | src/habit_tracker.py:23-38 | appends exactly one fresh habit with the given fields, no completions and creation date `now`; its id is the one storage assigns (`len + 1`, stored) unless storage already holds an unsaved habit |
| `Tracker.HabitTracker.GetHabitById` | src/habit_tracker.py:56-66 | returns the first habit in list order with the id, or null exactly when none has it |
| `Tracker.HabitTracker.CompleteHabit` | src/habit_tracker.py:40-54 | when found, completes exactly that habit at `now` and stores it through update by id; when not found, returns null and changes neither habits nor storage; no other habit changes |
| `Tracker.HabitTracker.GetAllHabits` | src/habit_tracker.py:68-75 | returns the tracker's own list |
| `Tracker.HabitTracker.GetHabitsByPeriodicity` | src/habit_tracker.py:77-87 | returns exactly the tracked habits with that periodicity; list order and repetitions are kept, through `WithPeriodicity` and `Tracker.WithPeriodicityDistributes` |
| `Tracker.HabitTracker.GetLongestStreakAllHabits` | src/habit_tracker.py:89-105 | the result is at least every habit's streak; the habit is null exactly when the result is 0 (so `(0, null)` for an empty list); otherwise it is the first habit in list order whose streak equals the result |
| `Tracker.HabitTracker.GetLongestStreakForHabit` | src/habit_tracker.py:107-118 | returns the habit's accumulated streak at `now` |
| `Tracker.HabitTracker.DeleteHabit` | src/habit_tracker.py:120-133 | when found, asks storage to drop the id and returns the habit; when not found, returns null and leaves storage unchanged; the tracker's list is never changed, so the habit is still found by id |
| `Tracker.LongestStreakScenario` | tests/test_habit_tracker.py:204-230 | a reduced version of the test (1 and 2 completions instead of 3 and 5): two daily habits on an empty store, completed once and twice through the tracker: the longest streak is 2, held by the second habit |

## Left out

- `src/data_persistence.py` is not part of this model. It is the PostgreSQL store: SQL, commits, rollbacks and environment loading. The tracker is modelled against the list-backed store from the tests, which stands in for its contract.
- `src/cli.py` and `src/sample_data.py` are not part of this model. They cover argument parsing, printing and database seeding.
- Logging and the module-level logger set-up are left out. They are process-wide side effects.
- The wall clock is left out. Each operation takes the current time as a parameter.
- Timestamps are whole seconds. Python datetimes also carry microseconds, which can move a day boundary by less than one second.
- `get_current_streak` is left out. `habit_tracker.py` calls it, but `habit.py` does not define it, so the code as written would raise an error. The model uses the accumulated streak instead.
- Python's dynamic typing is left out. The id is an optional integer, the periodicity, name and description are strings, and timestamps are integers. Values of other types are not modelled.
- Storage failures and exceptions are left out. The core has no `raise` statements; the only failure it reaches is the missing `get_current_streak` above. The list-backed store cannot fail.
- `Tracker.HabitTracker.GetAllHabits`: the source returns its list object itself, so a caller who changes that list changes the tracker. The model returns the list as a value, so it does not capture that aliasing.
- `Tracker.HabitTracker.DeleteHabit`: the tracker test expects the habit to disappear from the tracker's list. The code does not remove it, and the model follows the code.
- Habit equality and hashing are left out. The tests compare habits by id, but the class defines neither operation, so nothing about them is promised.
- The tracker holds a `MockDataPersistence` directly. Dafny has no duck typing here, so other storage objects are not modelled.
