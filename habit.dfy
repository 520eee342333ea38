/**
 * The habit entity and its completion, broken and streak evaluator.
 *
 * Timestamps are integer counts of seconds. The current time, which the
 * source reads from the wall clock, is passed in as `now`.
 */
module Habits {

  import opened Optional

  const SecondsPerDay: int := 86400
  const Daily: string := "daily"
  const Weekly: string := "weekly"

  /** Whole days elapsed from `t` to `now`, rounded down like `timedelta.days`. */
  function ElapsedDays(now: int, t: int): (days: int)
    ensures days * SecondsPerDay <= now - t < (days + 1) * SecondsPerDay
  {
    (now - t) / SecondsPerDay
  }

  /** The two periodicities the evaluator acts on; any other string matches no branch. */
  predicate IsScheduled(periodicity: string)
  {
    periodicity == Daily || periodicity == Weekly
  }

  /** Length of one period in days. */
  function PeriodDays(periodicity: string): nat
    requires IsScheduled(periodicity)
  {
    if periodicity == Daily then 1 else 7
  }

  /**
   * One step of the backward streak scan: at most 1 (daily) or 7 (weekly) whole
   * elapsed days, rounded down, lie between `earlier` and `later`; so a daily gap
   * under two days still counts.
   */
  predicate StepWithin(periodicity: string, later: int, earlier: int)
  {
    IsScheduled(periodicity) && ElapsedDays(later, earlier) <= PeriodDays(periodicity)
  }

  /**
   * The streak the backward scan counts: starting from `reference`, take
   * completions from the newest one backwards while each is at most 1 (daily)
   * or 7 (weekly) whole elapsed days, rounded down, before the one taken
   * before it, and stop at the first that is not.
   */
  function AccumulatedStreak(periodicity: string, dates: seq<int>, reference: int): (n: nat)
    ensures n <= |dates|
    ensures !IsScheduled(periodicity) ==> n == 0
    decreases |dates|
  {
    if dates == [] then 0
    else
      var last := dates[|dates| - 1];
      if StepWithin(periodicity, reference, last) then
        1 + AccumulatedStreak(periodicity, dates[..|dates| - 1], last)
      else
        0
  }

  /** The timestamp entry `i` of `s` is measured against: the next entry, or `reference` after the last. */
  function Successor(s: seq<int>, i: int, reference: int): int
    requires 0 <= i < |s|
  {
    if i + 1 < |s| then s[i + 1] else reference
  }

  /**
   * Every step of `s` passes the window test of `StepWithin`: each entry is at
   * most 1 (daily) or 7 (weekly) whole elapsed days, rounded down, before its
   * successor, and the last entry likewise before `reference`.
   */
  ghost predicate QualifyingRun(periodicity: string, reference: int, s: seq<int>)
  {
    forall i :: 0 <= i < |s| ==> StepWithin(periodicity, Successor(s, i, reference), s[i])
  }

  /** Appending an entry to a run adds exactly one step, measured from `reference`. */
  lemma {:induction false} QualifyingRunSnoc(periodicity: string, reference: int, s: seq<int>, d: int)
    ensures QualifyingRun(periodicity, reference, s + [d])
        <==> StepWithin(periodicity, reference, d) && QualifyingRun(periodicity, d, s)
  {
    var t := s + [d];
    assert Successor(t, |s|, reference) == reference;
    forall i | 0 <= i < |s|
      ensures Successor(t, i, reference) == Successor(s, i, d) && t[i] == s[i]
    {
    }
    if QualifyingRun(periodicity, reference, t) {
      assert StepWithin(periodicity, Successor(t, |s|, reference), t[|s|]);
      forall i | 0 <= i < |s|
        ensures StepWithin(periodicity, Successor(s, i, d), s[i])
      {
        assert StepWithin(periodicity, Successor(t, i, reference), t[i]);
      }
    }
  }

  /**
   * The streak is the length of the longest suffix of `dates` that is a
   * qualifying run from `reference`: that suffix qualifies, and no longer
   * suffix does.
   */
  lemma {:induction false} StreakIsLongestQualifyingSuffix(periodicity: string, dates: seq<int>, reference: int)
    ensures QualifyingRun(periodicity, reference, dates[|dates| - AccumulatedStreak(periodicity, dates, reference)..])
    ensures forall j :: 0 <= j < |dates| - AccumulatedStreak(periodicity, dates, reference) ==>
              !QualifyingRun(periodicity, reference, dates[j..])
    decreases |dates|
  {
    if dates != [] {
      var init, last := dates[..|dates| - 1], dates[|dates| - 1];
      var n := AccumulatedStreak(periodicity, dates, reference);
      forall j | 0 <= j < |dates| - n
        ensures dates[j..] == init[j..] + [last]
      {
      }
      if StepWithin(periodicity, reference, last) {
        StreakIsLongestQualifyingSuffix(periodicity, init, last);
        var k := AccumulatedStreak(periodicity, init, last);
        assert n == k + 1;
        assert dates[|dates| - n..] == init[|init| - k..] + [last];
        QualifyingRunSnoc(periodicity, reference, init[|init| - k..], last);
        forall j | 0 <= j < |dates| - n
          ensures !QualifyingRun(periodicity, reference, dates[j..])
        {
          QualifyingRunSnoc(periodicity, reference, init[j..], last);
        }
      } else {
        forall j | 0 <= j < |dates|
          ensures !QualifyingRun(periodicity, reference, dates[j..])
        {
          QualifyingRunSnoc(periodicity, reference, init[j..], last);
        }
      }
    }
  }

  /** Completions all logged at the reference time form a streak of full length. */
  lemma {:induction false} SameTimeCompletionsAllCount(periodicity: string, dates: seq<int>, reference: int)
    requires IsScheduled(periodicity)
    requires forall i :: 0 <= i < |dates| ==> dates[i] == reference
    ensures AccumulatedStreak(periodicity, dates, reference) == |dates|
    decreases |dates|
  {
    if dates != [] {
      SameTimeCompletionsAllCount(periodicity, dates[..|dates| - 1], reference);
    }
  }

  /** Daily completions now, one day ago and two days ago give a streak of three. */
  lemma DailyStreakOfThree(now: int)
    ensures AccumulatedStreak(Daily, [now - 2 * SecondsPerDay, now - SecondsPerDay, now], now) == 3
  {
    var a, b := now - 2 * SecondsPerDay, now - SecondsPerDay;
    assert ElapsedDays(now, b) == 1 && ElapsedDays(b, a) == 1;
    assert [a, b, now][..2] == [a, b] && [a, b][..1] == [a] && [a][..0] == [];
    assert AccumulatedStreak(Daily, [a], b) == 1;
    assert AccumulatedStreak(Daily, [a, b], now) == 2;
  }

  /** A weekly gap of nine days stops the scan after the newest completion. */
  lemma WeeklyGapStopsScan(now: int)
    ensures AccumulatedStreak(Weekly, [now - 9 * SecondsPerDay, now], now) == 1
  {
  }

  /** Whole days are rounded down: a daily gap of 47 hours and a weekly gap of 191 hours still count. */
  lemma WholeDayWindows(now: int)
    ensures AccumulatedStreak(Daily, [now - 47 * 3600], now) == 1
    ensures AccumulatedStreak(Weekly, [now - 191 * 3600], now) == 1
    ensures AccumulatedStreak(Daily, [now - 48 * 3600], now) == 0
  {
  }

  /** A tracked habit: identity, schedule and completion history. */
  class Habit {
    var id: Option<int>
    var name: string
    var description: string
    var periodicity: string
    var creationDate: int
    var completedDates: seq<int>
    var isBroken: bool

    /** A new habit has no completions and is not broken; the creation date defaults to `now`. */
    constructor (name: string, description: string, periodicity: string,
                 id: Option<int>, creationDate: Option<int>, now: int)
      ensures this.id == id && this.name == name && this.description == description
      ensures this.periodicity == periodicity
      ensures this.creationDate == (if creationDate.Some? then creationDate.value else now)
      ensures completedDates == [] && !isBroken
    {
      this.id := id;
      this.name := name;
      this.description := description;
      this.periodicity := periodicity;
      this.creationDate := if creationDate.Some? then creationDate.value else now;
      this.completedDates := [];
      this.isBroken := false;
    }

    /** The timestamp the completion and broken tests measure from: the latest completion, else the creation date. */
    function LastEvent(): int
      reads this`completedDates, this`creationDate
    {
      if completedDates == [] then creationDate else completedDates[|completedDates| - 1]
    }

    /** Records a completion at `now` and clears the broken flag. */
    method CompleteTask(now: int)
      modifies this`completedDates, this`isBroken
      ensures completedDates == old(completedDates) + [now]
      ensures !isBroken
      ensures IsScheduled(periodicity) ==> IsTaskCompleted(now)
    {
      completedDates := completedDates + [now];
      isBroken := false;
    }

    /** Whether fewer than 1 (daily) or 7 (weekly) whole days, rounded down, have passed since the latest completion, or with none since creation. */
    function IsTaskCompleted(now: int): (completed: bool)
      reads this`completedDates, this`creationDate, this`periodicity
      ensures completed <==> IsScheduled(periodicity) && ElapsedDays(now, LastEvent()) < PeriodDays(periodicity)
    {
      if completedDates == [] then
        if periodicity == Daily then ElapsedDays(now, creationDate) < 1
        else if periodicity == Weekly then ElapsedDays(now, creationDate) < 7
        else false
      else
        var lastCompletion := completedDates[|completedDates| - 1];
        if periodicity == Daily then ElapsedDays(now, lastCompletion) < 1
        else if periodicity == Weekly then ElapsedDays(now, lastCompletion) < 7
        else false
    }

    /** Recomputes and returns the broken flag: a full period or more has passed since the last event. */
    method CheckIfBroken(now: int) returns (broken: bool)
      modifies this`isBroken
      ensures broken == isBroken
      ensures broken <==> IsScheduled(periodicity) && ElapsedDays(now, LastEvent()) >= PeriodDays(periodicity)
      ensures IsScheduled(periodicity) ==> broken == !IsTaskCompleted(now)
      ensures !IsScheduled(periodicity) ==> !broken && !IsTaskCompleted(now)
    {
      if completedDates == [] {
        if periodicity == Daily && ElapsedDays(now, creationDate) >= 1 {
          isBroken := true;
        } else if periodicity == Weekly && ElapsedDays(now, creationDate) >= 7 {
          isBroken := true;
        } else {
          isBroken := false;
        }
      } else {
        var lastCompletion := completedDates[|completedDates| - 1];
        if periodicity == Daily && ElapsedDays(now, lastCompletion) >= 1 {
          isBroken := true;
        } else if periodicity == Weekly && ElapsedDays(now, lastCompletion) >= 7 {
          isBroken := true;
        } else {
          isBroken := false;
        }
      }
      broken := isBroken;
    }

    /** Scans the completions from the newest backwards, counting while each gap is at most 1 (daily) or 7 (weekly) whole days, rounded down. */
    method GetAccumulatedStreak(now: int) returns (streak: nat)
      ensures streak == AccumulatedStreak(periodicity, completedDates, now)
      ensures completedDates == [] ==> streak == 0
      ensures streak <= |completedDates|
    {
      if completedDates == [] {
        return 0;
      }
      streak := 0;
      var currentDate := now;
      var i := |completedDates|;
      assert completedDates[..i] == completedDates;
      while i > 0
        invariant 0 <= i <= |completedDates|
        invariant streak + AccumulatedStreak(periodicity, completedDates[..i], currentDate)
               == AccumulatedStreak(periodicity, completedDates, now)
      {
        var completionDate := completedDates[i - 1];
        assert completedDates[..i][..i - 1] == completedDates[..i - 1];
        if periodicity == Daily {
          if ElapsedDays(currentDate, completionDate) <= 1 {
            streak := streak + 1;
            currentDate := completionDate;
          } else {
            break;
          }
        } else if periodicity == Weekly {
          if ElapsedDays(currentDate, completionDate) <= 7 {
            streak := streak + 1;
            currentDate := completionDate;
          } else {
            break;
          }
        }
        i := i - 1;
      }
    }
  }
}
