/**
 * The list-backed storage used by the tracker's tests: it keeps habits in a
 * list, assigns ids on save, replaces on update and filters on delete.
 */
module MockPersistence {

  import opened Optional
  import opened Habits

  /** Whether some habit of `hs` carries id `id`. */
  predicate HasId(hs: seq<Habit>, id: Option<int>)
    reads hs`id
  {
    exists j :: 0 <= j < |hs| && hs[j].id == id
  }

  /** Index of the first habit of `hs` whose id is `id`, if there is one. */
  function FirstIndexWithId(hs: seq<Habit>, id: Option<int>): (k: Option<nat>)
    reads hs`id
    ensures k.Some? ==> k.value < |hs| && hs[k.value].id == id
    ensures k.Some? ==> forall j :: 0 <= j < k.value ==> hs[j].id != id
    ensures k.None? <==> !HasId(hs, id)
    decreases |hs|
  {
    if hs == [] then None
    else if hs[0].id == id then Some(0)
    else
      match FirstIndexWithId(hs[1..], id)
      case None => None
      case Some(k) => Some(k + 1)
  }

  /** `hs` with its first habit carrying `h`'s id replaced by `h`; `hs` itself when none does. */
  function ReplacedById(hs: seq<Habit>, h: Habit): seq<Habit>
    reads hs`id, h`id
  {
    match FirstIndexWithId(hs, h.id)
    case None => hs
    case Some(k) => hs[k := h]
  }

  /** The habits of `hs` whose id differs from `id`, in their original order. */
  function WithoutId(hs: seq<Habit>, id: Option<int>): (r: seq<Habit>)
    reads hs`id
    ensures |r| <= |hs|
    ensures forall j :: 0 <= j < |r| ==> r[j] in hs && r[j].id != id
    ensures forall j :: 0 <= j < |hs| && hs[j].id != id ==> hs[j] in r
    ensures !HasId(hs, id) ==> r == hs
    decreases |hs|
  {
    if hs == [] then []
    else (if hs[0].id != id then [hs[0]] else []) + WithoutId(hs[1..], id)
  }

  /** Filtering by id distributes over concatenation, so the survivors keep their relative order. */
  lemma {:induction false} WithoutIdDistributes(a: seq<Habit>, b: seq<Habit>, id: Option<int>)
    ensures WithoutId(a + b, id) == WithoutId(a, id) + WithoutId(b, id)
    decreases |a|
  {
    if a == [] {
      assert a + b == b;
    } else {
      assert (a + b)[0] == a[0] && (a + b)[1..] == a[1..] + b;
      WithoutIdDistributes(a[1..], b, id);
    }
  }

  /** After a replacement by id, a lookup of that id finds the new habit at the same position. */
  lemma ReplacedByIdIsFound(hs: seq<Habit>, h: Habit)
    requires HasId(hs, h.id)
    ensures |ReplacedById(hs, h)| == |hs|
    ensures FirstIndexWithId(ReplacedById(hs, h), h.id) == FirstIndexWithId(hs, h.id)
    ensures ReplacedById(hs, h)[FirstIndexWithId(hs, h.id).value] == h
  {
  }

  class MockDataPersistence {
    var habits: seq<Habit>

    /** Starts with an empty store. */
    constructor ()
      ensures habits == []
    {
      habits := [];
    }

    /**
     * Stores `habit` unless a stored habit already carries its id. A newly
     * stored habit gets id `len(store) + 1`. Returns the habit's id.
     */
    method SaveHabit(habit: Habit) returns (id: Option<int>)
      modifies this`habits, habit`id
      ensures id == habit.id
      ensures old(HasId(habits, habit.id)) ==> habits == old(habits) && habit.id == old(habit.id)
      ensures !old(HasId(habits, habit.id)) ==>
                habit.id == Some(|old(habits)| + 1) && habits == old(habits) + [habit]
    {
      if !HasId(habits, habit.id) {
        habit.id := Some(|habits| + 1);
        habits := habits + [habit];
      }
      id := habit.id;
    }

    /** A copy of the stored list: same habits, same order. */
    method LoadHabits() returns (copy: seq<Habit>)
      ensures copy == habits
    {
      copy := habits;
    }

    /** Replaces the first stored habit whose id is `habit`'s id by `habit`; nothing changes if none matches. */
    method UpdateHabit(habit: Habit)
      modifies this`habits
      ensures habits == ReplacedById(old(habits), habit)
    {
      var i := 0;
      while i < |habits|
        invariant 0 <= i <= |habits|
        invariant habits == old(habits)
        invariant forall j :: 0 <= j < i ==> habits[j].id != habit.id
      {
        if habits[i].id == habit.id {
          habits := habits[i := habit];
          break;
        }
        i := i + 1;
      }
    }

    /** Drops every stored habit whose id is `habitId`, keeping the rest in order. */
    method DeleteHabit(habitId: int)
      modifies this`habits
      ensures habits == WithoutId(old(habits), Some(habitId))
    {
      habits := WithoutId(habits, Some(habitId));
    }
  }

  /** A store that saved two habits and then deleted the first: only the second, id 2, is left. */
  method StoreAfterSavingTwoDeletingFirst() returns (store: MockDataPersistence, second: Habit)
    ensures fresh(store) && store.habits == [second] && second.id == Some(2)
  {
    store := new MockDataPersistence();
    var first := new Habit("Exercise", "", Daily, None, None, 0);
    second := new Habit("Read", "", Daily, None, None, 0);
    assert !HasId([], None);
    var id1 := store.SaveHabit(first);
    assert store.habits == [first] && first.id == Some(1);
    assert !HasId([first], None);
    var id2 := store.SaveHabit(second);
    assert store.habits == [first, second] && second.id == Some(2);
    assert [first, second][1..] == [second] && [second][1..] == [];
    assert WithoutId([second], Some(1)) == [second];
    store.DeleteHabit(1);
  }

  /**
   * Ids are assigned as `len(store) + 1`, so after a deletion a new habit can
   * receive an id that a stored habit already carries.
   */
  method SaveAfterDeleteReusesId() returns (store: MockDataPersistence)
    ensures |store.habits| == 2
    ensures store.habits[0] != store.habits[1] && store.habits[0].id == store.habits[1].id
  {
    var second;
    store, second := StoreAfterSavingTwoDeletingFirst();
    var third := new Habit("Clean", "", Weekly, None, None, 0);
    assert !HasId([second], None);
    var id3 := store.SaveHabit(third);
  }
}
