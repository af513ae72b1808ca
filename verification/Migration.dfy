/** The migration that replaces the per-set state column by the progress pointer, and its way back. Set
    numbers are whatever the rows of a match say: the statements do not rely on their being 1..n. */
module Migration {
  import opened Schema
  import opened Progress

  /** The states of one match's sets by set number. */
  type States = map<int, State>

  function CompletedSets(states: States): set<int> {
    set k | k in states && states[k] == Completed
  }

  lemma {:induction false} LargestExists(s: set<int>)
    requires s != {}
    ensures exists k :: k in s && forall x | x in s :: x <= k
  {
    EmptyOrHasMember(s);
    var k :| k in s;
    var rest := s - {k};
    if rest == {} {
      assert s == {k};
    } else {
      LargestExists(rest);
      var r :| r in rest && forall x | x in rest :: x <= r;
      var largest := if r < k then k else r;
      forall x | x in s ensures x <= largest { if x != k { assert x in rest; } }
    }
  }

  /** COALESCE(MAX(set_number) FILTER (WHERE state = COMPLETED), 0). */
  function LastCompleted(states: States): (last: int)
    ensures CompletedSets(states) == {} ==> last == 0
    ensures CompletedSets(states) != {} ==> last in CompletedSets(states)
    ensures forall k | k in states && states[k] == Completed :: k <= last
  {
    assert forall k | k in states && states[k] == Completed :: k in CompletedSets(states);
    if CompletedSets(states) == {} then 0
    else
      LargestExists(CompletedSets(states));
      var k :| k in CompletedSets(states) && forall x | x in CompletedSets(states) :: x <= k;
      k
  }

  function PointerOf(states: States): Pointer {
    var last := LastCompleted(states);
    Pointer(last, exists k | k in states :: states[k] == InProgress && k > last)
  }

  function StatesOfPointer(p: Pointer, numbers: set<int>): States {
    map k | k in numbers :: StateOf(p, k)
  }

  /** The pointer points at sets that exist: the last completed one, unless it says none and no set has a
      number below one, and the one after it when that is in progress. */
  predicate PointsInto(p: Pointer, numbers: set<int>) {
    && (p.completed in numbers || (p.completed == 0 && forall k | k in numbers :: k > 0))
    && (p.inProgress ==> p.completed + 1 in numbers)
  }

  lemma PointsIntoRange(p: Pointer, numbers: set<int>, n: int)
    requires forall k: int :: k in numbers <==> 1 <= k <= n
    requires n >= 0
    ensures PointsInto(p, numbers) <==> Fits(p, n)
  {
  }

  /** Completed sets first; the open set, if any, directly after the last of them; and when no set is
      completed, no set numbered below one, which the pointer would count as completed. */
  ghost predicate Contiguous(states: States) {
    && (forall i, j | i in states && j in states && i < j :: states[j] == Completed ==> states[i] == Completed)
    && (forall k | k in states && states[k] == InProgress :: k == LastCompleted(states) + 1)
    && (CompletedSets(states) == {} ==> forall k | k in states :: k > 0)
  }

  /** On rows numbered 1..n: after a set that is not completed come only sets that have not started. */
  lemma ContiguousRange(states: States, n: int)
    requires forall k: int :: k in states <==> 1 <= k <= n
    ensures Contiguous(states) <==>
            forall i, j | i in states && j in states && i < j :: states[i] != Completed ==> states[j] == NotStarted
  {
    var last := LastCompleted(states);
    if CompletedSets(states) != {} { assert last in states && states[last] == Completed; }
    if forall i, j | i in states && j in states && i < j :: states[i] != Completed ==> states[j] == NotStarted {
      forall k | k in states && states[k] == InProgress ensures k == last + 1 {
        NothingBetween(states, n, last, k);
      }
    }
  }

  lemma NothingBetween(states: States, n: int, last: int, k: int)
    requires forall k: int :: k in states <==> 1 <= k <= n
    requires forall i, j | i in states && j in states && i < j :: states[i] != Completed ==> states[j] == NotStarted
    requires k in states && states[k] == InProgress && last >= 0
    requires (last > 0 ==> last in states && states[last] == Completed)
    requires forall x | x in states && states[x] == Completed :: x <= last
    ensures k == last + 1
  {
    assert last + 1 in states <==> last + 1 <= n;
  }

  lemma LastOfPointer(p: Pointer, numbers: set<int>)
    ensures LastCompleted(StatesOfPointer(p, numbers)) == p.completed <==>
              p.completed in numbers || (p.completed == 0 && forall k | k in numbers :: k > 0)
  {
    var states := StatesOfPointer(p, numbers);
    assert forall k :: k in CompletedSets(states) <==> k in numbers && k <= p.completed;
    EmptyOrHasMember(CompletedSets(states));
  }

  /** Down and up again: a pointer survives exactly when it points at sets that exist. */
  lemma DowngradeThenUpgrade(p: Pointer, numbers: set<int>)
    ensures PointerOf(StatesOfPointer(p, numbers)) == p <==> PointsInto(p, numbers)
  {
    var states := StatesOfPointer(p, numbers);
    LastOfPointer(p, numbers);
    if p.inProgress && p.completed + 1 in numbers { assert states[p.completed + 1] == InProgress; }
  }

  /** Up and down again: the states survive exactly when they are contiguous. */
  lemma UpgradeThenDowngrade(states: States)
    ensures StatesOfPointer(PointerOf(states), states.Keys) == states <==> Contiguous(states)
  {
    var p := PointerOf(states);
    if Contiguous(states) {
      forall k | k in states ensures states[k] == StateOf(p, k) { ContiguousAt(states, k); }
    }
    if StatesOfPointer(p, states.Keys) == states {
      forall k | k in states ensures states[k] == StateOf(p, k) {
        assert StatesOfPointer(p, states.Keys)[k] == states[k];
      }
      forall k | k in states && CompletedSets(states) == {} ensures k > 0 { assert k !in CompletedSets(states); }
    }
  }

  lemma ContiguousAt(states: States, k: int)
    requires Contiguous(states) && k in states
    ensures states[k] == StateOf(PointerOf(states), k)
  {
    var last := LastCompleted(states);
    if CompletedSets(states) == {} {
      assert k !in CompletedSets(states);
    } else {
      assert last in CompletedSets(states);
    }
    assert k <= last <==> states[k] == Completed;
    if states[k] == InProgress { assert PointerOf(states).inProgress; }
  }

  function Normalise(states: States): States {
    StatesOfPointer(PointerOf(states), states.Keys)
  }

  /** On any states the round trip takes no completed set away. It keeps the pointer it goes through exactly when
      that points at sets that exist; then the result is contiguous and repeating the trip changes nothing. */
  lemma NormaliseIsStable(states: States)
    ensures PointerOf(Normalise(states)) == PointerOf(states) <==> PointsInto(PointerOf(states), states.Keys)
    ensures PointsInto(PointerOf(states), states.Keys) ==>
              Normalise(Normalise(states)) == Normalise(states) && Contiguous(Normalise(states))
    ensures forall k | k in states && states[k] == Completed :: Normalise(states)[k] == Completed
  {
    DowngradeThenUpgrade(PointerOf(states), states.Keys);
    assert Normalise(states).Keys == states.Keys;
    UpgradeThenDowngrade(Normalise(states));
  }

  /** For rows numbered 1..n that is always so: afterwards only sets that have not started come after one that is not
      completed. */
  lemma RangeIsStable(states: States, n: int)
    requires n >= 0 && forall k: int :: k in states <==> 1 <= k <= n
    ensures Fits(PointerOf(states), n)
    ensures Normalise(Normalise(states)) == Normalise(states) && Contiguous(Normalise(states))
    ensures var after := Normalise(states);
            forall i, j | 1 <= i < j <= n :: after[i] != Completed ==> after[j] == NotStarted
  {
    var p := PointerOf(states);
    if CompletedSets(states) != {} { assert p.completed in CompletedSets(states); }
    PointsIntoRange(p, states.Keys, n);
    NormaliseIsStable(states);
    ContiguousRange(Normalise(states), n);
  }

  // ---------------------------------------------------------------- the tables

  /** The new columns: the default, overwritten for every match that has set rows. */
  function Filled(numbers: map<Id, set<int>>, states: map<Id, States>): (pointers: map<Id, Pointer>)
    requires states.Keys == numbers.Keys && forall m | m in numbers :: states[m].Keys == numbers[m]
    ensures pointers.Keys == numbers.Keys
    ensures forall m | m in numbers ::
              pointers[m] == PointerOf(states[m]) && pointers[m].completed == LastCompleted(states[m])
  {
    hide PointerOf, LastCompleted;
    var columns := map m | m in numbers :: RESET;
    var pointers := columns + map m | m in numbers && numbers[m] != {} :: PointerOf(states[m]);
    assert forall m | m in numbers ::
        pointers[m] == PointerOf(states[m]) && pointers[m].completed == LastCompleted(states[m]) by {
      forall m | m in numbers
        ensures pointers[m] == PointerOf(states[m]) && pointers[m].completed == LastCompleted(states[m])
      {
        NoSets(states[m]);
        PointerCompleted(states[m]);
      }
    }
    pointers
  }

  /** The two tables as the migration sees them. A column that does not exist is None. */
  class MigratedTables {
    var numbers: map<Id, set<int>>               // the set numbers of every match
    var states: Option<map<Id, States>>          // match_sets.state
    var pointers: Option<map<Id, Pointer>>       // the two pointer columns of matches

    ghost predicate Valid()
      reads this
    {
      && (states.Some? ==> states.value.Keys == numbers.Keys &&
                           forall m | m in numbers :: states.value[m].Keys == numbers[m])
      && (pointers.Some? ==> pointers.value.Keys == numbers.Keys &&
                             forall m | m in numbers :: pointers.value[m].completed >= 0)
    }

    constructor (numbers: map<Id, set<int>>, states: Option<map<Id, States>>,
                 pointers: Option<map<Id, Pointer>>)
      ensures this.numbers == numbers && this.states == states && this.pointers == pointers
    {
      this.numbers, this.states, this.pointers := numbers, states, pointers;
    }

    /** Add the pointer columns with their defaults and their CHECK, fill them from the states of every match
        that has set rows, and drop the state column. A last completed set of negative number fails the CHECK. */
    method Upgrade() returns (error: Option<Error>)
      requires Valid() && states.Some? && pointers.None?
      modifies this
      ensures Valid() && numbers == old(numbers)
      ensures error == if exists m | m in numbers :: LastCompleted(old(states.value)[m]) < 0
                       then Some(CheckViolation) else None
      ensures error.Some? ==> states == old(states) && pointers == old(pointers)
      ensures error.None? ==> states.None? && pointers.Some?
                              && forall m | m in numbers :: pointers.value[m] == PointerOf(old(states.value)[m])
    {
      var state := states.value;
      hide PointerOf, LastCompleted;
      var filled := Filled(numbers, state);
      if exists m | m in filled :: filled[m].completed < 0 { return Some(CheckViolation); }
      pointers, states := Some(filled), None;
      return None;
    }

    /** Add the state column, fill it from the pointers, and drop the pointer columns. */
    method Downgrade()
      requires Valid() && pointers.Some? && states.None?
      modifies this
      ensures Valid() && numbers == old(numbers) && pointers.None? && states.Some?
      ensures forall m | m in numbers :: states.value[m] == StatesOfPointer(old(pointers.value)[m], numbers[m])
    {
      var pointer := pointers.value;
      states := Some(map m | m in numbers :: StatesOfPointer(pointer[m], numbers[m]));
      pointers := None;
    }
  }

  lemma NoSets(states: States)
    ensures states.Keys == {} ==> PointerOf(states) == RESET
  {
    if states.Keys == {} { assert CompletedSets(states) == {}; }
  }

  lemma PointerCompleted(states: States)
    ensures PointerOf(states).completed == LastCompleted(states)
  {
  }

  /** Down and up again over a whole database: a match keeps its pointer if and only if it points at sets
      that exist. The way up cannot fail while set numbers are positive. */
  method DowngradeAndUpgrade(db: MigratedTables) returns (error: Option<Error>)
    requires db.Valid() && db.pointers.Some? && db.states.None?
    modifies db
    ensures db.Valid() && db.numbers == old(db.numbers)
    ensures (forall m, k | m in db.numbers && k in db.numbers[m] :: k > 0) ==> error == None
    ensures error == None ==> db.pointers.Some? && db.states.None? &&
                              forall m | m in db.numbers ::
                                db.pointers.value[m] == old(db.pointers.value)[m]
                                <==> PointsInto(old(db.pointers.value)[m], db.numbers[m])
  {
    ghost var before := db.pointers.value;
    db.Downgrade();
    ghost var states := db.states.value;
    error := db.Upgrade();
    forall m | m in db.numbers
      ensures PointerOf(states[m]) == before[m] <==> PointsInto(before[m], db.numbers[m])
    {
      DowngradeThenUpgrade(before[m], db.numbers[m]);
    }
    forall m | m in db.numbers && forall k | k in db.numbers[m] :: k > 0 ensures LastCompleted(states[m]) >= 0 {
      if CompletedSets(states[m]) != {} { assert LastCompleted(states[m]) in states[m]; }
    }
  }
}
