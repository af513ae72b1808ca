/** Deleting a stage item with everything below it, statement by statement: what makes it succeed and what
    it leaves behind. */
module Cascades {
  import opened Schema
  import opened MatchSets
  import opened Deletion
  import opened SetResize

  // ---------------------------------------------------------------- the statements

  method SqlDeleteMatches(db: Database, ids: set<Id>) returns (error: Option<Error>)
    modifies db`matches, db`matchSets
    ensures Ended(DeleteMatches(old(db.Snapshot()), ids), old(db.Snapshot()), db.Snapshot(), error)
  {
    if FedBy(db.matches, ids) { return Some(ForeignKeyViolation); }
    db.matches, db.matchSets := db.matches - ids, db.matchSets - ids;
    return None;
  }

  method SqlDeleteRounds(db: Database, ids: set<Id>) returns (error: Option<Error>)
    modifies db`rounds
    ensures Ended(DeleteRounds(old(db.Snapshot()), ids), old(db.Snapshot()), db.Snapshot(), error)
  {
    if exists m | m in db.matches :: db.matches[m].round in ids { return Some(ForeignKeyViolation); }
    db.rounds := db.rounds - ids;
    return None;
  }

  method SqlDeleteInputs(db: Database, ids: set<Id>) returns (error: Option<Error>)
    modifies db`inputs, db`matches
    ensures Ended(DeleteInputs(old(db.Snapshot()), ids), old(db.Snapshot()), db.Snapshot(), error)
  {
    if PlayedIn(db.matches, ids) { return Some(ForeignKeyViolation); }
    db.inputs, db.matches := db.inputs - ids, WithoutReferees(db.matches, ids);
    return None;
  }

  method SqlDeleteStageItem(db: Database, i: Id) returns (error: Option<Error>)
    modifies db`stageItems, db`inputs, db`matches
    ensures Ended(DeleteStageItem(old(db.Snapshot()), i), old(db.Snapshot()), db.Snapshot(), error)
  {
    var result := DeleteStageItem(db.Snapshot(), i);
    if result.Err? { return Some(result.error); }
    db.stageItems, db.inputs, db.matches := result.value.stageItems, result.value.inputs, result.value.matches;
    return None;
  }

  /** First turn dependent inputs into empty slots, then delete the item's own inputs. */
  method SqlDeleteStageItemInputs(db: Database, i: Id) returns (error: Option<Error>)
    modifies db`inputs, db`matches
    ensures var before := old(db.Snapshot());
            Tried(DeleteInputs(before.(inputs := Detached(before.inputs, {i})), InputsOfItem(before, i)),
                  db.Snapshot(), error)
  {
    ghost var before := db.Snapshot();
    db.inputs := Detached(db.inputs, {i});
    assert InputsOfItem(db.Snapshot(), i) == InputsOfItem(before, i);
    error := SqlDeleteInputs(db, InputsOfItem(db.Snapshot(), i));
  }

  // ---------------------------------------------------------------- one stage item

  /** No match of another item is fed by a match of item `i` or plays with one of its inputs. */
  predicate Separate(t: Tables, i: Id) {
    var matches, inputs := MatchesOfItem(t, i), InputsOfItem(t, i);
    !FedBy(t.matches, matches) && !PlayedIn(t.matches - matches, inputs)
  }

  /** The database without item `i`: its matches with their sets, its rounds and its inputs are gone,
      inputs that drew their team from it are empty, and matches it lent a referee have none. */
  function WithoutItem(t: Tables, i: Id): Tables {
    var matches, inputs := MatchesOfItem(t, i), InputsOfItem(t, i);
    t.(matches := WithoutReferees(t.matches - matches, inputs),
       matchSets := t.matchSets - matches,
       inputs := Detached(t.inputs, {i}) - inputs,
       rounds := t.rounds - RoundsOfItem(t, i),
       stageItems := t.stageItems - {i})
  }

  /** Once matches and inputs are gone, rounds and the item itself never fail to be deleted. */
  lemma ItemFollows(t: Tables, i: Id)
    requires MatchesRefer(t.matches, t.rounds.Keys, t.inputs.Keys, t.courts.Keys)
    ensures var w := WithoutItem(t, i);
            var s := w.(stageItems := t.stageItems, rounds := t.rounds);
            && DeleteRounds(s, RoundsOfItem(s, i)) == Ok(w.(stageItems := t.stageItems))
            && DeleteStageItem(w.(stageItems := t.stageItems), i) == Ok(w)
  {
    RoundsFollow(t, i);
    RowFollows(t, i);
  }

  lemma RoundsFollow(t: Tables, i: Id)
    requires MatchesRefer(t.matches, t.rounds.Keys, t.inputs.Keys, t.courts.Keys)
    ensures var w := WithoutItem(t, i);
            var s := w.(stageItems := t.stageItems, rounds := t.rounds);
            DeleteRounds(s, RoundsOfItem(s, i)) == Ok(w.(stageItems := t.stageItems))
  {
    var s := WithoutItem(t, i).(stageItems := t.stageItems, rounds := t.rounds);
    assert RoundsOfItem(s, i) == RoundsOfItem(t, i);
    forall m | m in s.matches ensures s.matches[m].round !in RoundsOfItem(s, i) {
      assert MatchRefers(t.matches[m], t.rounds.Keys, t.inputs.Keys, t.matches.Keys, t.courts.Keys);
    }
  }

  lemma RowFollows(t: Tables, i: Id)
    ensures var w := WithoutItem(t, i);
            DeleteStageItem(w.(stageItems := t.stageItems), i) == Ok(w)
  {
    var w := WithoutItem(t, i);
    var u := w.(stageItems := t.stageItems);
    assert InputsOfItem(u, i) == {};
    hide InputsOfItem, MatchesOfItem;
    assert WithoutReferees(u.matches, {}) == u.matches;
    assert u.inputs - {} == u.inputs;
    assert !PlayedIn(u.matches, {});
  }

  function DeletedItem(t: Tables, i: Id): Result<Tables> {
    if Separate(t, i) then Ok(WithoutItem(t, i)) else Err(ForeignKeyViolation)
  }

  /** Deleting a stage item succeeds exactly when it is separate; otherwise nothing changes. No foreign
      key is ever broken on the way. */
  method SqlDeleteStageItemWithForeignKeys(db: Database, i: Id) returns (error: Option<Error>)
    requires ForeignKeys(db.Snapshot())
    modifies db`stageItems, db`inputs, db`rounds, db`matches, db`matchSets, db`rankings, db`nextId
    ensures Ended(DeletedItem(old(db.Snapshot()), i), old(db.Snapshot()), db.Snapshot(), error)
    ensures ForeignKeys(db.Snapshot())
  {
    hide ForeignKeys, Detached, WithoutReferees, MatchesOfItem, InputsOfItem, RoundsOfItem, DeleteRounds,
      DeleteStageItem, FedBy, PlayedIn, MatchesRefer, Plays;
    var saved := db.Snapshot();
    DeleteItemForeignKeys(saved, i);
    MatchesReferOf(saved);
    ItemFollows(saved, i);
    error := SqlDeleteMatches(db, MatchesOfItem(saved, i));
    if error.Some? { return; }
    SameInputs(saved, db.Snapshot(), i);
    error := SqlDeleteStageItemInputs(db, i);
    if error.Some? { db.Restore(saved); return; }
    error := SqlDeleteRounds(db, RoundsOfItem(db.Snapshot(), i));
    error := SqlDeleteStageItem(db, i);
  }

  lemma MatchesReferOf(t: Tables)
    requires ForeignKeys(t)
    ensures MatchesRefer(t.matches, t.rounds.Keys, t.inputs.Keys, t.courts.Keys)
  {
  }

  lemma SameInputs(t: Tables, t': Tables, i: Id)
    requires t'.inputs == t.inputs
    ensures InputsOfItem(t', i) == InputsOfItem(t, i)
  {
  }

  lemma DeleteItemForeignKeys(t: Tables, i: Id)
    requires ForeignKeys(t)
    ensures Separate(t, i) ==> ForeignKeys(WithoutItem(t, i))
  {
    hide ForeignKeys, Detached, WithoutReferees, MatchesOfItem, InputsOfItem, RoundsOfItem, DeleteRounds,
      DeleteStageItem;
    if Separate(t, i) {
      var ms, ins := MatchesOfItem(t, i), InputsOfItem(t, i);
      MatchesReferOf(t);
      ItemFollows(t, i);
      var t1 := DeleteMatches(t, ms).value;
      DeleteMatchesKeeps(t, ms);
      DetachKeeps(t1, i);
      var t2 := t1.(inputs := Detached(t1.inputs, {i}));
      DeleteInputsKeeps(t2, ins);
      var t3 := DeleteInputs(t2, ins).value;
      DeleteRoundsKeeps(t3, RoundsOfItem(t3, i));
      DeleteStageItemKeeps(WithoutItem(t, i).(stageItems := t.stageItems), i);
    }
  }

  /** Inputs that drew their team from the deleted item are empty slots afterwards, and every other
      input of another item is as it was. */
  lemma DependentsBecomeEmpty(t: Tables, i: Id, x: Id)
    requires x in t.inputs && t.inputs[x].stageItem != i
    ensures var t' := WithoutItem(t, i);
            && x in t'.inputs
            && t'.inputs[x] == if t.inputs[x].winnerFrom == Some(i)
                               then t.inputs[x].(team := None, winnerFrom := None, winnerPosition := None)
                               else t.inputs[x]
  {
  }
}
