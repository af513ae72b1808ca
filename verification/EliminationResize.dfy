/** Changing the team count of a single-elimination item: the whole bracket is deleted and built anew, but
    a shrink deletes its empty inputs first, while the old matches still refer to them. `seen` is the database
    as the request read it before its first write. */
module EliminationResize {
  import opened Schema
  import opened Progress
  import opened MatchSets
  import opened SetResize
  import opened Deletion
  import opened Cascades
  import opened StageItemResize
  import opened Layout
  import opened ItemMatches
  import opened Elimination

  function ShrunkBracket(t: Tables, seen: Tables, i: Id, k: nat): Result<Tables> {
    if |EmptyInputs(seen, i)| < k then Err(Http(400)) else
      var removed := RemovedInputs(seen, i, k);
      if BlockingSlots(seen, i, removed) != {} then Err(Http(400)) else
        match DeleteInputs(t, InputsOfItem(t, i) * removed)
        case Err(e) => Err(e)
        case Ok(t1) => Ok(t1.(inputs := Renumbered(t1.inputs, i, Without(BySlot(seen, i), removed))))
  }

  function Reslotted(t: Tables, seen: Tables, tournament: Id, i: Id, count: int): Result<Tables>
    requires i in seen.stageItems
  {
    var was := seen.stageItems[i].teamCount;
    if count < was then ShrunkBracket(t, seen, i, was - count)
    else if count == was then Ok(t)
    else if tournament !in t.tournaments || i !in t.stageItems then Err(ForeignKeyViolation)
    else Ok(Appended(t, tournament, i, was + 1, count - was))
  }

  function WithoutBracket(t: Tables, i: Id): Result<Tables> {
    match DeleteMatches(t, MatchesOfItem(t, i))
    case Err(e) => Err(e)
    case Ok(t1) => DeleteRounds(t1, RoundsOfItem(t1, i))
  }

  function ResizeBracket(t: Tables, seen: Tables, tournament: Id, i: Id, count: int): Result<Tables>
    requires i in seen.stageItems
  {
    if BracketRounds(count).None? || StartedMatches(seen, i) != {} then Err(Http(400)) else
      match Reslotted(t, seen, tournament, i, count)
      case Err(e) => Err(e)
      case Ok(t1) => WithoutBracket(t1.(inputs := PositionsCleared(t1.inputs, i, count)), i)
  }

  // ---------------------------------------------------------------- what makes a shrink succeed

  lemma NobodyBlocks(t: Tables, i: Id, removed: set<Id>)
    requires removed <= InputsOfItem(t, i) && StartedMatches(t, i) == {}
    ensures BlockingSlots(t, i, removed) == {}
  {
    Blocking(t, i, removed);
  }

  /** The deletion of the inputs decides: it fails when any match still plays with one of them. */
  lemma ShrunkBracketOutcome(t: Tables, seen: Tables, i: Id, k: nat)
    requires StartedMatches(seen, i) == {} && t.inputs == seen.inputs
    ensures var r, removed := ShrunkBracket(t, seen, i, k), RemovedInputs(seen, i, k);
            && (r.Ok? <==> k <= |EmptyInputs(seen, i)| && !PlayedIn(t.matches, removed))
            && (r.Ok? ==> r.value == Recut(t, i, removed).(matches := WithoutReferees(t.matches, removed)))
            && (r.Err? ==> r.error == if k <= |EmptyInputs(seen, i)| then ForeignKeyViolation else Http(400))
  {
    hide RemovedInputs, EmptyInputs, StartedMatches, InputsOfItem, BlockingSlots, Renumbered, Without, BySlot,
      WithoutReferees, PlayedIn;
    if k <= |EmptyInputs(seen, i)| {
      var removed := RemovedInputs(seen, i, k);
      RemovedFacts(seen, i, k);
      NobodyBlocks(seen, i, removed);
      SameInputsSameSlots(seen, t, i);
      assert InputsOfItem(t, i) * removed == removed;
    }
  }

  /** The matches of the item feed no others, and every match belongs to a round that exists. */
  ghost predicate BracketApart(t: Tables, i: Id) {
    !FedBy(t.matches, MatchesOfItem(t, i)) && forall m | m in t.matches :: t.matches[m].round in t.rounds
  }

  lemma ApartInside(t: Tables, i: Id)
    requires MatchesInside(t)
    ensures BracketApart(t, i)
  {
    forall m | m in t.matches && m !in MatchesOfItem(t, i) ensures !Feeds(t.matches[m], MatchesOfItem(t, i)) {
      if Feeds(t.matches[m], MatchesOfItem(t, i)) { FedInside(t, i, m); }
    }
    forall m | m in t.matches ensures t.matches[m].round in t.rounds { assert MatchInside(t, t.matches[m]); }
  }

  /** Once the slots are settled, the old matches and rounds go without fail. */
  lemma BracketGoes(t: Tables, i: Id)
    requires BracketApart(t, i)
    ensures var r := WithoutBracket(t, i);
            && r.Ok? && MatchesOfItem(r.value, i) == {} && RoundsOfItem(r.value, i) == {}
            && r.value == t.(matches := t.matches - MatchesOfItem(t, i), matchSets := t.matchSets - MatchesOfItem(t, i),
                             rounds := t.rounds - RoundsOfItem(t, i))
  {
    var t1 := DeleteMatches(t, MatchesOfItem(t, i)).value;
    assert RoundsOfItem(t1, i) == RoundsOfItem(t, i);
    forall m | m in t1.matches ensures t1.matches[m].round !in RoundsOfItem(t1, i) {
      assert m !in MatchesOfItem(t, i);
    }
    var t2 := WithoutBracket(t, i).value;
    EmptyOrHasMember(MatchesOfItem(t2, i));
    EmptyOrHasMember(RoundsOfItem(t2, i));
  }

  lemma ReslottedApart(t: Tables, t': Tables, i: Id, ids: set<Id>)
    requires BracketApart(t, i) && t'.rounds == t.rounds && t'.matches == WithoutReferees(t.matches, ids)
    ensures BracketApart(t', i)
  {
    assert MatchesOfItem(t', i) == MatchesOfItem(t, i);
    forall m | m in t.matches
      ensures Feeds(t'.matches[m], MatchesOfItem(t, i)) <==> Feeds(t.matches[m], MatchesOfItem(t, i)) {}
  }

  /** A bracket shrinks exactly when no match has started, enough slots are empty, and no match plays with
      one of the inputs that go. The first two are refused with 400; the third is a foreign key violation. */
  lemma BracketShrinkOutcome(t: Tables, seen: Tables, tournament: Id, i: Id, count: int)
    requires i in seen.stageItems && BracketRounds(count).Some? && count < seen.stageItems[i].teamCount
    requires t.inputs == seen.inputs && BracketApart(t, i)
    ensures var r, k := ResizeBracket(t, seen, tournament, i, count), seen.stageItems[i].teamCount - count;
            && (r.Ok? <==> StartedMatches(seen, i) == {} && k <= |EmptyInputs(seen, i)|
                           && !PlayedIn(t.matches, RemovedInputs(seen, i, k)))
            && (r.Ok? ==> MatchesOfItem(r.value, i) == {} && RoundsOfItem(r.value, i) == {})
            && (r.Err? ==> r.error == if StartedMatches(seen, i) == {} && k <= |EmptyInputs(seen, i)|
                                      then ForeignKeyViolation else Http(400))
  {
    hide RemovedInputs, EmptyInputs, StartedMatches, ShrunkBracket, WithoutBracket, PlayedIn, PositionsCleared,
      Renumbered, Without, BySlot, WithoutReferees, BracketApart, MatchesOfItem, RoundsOfItem, BracketRounds;
    var k := seen.stageItems[i].teamCount - count;
    if StartedMatches(seen, i) == {} {
      ShrunkBracketOutcome(t, seen, i, k);
      if ShrunkBracket(t, seen, i, k).Ok? {
        var t1 := ShrunkBracket(t, seen, i, k).value;
        var t2 := t1.(inputs := PositionsCleared(t1.inputs, i, count));
        ReslottedApart(t, t2, i, RemovedInputs(seen, i, k));
        BracketGoes(t2, i);
      }
    }
  }

  /** A bracket grows exactly when the new size is one the program knows and no match has started; the empty inputs are
      there at the slots above, and the old matches and rounds are gone. */
  lemma BracketGrowOutcome(t: Tables, seen: Tables, tournament: Id, i: Id, count: int)
    requires i in seen.stageItems && i in t.stageItems && tournament in t.tournaments && BracketApart(t, i)
    requires seen.stageItems[i].teamCount < count
    ensures var r, was := ResizeBracket(t, seen, tournament, i, count), seen.stageItems[i].teamCount;
            && (r.Ok? <==> (count <= 0 || count in {2, 4, 8, 16, 32}) && StartedMatches(seen, i) == {})
            && (r.Err? ==> r.error == Http(400))
            && (r.Ok? ==>
                  && MatchesOfItem(r.value, i) == {} && RoundsOfItem(r.value, i) == {}
                  && r.value.inputs
                     == PositionsCleared(Appended(t, tournament, i, was + 1, count - was).inputs, i, count))
  {
    hide StartedMatches, WithoutBracket, PositionsCleared, BracketApart, MatchesOfItem, RoundsOfItem, Appended;
    if BracketRounds(count).Some? && StartedMatches(seen, i) == {} {
      var was := seen.stageItems[i].teamCount;
      var t1 := Appended(t, tournament, i, was + 1, count - was);
      var t2 := t1.(inputs := PositionsCleared(t1.inputs, i, count));
      SameApart(t, t2, i);
      BracketGoes(t2, i);
    }
  }

  lemma SameApart(t: Tables, t': Tables, i: Id)
    requires BracketApart(t, i) && t'.rounds == t.rounds && t'.matches == t.matches
    ensures BracketApart(t', i)
  {
    assert MatchesOfItem(t', i) == MatchesOfItem(t, i);
  }

  /** So a bracket in which every slot plays can never shrink: where enough slots are empty and no match has
      started, the statement that deletes the inputs violates a foreign key. */
  lemma FullBracketNeverShrinks(t: Tables, seen: Tables, tournament: Id, i: Id, count: int)
    requires i in seen.stageItems && BracketRounds(count).Some? && count < seen.stageItems[i].teamCount
    requires t.inputs == seen.inputs && BracketApart(t, i) && StartedMatches(seen, i) == {}
    requires seen.stageItems[i].teamCount - count <= |EmptyInputs(seen, i)|
    requires forall x | x in InputsOfItem(seen, i) :: PlayedIn(t.matches, {x})
    ensures ResizeBracket(t, seen, tournament, i, count) == Err(ForeignKeyViolation)
  {
    var k := seen.stageItems[i].teamCount - count;
    BracketShrinkOutcome(t, seen, tournament, i, count);
    hide ResizeBracket, RemovedInputs, EmptyInputs, StartedMatches, BracketApart;
    RemovedFacts(seen, i, k);
    EmptyOrHasMember(RemovedInputs(seen, i, k));
    var x :| x in RemovedInputs(seen, i, k);
    PlayedInMore(t.matches, x, RemovedInputs(seen, i, k));
  }

  lemma PlayedInMore(matches: map<Id, Match>, x: Id, ids: set<Id>)
    requires PlayedIn(matches, {x}) && x in ids
    ensures PlayedIn(matches, ids)
  {
    var m :| m in matches && Plays(matches[m], {x});
    assert Plays(matches[m], ids);
  }

  /** And that is how the builder leaves a bracket: every input plays, and no match has started. */
  lemma BuiltBracketIsFull(t: Tables, t1: Tables, t': Tables, i: Id, rounds: seq<Id>)
    requires BracketOver(t1, t', BySlot(t, i), rounds) && |BySlot(t, i)| % 2 == 0
    requires t1.matches == t.matches && t.nextId <= t1.nextId && (forall m | m in t.matches :: m < t.nextId)
    requires Extended(t, t', i) && MatchesOfItem(t, i) == {}
    requires forall m | m in t.matches :: t.matches[m].round in t.rounds
    ensures forall x | x in InputsOfItem(t, i) :: PlayedIn(t'.matches, {x})
    ensures StartedMatches(t', i) == {}
  {
    hide BySlot, InputsOfItem, StateOfMatch, Slots;
    var inputs := BySlot(t, i);
    BySlotFacts(t, i);
    OrderIsDistinct(inputs, Slots(t));
    forall x | x in InputsOfItem(t, i) ensures PlayedIn(t'.matches, {x}) {
      assert x in inputs;
      var k :| 0 <= k < |inputs| && inputs[k] == x;
      EveryInputPlaysOnce(t1, t', inputs, rounds, k);
      assert Plays(t'.matches[t1.nextId + k / 2], {x});
    }
    forall m | m in MatchesOfItem(t', i) ensures StateOfMatch(t', m) == NotStarted {
      OnlyNewMatches(t, t', i, m);
      NewMatchIsIdle(t, t', i, m);
    }
    EmptyOrHasMember(StartedMatches(t', i));
  }

  lemma OnlyNewMatches(t: Tables, t': Tables, i: Id, m: Id)
    requires Extended(t, t', i) && MatchesOfItem(t, i) == {} && m in MatchesOfItem(t', i)
    requires forall m | m in t.matches :: t.matches[m].round in t.rounds
    ensures m in t'.matches && m !in t.matches
  {
    assert m in t.matches ==> m in MatchesOfItem(t, i);
  }

  lemma NewMatchIsIdle(t: Tables, t': Tables, i: Id, m: Id)
    requires Extended(t, t', i) && m in t'.matches && m !in t.matches
    ensures StateOfMatch(t', m) == NotStarted
  {
    IdleIsNotStarted(RowsOf(t', m), Max(NumSetsOfItem(t, i), 1), PlayAllSetsOf(t', m));
  }

  // ---------------------------------------------------------------- what it keeps

  lemma ReslottedIntact(t: Tables, seen: Tables, tournament: Id, i: Id, count: int)
    requires Intact(t) && i in seen.stageItems && Reslotted(t, seen, tournament, i, count).Ok?
    requires HomeOf(t, i) == Some(tournament)
    ensures Intact(Reslotted(t, seen, tournament, i, count).value)
  {
    hide Intact, Appended, EmptyInputs, RemovedInputs, BlockingSlots, DeleteInputs, Renumbered, BySlot, Without,
      InputsOfItem;
    var was := seen.stageItems[i].teamCount;
    if count < was {
      var ids := InputsOfItem(t, i) * RemovedInputs(seen, i, was - count);
      DeleteInputsIntact(t, ids);
      var order := Without(BySlot(seen, i), RemovedInputs(seen, i, was - count));
      RewrittenIntact(DeleteInputs(t, ids).value, i, order, count);
    } else if count > was {
      AppendedIntact(t, tournament, i, was + 1, count - was);
    }
  }

  lemma ResizeBracketIntact(t: Tables, seen: Tables, tournament: Id, i: Id, count: int)
    requires Intact(t) && i in seen.stageItems && ResizeBracket(t, seen, tournament, i, count).Ok?
    requires HomeOf(t, i) == Some(tournament)
    ensures Intact(ResizeBracket(t, seen, tournament, i, count).value)
  {
    hide Intact, Reslotted, StartedMatches, PositionsCleared, DeleteMatches, DeleteRounds, MatchesOfItem, RoundsOfItem,
      BracketRounds;
    var t1 := Reslotted(t, seen, tournament, i, count).value;
    ReslottedIntact(t, seen, tournament, i, count);
    RewrittenIntact(t1, i, [], count);
    var t2 := t1.(inputs := PositionsCleared(t1.inputs, i, count));
    DeleteMatchesIntact(t2, MatchesOfItem(t2, i));
    var t3 := DeleteMatches(t2, MatchesOfItem(t2, i)).value;
    DeleteRoundsIntact(t3, RoundsOfItem(t3, i));
  }

  // ---------------------------------------------------------------- the program

  method ShrinkBracket(db: Database, seen: Tables, i: Id, k: nat) returns (error: Option<Error>)
    modifies db`inputs, db`matches
    ensures Tried(ShrunkBracket(old(db.Snapshot()), seen, i, k), db.Snapshot(), error)
  {
    hide RemovedInputs, EmptyInputs, BlockingSlots, Renumbered, Without, BySlot, WithoutReferees, PlayedIn,
      InputsOfItem, RemovableMatches;
    if |EmptyInputs(seen, i)| < k { return Some(Http(400)); }
    var removed := RemovedInputs(seen, i, k);
    var removable, blocking := GetRemovedMatchIdsAndBlockingSlots(seen, i, removed);
    if blocking != {} { return Some(Http(400)); }
    error := SqlDeleteInputs(db, InputsOfItem(db.Snapshot(), i) * removed);
    if error.Some? { return; }
    UpdateStageItemInputSlots(db, i, Without(BySlot(seen, i), removed));
  }

  method ResizeSingleEliminationStageItem(db: Database, seen: Tables, tournament: Id, i: Id, count: int)
    returns (error: Option<Error>)
    requires i in seen.stageItems
    modifies db`inputs, db`rounds, db`matches, db`matchSets, db`nextId
    ensures Tried(ResizeBracket(old(db.Snapshot()), seen, tournament, i, count), db.Snapshot(), error)
  {
    hide ShrunkBracket, PositionsCleared, Appended, StartedMatches, DeleteMatches, DeleteRounds, MatchesOfItem,
      RoundsOfItem, BracketRounds;
    var was := seen.stageItems[i].teamCount;
    if BracketRounds(count).None? { return Some(Http(400)); }
    if StartedMatches(seen, i) != {} { return Some(Http(400)); }
    error := None;
    if count < was {
      error := ShrinkBracket(db, seen, i, was - count);
    } else if count > was {
      error := AppendEmptyStageItemInputs(db, tournament, i, was + 1, count);
    }
    if error.Some? { return; }
    ClearRemovedWinnerPositions(db, i, count);
    error := SqlDeleteMatches(db, MatchesOfItem(db.Snapshot(), i));
    if error.Some? { return; }
    error := SqlDeleteRounds(db, RoundsOfItem(db.Snapshot(), i));
  }
}
