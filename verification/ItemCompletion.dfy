/** The last step of an update: it never fails, a resized round robin ends complete, and a caller can tell beforehand
    whether it adds a match. */
module ItemCompletion {
  import opened Schema
  import opened Progress
  import opened MatchSets
  import opened SetResize
  import opened Rankings
  import opened Deletion
  import opened StageItemResize
  import opened ItemMatches
  import opened RoundRobin
  import opened RoundRobinRounds
  import opened Layout
  import opened Elimination
  import opened EliminationResize
  import opened StageItems
  import opened ItemProgress
  import opened ItemLayout

  // ---------------------------------------------------------------- the last step

  lemma CompletionReady(t: Tables, tournament: Id, i: Id, body: ItemBody, skeletons: Skeletons)
    requires Intact(t) && i in t.stageItems && SlotsAre(t, i, t.stageItems[i].teamCount)
    requires PositionsWithin(t, i, t.stageItems[i].teamCount) && BeforeComplete(t, tournament, i, body, skeletons).Ok?
    requires t.stageItems[i].kind == SingleElimination && body.teamCount != t.stageItems[i].teamCount
    ensures var t4 := BeforeComplete(t, tournament, i, body, skeletons).value;
            RoundsOfItem(t4, i) == {} && MatchesOfItem(t4, i) == {} && BracketRounds(body.teamCount).Some?
  {
    hide Intact, ResizeForRanking, Reslotted, StartedMatches, PositionsCleared, WithoutBracket, BracketRounds,
      RoundsOfItem, MatchesOfItem, SlotsAre, PositionsWithin;
    BracketsHaveNoGames(ResizeForRanking(t, tournament, i, body.ranking).value, t, i, body, skeletons);
    hide AdjustIfAsked;
    var t1 := ResizeForRanking(t, tournament, i, body.ranking).value;
    var r := Reslotted(t1, t, tournament, i, body.teamCount).value;
    var u := r.(inputs := PositionsCleared(r.inputs, i, body.teamCount));
    BracketEmptied(u, i);
    BracketRoundless(u, i);
    SameRounds(WithoutBracket(u, i).value, BeforeComplete(t, tournament, i, body, skeletons).value, i);
  }

  lemma BracketRoundless(t: Tables, i: Id)
    requires WithoutBracket(t, i).Ok?
    ensures RoundsOfItem(WithoutBracket(t, i).value, i) == {}
  {
    hide FedBy;
    EmptyOrHasMember(RoundsOfItem(WithoutBracket(t, i).value, i));
  }

  /** Once the resize has gone through, the last step cannot fail: the inputs it lists exist, and a bracket of the
      size that was let through can be built. */
  lemma CompletionNeverFails(t: Tables, tournament: Id, i: Id, body: ItemBody, skeletons: Skeletons)
    requires Intact(t) && Sequenced(t) && BelongsTo(t, tournament, i) && SlotsAre(t, i, t.stageItems[i].teamCount)
    requires PositionsWithin(t, i, t.stageItems[i].teamCount) && BeforeComplete(t, tournament, i, body, skeletons).Ok?
    ensures Sequenced(BeforeComplete(t, tournament, i, body, skeletons).value)
    ensures Complete(BeforeComplete(t, tournament, i, body, skeletons).value, t, i, body.teamCount).Ok?
  {
    hide Intact, BeforeComplete, AddMissing, BuildBracket, LosesOnlyIdle, SlotsAre, PositionsWithin, OthersKept,
      TracksLess, StaysInOrder, BracketOver, BracketRounds, RoundsOfItem, LostInputs;
    var t4 := BeforeComplete(t, tournament, i, body, skeletons).value;
    BeforeCompleteFrame(t, tournament, i, body, skeletons);
    BeforeCompleteReslots(t, tournament, i, body, skeletons);
    InputsCounted(t4, i, body.teamCount);
    if t.stageItems[i].kind == SingleElimination && body.teamCount != t.stageItems[i].teamCount {
      CompletionReady(t, tournament, i, body, skeletons);
      BuildBracketForm(t4, i, body.teamCount);
    }
  }

  /** So an update never ends in a failure of the program itself. */
  lemma UpdateNeverCrashes(t: Tables, tournament: Id, i: Id, body: ItemBody, skeletons: Skeletons)
    requires Intact(t) && Sequenced(t) && SlotsOk(t) && PositionsOk(t)
    ensures UpdateStageItem(t, tournament, i, body, skeletons).Err? ==>
              UpdateStageItem(t, tournament, i, body, skeletons).error
                in {Http(400), Http(422), ForeignKeyViolation, CheckViolation}
  {
    hide Intact, BeforeComplete, Complete, SlotsAre, PositionsWithin, Sequenced;
    if UpdateRefused(t, tournament, i, body).None? {
      if BeforeComplete(t, tournament, i, body, skeletons).Ok? {
        CompletionNeverFails(t, tournament, i, body, skeletons);
      } else {
        BeforeCompleteErrors(t, tournament, i, body, skeletons);
      }
    }
  }

  lemma {:induction false} OneByOneErrors(t: Tables, ids: seq<Id>)
    ensures DeletedOneByOne(t, ids).Err? ==> DeletedOneByOne(t, ids).error == ForeignKeyViolation
  {
    if ids != [] { OneByOneErrors(t, ids[..|ids| - 1]); }
  }

  lemma {:induction false} RoundsDeletedErrors(t: Tables, seen: Tables, rounds: seq<Id>)
    ensures RoundsDeleted(t, seen, rounds).Err? ==> RoundsDeleted(t, seen, rounds).error == ForeignKeyViolation
  {
    hide DeletedOneByOne, MatchesOfRounds;
    if rounds != [] {
      var n := |rounds| - 1;
      RoundsDeletedErrors(t, seen, rounds[..n]);
      if RoundsDeleted(t, seen, rounds[..n]).Ok? {
        OneByOneErrors(RoundsDeleted(t, seen, rounds[..n]).value, Ids(MatchesOfRounds(seen, {rounds[n]})));
      }
    }
  }

  lemma BeforeCompleteErrors(t: Tables, tournament: Id, i: Id, body: ItemBody, skeletons: Skeletons)
    requires i in t.stageItems && BeforeComplete(t, tournament, i, body, skeletons).Err?
    ensures BeforeComplete(t, tournament, i, body, skeletons).error in {Http(400), ForeignKeyViolation, CheckViolation}
  {
    hide ResizeForRanking, AdjustIfAsked, ResizeIfNeeded;
    RankingErrors(t, tournament, i, body.ranking);
    if ResizeForRanking(t, tournament, i, body.ranking).Ok? {
      var t1 := ResizeForRanking(t, tournament, i, body.ranking).value;
      AdjustErrors(t1, t, i, body, skeletons);
      if AdjustIfAsked(t1, t, i, body, skeletons).Ok? {
        ResizeErrors(AdjustIfAsked(t1, t, i, body, skeletons).value, t, tournament, i, body.teamCount);
      }
    }
  }

  lemma RankingErrors(t: Tables, tournament: Id, i: Id, ranking: Id)
    requires i in t.stageItems
    ensures var r := ResizeForRanking(t, tournament, i, ranking); r.Err? ==> r.error == CheckViolation
  {
    hide BreaksCheck, Resized;
  }

  lemma AdjustErrors(t: Tables, seen: Tables, i: Id, body: ItemBody, skeletons: Skeletons)
    requires i in seen.stageItems
    ensures var r := AdjustIfAsked(t, seen, i, body, skeletons);
            r.Err? ==> r.error in {Http(400), ForeignKeyViolation}
  {
    hide SkeletonRounds, RoundsDeleted, AllIdle, TrailingRounds;
    if body.gamesPerPlayer.Some? && seen.stageItems[i].gamesPerPlayer.Some? {
      var item, games := seen.stageItems[i], body.gamesPerPlayer.value;
      RoundsDeletedErrors(t, seen, TrailingRounds(seen, i, |skeletons(item.kind, item.teamCount, games)|));
    }
  }

  lemma ResizeErrors(t: Tables, seen: Tables, tournament: Id, i: Id, count: int)
    requires i in seen.stageItems
    ensures var r := ResizeIfNeeded(t, seen, tournament, i, count);
            r.Err? ==> r.error in {Http(400), ForeignKeyViolation}
  {
    hide Appended, EmptyInputs, RemovedInputs, BlockingSlots, RemovableMatches, DeletedOneByOne, StartedMatches,
      PositionsCleared, Renumbered, BySlot, Without, FedBy, PlayedIn, MatchesOfItem, RoundsOfItem, BracketRounds,
      InputsOfItem;
    var was := seen.stageItems[i].teamCount;
    if seen.stageItems[i].kind != SingleElimination && count < was {
      OneByOneErrors(t, RemovableMatches(seen, i, RemovedInputs(seen, i, was - count)));
    }
  }

  // ---------------------------------------------------------------- a resized round robin ends complete

  lemma ShrunkMatches(t: Tables, s: Tables, tournament: Id, i: Id, count: int)
    requires Midway(t, s, i) && t.stageItems[i].kind == StageKind.RoundRobin && s.matches.Keys == t.matches.Keys
    requires ResizeIfNeeded(s, t, tournament, i, count).Ok?
    ensures var s' := ResizeIfNeeded(s, t, tournament, i, count).value;
            && s'.rounds == s.rounds
            && s'.matches.Keys == t.matches.Keys - InvolvedMatches(t, i, LostInputs(t, i, count))
  {
    hide Intact, NewAreOpen, LosesOnlyIdle, InvolvedMatches, LostInputs, ResizeIfNeeded;
    var was := t.stageItems[i].teamCount;
    if count < was {
      CutMatches(t, s, tournament, i, count);
    } else {
      UncutMatches(t, s, tournament, i, count);
    }
  }

  lemma CutMatches(t: Tables, s: Tables, tournament: Id, i: Id, count: int)
    requires Midway(t, s, i) && t.stageItems[i].kind == StageKind.RoundRobin && s.matches.Keys == t.matches.Keys
    requires count < t.stageItems[i].teamCount && ResizeIfNeeded(s, t, tournament, i, count).Ok?
    ensures var s' := ResizeIfNeeded(s, t, tournament, i, count).value;
            && s'.rounds == s.rounds
            && s'.matches.Keys == t.matches.Keys - InvolvedMatches(t, i, LostInputs(t, i, count))
  {
    hide Intact, NewAreOpen, LosesOnlyIdle, Carried, Resize, RemovedInputs, InvolvedMatches, CanShrink, ShrunkTables;
    var removed := RemovedInputs(t, i, t.stageItems[i].teamCount - count);
    CarriedMidway(t, s, i);
    ShrinkOutcome(s, t, tournament, i, count);
    ShrunkKeys(s, i, removed, InvolvedMatches(t, i, removed), count);
  }

  lemma UncutMatches(t: Tables, s: Tables, tournament: Id, i: Id, count: int)
    requires i in t.stageItems && t.stageItems[i].kind == StageKind.RoundRobin && s.matches.Keys == t.matches.Keys
    requires count >= t.stageItems[i].teamCount && ResizeIfNeeded(s, t, tournament, i, count).Ok?
    ensures var s' := ResizeIfNeeded(s, t, tournament, i, count).value;
            && s'.rounds == s.rounds
            && s'.matches.Keys == t.matches.Keys - InvolvedMatches(t, i, LostInputs(t, i, count))
  {
    hide Resize, InvolvedMatches;
    NobodyInvolved(t, i);
    assert t.matches.Keys - {} == t.matches.Keys;
    if count > t.stageItems[i].teamCount { GrowthKeepsMatches(s, t, tournament, i, count); }
  }

  lemma GrowthKeepsMatches(t: Tables, seen: Tables, tournament: Id, i: Id, count: int)
    requires i in seen.stageItems && count > seen.stageItems[i].teamCount && Resize(t, seen, tournament, i, count).Ok?
    ensures var t' := Resize(t, seen, tournament, i, count).value; t'.rounds == t.rounds && t'.matches == t.matches
  {
    hide Appended;
  }

  lemma ShrunkKeys(t: Tables, i: Id, removed: set<Id>, gone: set<Id>, count: int)
    ensures var t' := ShrunkTables(t, i, removed, gone, count);
            t'.rounds == t.rounds && t'.matches.Keys == t.matches.Keys - gone
  {
    hide PositionsCleared, Renumbered, Without, BySlot;
  }

  lemma NobodyInvolved(t: Tables, i: Id)
    ensures InvolvedMatches(t, i, {}) == {}
  {
    EmptyOrHasMember(InvolvedMatches(t, i, {}));
  }

  /** Two inputs that stay keep exactly the matches they had with each other. */
  lemma PairsCarry(t: Tables, t4: Tables, i: Id, lost: set<Id>, x: Id, y: Id)
    requires LosesOnlyIdle(t, t, t4, i) && t4.rounds == t.rounds
    requires t4.matches.Keys == t.matches.Keys - InvolvedMatches(t, i, lost)
    requires forall m | m in t.matches :: t.matches[m].round in t.rounds
    requires x !in lost && y !in lost
    ensures MatchesOfPair(t4, i, {x, y}) == MatchesOfPair(t, i, {x, y})
    ensures {x, y} in PairsOf(t4, i) <==> {x, y} in PairsOf(t, i)
  {
    hide LosesOnlyIdle;
    forall m ensures m in MatchesOfPair(t4, i, {x, y}) <==> m in MatchesOfPair(t, i, {x, y}) {
      PairCarries(t, t4, i, lost, x, y, m);
    }
    PairHasMatch(t, i, {x, y});
    PairHasMatch(t4, i, {x, y});
  }

  lemma PairCarries(t: Tables, t4: Tables, i: Id, lost: set<Id>, x: Id, y: Id, m: Id)
    requires LosesOnlyIdle(t, t, t4, i) && t4.rounds == t.rounds
    requires t4.matches.Keys == t.matches.Keys - InvolvedMatches(t, i, lost)
    requires forall m | m in t.matches :: t.matches[m].round in t.rounds
    requires x !in lost && y !in lost
    ensures m in MatchesOfPair(t4, i, {x, y}) <==> m in MatchesOfPair(t, i, {x, y})
  {
    assert m in t4.matches <==> m in t4.matches.Keys;
    if m in t4.matches {
      assert m in t.matches.Keys;
      assert t4.matches[m] == t.matches[m].(referee := t4.matches[m].referee, progress := t4.matches[m].progress);
    } else if m in MatchesOfPair(t, i, {x, y}) {
      NotInvolvedPair(t, i, lost, x, y, m);
    }
  }

  lemma NotInvolvedPair(t: Tables, i: Id, lost: set<Id>, x: Id, y: Id, m: Id)
    requires m in MatchesOfPair(t, i, {x, y}) && x !in lost && y !in lost
    ensures m in t.matches && m !in InvolvedMatches(t, i, lost)
  {
    assert t.matches[m].input1.value in {x, y} && t.matches[m].input2.value in {x, y};
  }

  /** An input that was not there before has no match. */
  lemma NewInputHasNone(t: Tables, t4: Tables, i: Id, x: Id, y: Id)
    requires LosesOnlyIdle(t, t, t4, i) && t4.matches.Keys <= t.matches.Keys && x !in t.inputs
    requires forall m | m in t.matches ::
               MatchRefers(t.matches[m], t.rounds.Keys, t.inputs.Keys, t.matches.Keys, t.courts.Keys)
    ensures {x, y} !in PairsOf(t4, i)
  {
    PairHasMatch(t4, i, {x, y});
    forall m ensures m !in MatchesOfPair(t4, i, {x, y}) {
      if m in t4.matches {
        assert m in t.matches.Keys;
        assert t4.matches[m] == t.matches[m].(referee := t4.matches[m].referee, progress := t4.matches[m].progress);
        UnknownPlaysNone(t, t4.matches[m], x, y);
      }
    }
    EmptyOrHasMember(MatchesOfPair(t4, i, {x, y}));
  }

  lemma UnknownPlaysNone(t: Tables, m: Match, x: Id, y: Id)
    requires Refers(m.input1, t.inputs.Keys) && Refers(m.input2, t.inputs.Keys) && x !in t.inputs
    ensures !PlaysPair(m, {x, y})
  {
    assert x in {x, y};
    if m.input1.Some? && m.input2.Some? { assert x !in {m.input1.value, m.input2.value}; }
  }

  /** A round-robin item that is about to be completed: it has the matches it had, without those that were lost. */
  lemma BeforeRoundRobin(t: Tables, tournament: Id, i: Id, body: ItemBody, skeletons: Skeletons)
    requires Intact(t) && i in t.stageItems && t.stageItems[i].kind == StageKind.RoundRobin
    requires BeforeComplete(t, tournament, i, body, skeletons).Ok?
    ensures var t4 := BeforeComplete(t, tournament, i, body, skeletons).value;
            && t4.rounds == t.rounds
            && t4.matches.Keys == t.matches.Keys - InvolvedMatches(t, i, LostInputs(t, i, body.teamCount))
  {
    hide Intact, ResizeForRanking, ResizeIfNeeded, InvolvedMatches, LostInputs, Midway;
    MidwayHolds(t, tournament, i, body, skeletons);
    ResizeForRankingFrame(t, tournament, i, body.ranking);
    var t1 := ResizeForRanking(t, tournament, i, body.ranking).value;
    BracketsHaveNoGames(t1, t, i, body, skeletons);
    hide AdjustIfAsked;
    ShrunkMatches(t, t1, tournament, i, body.teamCount);
  }

  /** Some two inputs will lack a match when the item is resized: always when it grows, else when two that stay have
      none now. */
  ghost predicate WillLackPair(t: Tables, i: Id, count: int) {
    || (i in t.stageItems && count > t.stageItems[i].teamCount)
    || exists x, y :: && x in InputsOfItem(t, i) - LostInputs(t, i, count)
                      && y in InputsOfItem(t, i) - LostInputs(t, i, count)
                      && x != y && {x, y} !in PairsOf(t, i)
  }

  /** Resized from `t` to `t4`: which pairs of its inputs have a match. */
  ghost predicate PairsAfter(t: Tables, t4: Tables, i: Id, lost: set<Id>) {
    && (forall x | x in InputsOfItem(t4, i) && x in t.inputs :: x in InputsOfItem(t, i) && x !in lost)
    && (forall x | x in InputsOfItem(t, i) && x !in lost :: x in InputsOfItem(t4, i))
    && (forall x, y | x in InputsOfItem(t4, i) && y in InputsOfItem(t4, i) && x in t.inputs && y in t.inputs ::
          && MatchesOfPair(t4, i, {x, y}) == MatchesOfPair(t, i, {x, y})
          && ({x, y} in PairsOf(t4, i) <==> {x, y} in PairsOf(t, i)))
    && (forall x, y | x in InputsOfItem(t4, i) && y in InputsOfItem(t4, i) && x !in t.inputs ::
         {x, y} !in PairsOf(t4, i))
  }

  lemma PairsAfterResize(t: Tables, tournament: Id, i: Id, body: ItemBody, skeletons: Skeletons)
    requires Intact(t) && BelongsTo(t, tournament, i) && t.stageItems[i].kind == StageKind.RoundRobin
    requires SlotsAre(t, i, t.stageItems[i].teamCount) && PositionsWithin(t, i, t.stageItems[i].teamCount)
    requires BeforeComplete(t, tournament, i, body, skeletons).Ok?
    ensures PairsAfter(t, BeforeComplete(t, tournament, i, body, skeletons).value, i, LostInputs(t, i, body.teamCount))
  {
    hide Intact, BeforeComplete, SlotsAre, PositionsWithin, InputsOfItem, PairsOf, MatchesOfPair, OthersKept,
      TracksLess, LosesOnlyIdle, InvolvedMatches, LostInputs;
    var t4, lost := BeforeComplete(t, tournament, i, body, skeletons).value, LostInputs(t, i, body.teamCount);
    BeforeCompleteReslots(t, tournament, i, body, skeletons);
    BeforeRoundRobin(t, tournament, i, body, skeletons);
    IntactRefers(t);
    InputsAfter(t, t4, i, body.teamCount);
    forall x, y | x in InputsOfItem(t4, i) && y in InputsOfItem(t4, i) && x in t.inputs && y in t.inputs
      ensures MatchesOfPair(t4, i, {x, y}) == MatchesOfPair(t, i, {x, y})
      ensures {x, y} in PairsOf(t4, i) <==> {x, y} in PairsOf(t, i)
    {
      PairsCarry(t, t4, i, lost, x, y);
    }
    forall x, y | x in InputsOfItem(t4, i) && y in InputsOfItem(t4, i) && x !in t.inputs
      ensures {x, y} !in PairsOf(t4, i)
    {
      NewInputHasNone(t, t4, i, x, y);
    }
  }

  lemma InputsAfter(t: Tables, t': Tables, i: Id, count: int)
    requires Reslots(t, t, t', i, count)
    ensures forall x | x in InputsOfItem(t', i) && x in t.inputs ::
              x in InputsOfItem(t, i) && x !in LostInputs(t, i, count)
    ensures forall x | x in InputsOfItem(t, i) && x !in LostInputs(t, i, count) :: x in InputsOfItem(t', i)
  {
    hide SlotsAre, PositionsWithin, LostInputs, TracksLess;
    forall x | x in InputsOfItem(t, i) && x !in LostInputs(t, i, count) ensures x in InputsOfItem(t', i) {
      assert x in t.inputs.Keys && x !in t.inputs.Keys - t'.inputs.Keys;
    }
    forall x | x in InputsOfItem(t', i) && x in t.inputs
      ensures x in InputsOfItem(t, i) && x !in LostInputs(t, i, count)
    {
      assert x in t'.inputs.Keys && x !in t.inputs.Keys - t'.inputs.Keys;
    }
  }

  /** The matches a resized round robin gets are in the rounds in which the table pairs them, no two of them in one
      round with the same input; rounds come where there are too few. */
  lemma UpdateSchedulesRoundRobin(t: Tables, tournament: Id, i: Id, body: ItemBody, skeletons: Skeletons)
    requires Intact(t) && Sequenced(t) && SlotsOk(t) && PositionsOk(t)
    requires UpdateStageItem(t, tournament, i, body, skeletons).Ok?
    requires t.stageItems[i].kind == StageKind.RoundRobin && body.teamCount != t.stageItems[i].teamCount
    ensures Scheduled(t, UpdateStageItem(t, tournament, i, body, skeletons).value, i, body.teamCount)
  {
    hide Intact, BeforeComplete, AddMissing, SlotsAre, PositionsWithin, InputsOfItem, Sequenced, Scheduled,
      InvolvedMatches, LostInputs;
    var t4, t' := BeforeComplete(t, tournament, i, body, skeletons).value,
                  UpdateStageItem(t, tournament, i, body, skeletons).value;
    BeforeCompleteFrame(t, tournament, i, body, skeletons);
    BeforeRoundRobin(t, tournament, i, body, skeletons);
    BeforeCompleteIntact(t, tournament, i, body, skeletons);
    IntactRefers(t4);
    AddMissingSchedules(t4, i, body.teamCount);
    forall m | m in t'.matches && m !in t.matches ensures m !in t4.matches {
      assert m in t4.matches ==> m in t4.matches.Keys && m in t.matches.Keys;
    }
    SameScheduled(t, t4, t', i, body.teamCount);
  }

  /** A resized round-robin item ends with every two of its inputs playing: two that had matches with each other keep
      exactly those, any other two have exactly one. */
  lemma UpdateCompletesRoundRobin(t: Tables, tournament: Id, i: Id, body: ItemBody, skeletons: Skeletons)
    requires Intact(t) && Sequenced(t) && SlotsOk(t) && PositionsOk(t)
    requires UpdateStageItem(t, tournament, i, body, skeletons).Ok?
    requires t.stageItems[i].kind == StageKind.RoundRobin && body.teamCount != t.stageItems[i].teamCount
    ensures var t' := UpdateStageItem(t, tournament, i, body, skeletons).value;
            forall x, y | x in InputsOfItem(t', i) && y in InputsOfItem(t', i) && x != y ::
              && {x, y} in PairsOf(t', i)
              && if x in t.inputs && y in t.inputs && {x, y} in PairsOf(t, i)
                 then MatchesOfPair(t', i, {x, y}) == MatchesOfPair(t, i, {x, y})
                 else |MatchesOfPair(t', i, {x, y})| == 1
  {
    hide Intact, BeforeComplete, AddMissing, SlotsAre, PositionsWithin, InputsOfItem, PairsOf, MatchesOfPair,
      OthersKept, TracksLess, StaysInOrder, LosesOnlyIdle, LostInputs, Sequenced;
    var t4, t' := BeforeComplete(t, tournament, i, body, skeletons).value,
                  UpdateStageItem(t, tournament, i, body, skeletons).value;
    BeforeCompleteFrame(t, tournament, i, body, skeletons);
    BeforeCompleteReslots(t, tournament, i, body, skeletons);
    PairsAfterResize(t, tournament, i, body, skeletons);
    IntactRefers(t4);
    IntactIsSequenced(t4);
    AddMissingCompletes(t4, i, body.teamCount);
    SameInputsSameSlots(t4, t', i);
    forall x, y | x in InputsOfItem(t', i) && y in InputsOfItem(t', i) && x != y
      ensures {x, y} in PairsOf(t', i)
      ensures if x in t.inputs && y in t.inputs && {x, y} in PairsOf(t, i)
              then MatchesOfPair(t', i, {x, y}) == MatchesOfPair(t, i, {x, y})
              else |MatchesOfPair(t', i, {x, y})| == 1
    {
      assert {x, y} == {y, x};
    }
  }

  // ---------------------------------------------------------------- when the last step adds a match

  lemma LackingBefore(t: Tables, t4: Tables, i: Id, count: TeamCount)
    requires i in t.stageItems && PairsAfter(t, t4, i, LostInputs(t, i, count)) && SlotsAre(t4, i, count)
    requires SlotsAre(t, i, t.stageItems[i].teamCount)
    ensures LacksPair(t4, i) <==> WillLackPair(t, i, count)
  {
    hide LostInputs, PairsOf, MatchesOfPair, SlotsAre, InputsOfItem;
    if count > t.stageItems[i].teamCount {
      GrownLacks(t, t4, i, count);
    } else if WillLackPair(t, i, count) {
      var x, y :| && x in InputsOfItem(t, i) - LostInputs(t, i, count)
                  && y in InputsOfItem(t, i) - LostInputs(t, i, count)
                  && x != y && {x, y} !in PairsOf(t, i);
      ItemInputs(t, i, x);
      ItemInputs(t, i, y);
      assert x in InputsOfItem(t4, i) && y in InputsOfItem(t4, i) && {x, y} !in PairsOf(t4, i);
    } else {
      StayedInputs(t, t4, i, count);
      forall x, y | x in InputsOfItem(t4, i) && y in InputsOfItem(t4, i) && x != y ensures {x, y} in PairsOf(t4, i) {
        assert {x, y} in PairsOf(t, i);
      }
    }
  }

  lemma AnotherMember(s: set<Id>, x: Id)
    requires x in s && |s| >= 2
    ensures exists y :: y in s && y != x
  {
    EmptyOrHasMember(s - {x});
    assert s == {x} + (s - {x}) && |s - {x}| == |s| - 1;
  }

  lemma ItemInputs(t: Tables, i: Id, x: Id)
    requires x in InputsOfItem(t, i)
    ensures x in t.inputs && t.inputs[x].stageItem == i
  {
  }

  /** A grown item has an input it did not have, and another. */
  lemma GrownLacks(t: Tables, t4: Tables, i: Id, count: TeamCount)
    requires i in t.stageItems && PairsAfter(t, t4, i, LostInputs(t, i, count)) && SlotsAre(t4, i, count)
    requires SlotsAre(t, i, t.stageItems[i].teamCount) && count > t.stageItems[i].teamCount
    ensures LacksPair(t4, i)
  {
    hide LostInputs, PairsOf, MatchesOfPair, SlotsAre, InputsOfItem;
    InputsCounted(t, i, t.stageItems[i].teamCount);
    InputsCounted(t4, i, count);
    var was, now := InputsOfItem(t, i), InputsOfItem(t4, i);
    MoreHasOther(was, now);
    var x :| x in now - was;
    AnotherMember(now, x);
    var y :| y in now && y != x;
    assert x !in t.inputs;
    assert x in InputsOfItem(t4, i) && y in InputsOfItem(t4, i) && {x, y} !in PairsOf(t4, i);
  }

  lemma MoreHasOther(a: set<Id>, b: set<Id>)
    requires |a| < |b|
    ensures exists x :: x in b - a
  {
    EmptyOrHasMember(b - a);
    SubsetCounts(a * b, a);
    assert b == (b - a) + (a * b);
  }

  lemma SubsetCounts(a: set<Id>, b: set<Id>)
    requires a <= b
    ensures |a| <= |b|
  {
    assert b == a + (b - a);
  }

  /** An item that has not grown has no input it did not have. */
  lemma StayedInputs(t: Tables, t4: Tables, i: Id, count: TeamCount)
    requires i in t.stageItems && PairsAfter(t, t4, i, LostInputs(t, i, count)) && SlotsAre(t4, i, count)
    requires SlotsAre(t, i, t.stageItems[i].teamCount) && count <= t.stageItems[i].teamCount
    ensures forall x | x in InputsOfItem(t4, i) :: x in t.inputs && x in InputsOfItem(t, i) - LostInputs(t, i, count)
  {
    hide PairsOf, MatchesOfPair, SlotsAre, InputsOfItem, LostInputs, WillLackPair;
    InputsCounted(t, i, t.stageItems[i].teamCount);
    InputsCounted(t4, i, count);
    LostCount(t, i, count);
    var all, lost, now := InputsOfItem(t, i), LostInputs(t, i, count), InputsOfItem(t4, i);
    forall x | x in all - lost ensures x in now {}
    assert all == (all - lost) + lost;
    SameCount(all - lost, now);
    forall x | x in now ensures x in t.inputs { ItemInputs(t, i, x); }
  }

  lemma LostCount(t: Tables, i: Id, count: int)
    requires i in t.stageItems && SlotsAre(t, i, t.stageItems[i].teamCount) && 0 <= count <= t.stageItems[i].teamCount
    ensures LostInputs(t, i, count) <= InputsOfItem(t, i)
    ensures |LostInputs(t, i, count)| <= t.stageItems[i].teamCount - count
  {
    var k := t.stageItems[i].teamCount - count;
    var order := EmptyFromBack(t, i);
    var taken := order[..Min(k, |order|)];
    hide SlotsAre, Slots;
    GroupSize(taken);
    forall x | x in LostInputs(t, i, count) ensures x in InputsOfItem(t, i) {
      assert x in order;
    }
  }

  lemma {:induction false} GroupSize(order: seq<Id>)
    ensures |Group(order)| <= |order|
  {
    if order == [] {
      assert Group(order) == {};
    } else {
      var n := |order| - 1;
      GroupSize(order[..n]);
      assert order == order[..n] + [order[n]];
      assert Group(order) == Group(order[..n]) + {order[n]};
    }
  }

  lemma SameCount(a: set<Id>, b: set<Id>)
    requires a <= b && |a| >= |b|
    ensures a == b
  {
    assert b == a + (b - a);
  }

  /** What a caller can check before: the last step adds a match exactly when a bracket is resized, or a round robin
      in which some two inputs will lack a match. */
  lemma CompletionAddsExactly(t: Tables, tournament: Id, i: Id, body: ItemBody, skeletons: Skeletons)
    requires Intact(t) && Sequenced(t) && SlotsOk(t) && PositionsOk(t) && ProgressOk(t) && Tenancy(t)
    requires UpdateStageItem(t, tournament, i, body, skeletons).Ok?
    ensures var t' := UpdateStageItem(t, tournament, i, body, skeletons).value;
            CompletionAddsMatch(t, t', i, body, skeletons) <==>
              && body.teamCount != t.stageItems[i].teamCount
              && match t.stageItems[i].kind
                 case RoundRobin => WillLackPair(t, i, body.teamCount)
                 case SingleElimination => true
                 case _ => false
  {
    hide Intact, ProgressOk, Tenancy, BeforeComplete, AddMissing, BuildBracket, SlotsAre, PositionsWithin, Sequenced,
      HasNewMatch, HasOldMatch, GrowthAddsMatch, Extended, WillLackPair, LacksPair, Reslots, LosesOnlyIdle, PairsAfter,
      ChainRefers, RoundsOfItem, BracketRounds;
    var t4 := BeforeComplete(t, tournament, i, body, skeletons).value;
    var t' := UpdateStageItem(t, tournament, i, body, skeletons).value;
    BeforeCompleteCounts(t, tournament, i, body, skeletons);
    BeforeCompleteFrame(t, tournament, i, body, skeletons);
    CompleteExtends(t4, t, i, body.teamCount);
    if StandingsResolved(t.stageItems[i].kind) {
      OnlyTwoKindsComplete(t4, t, i, body.teamCount);
    } else {
      BeforeCompleteLoses(t, tournament, i, body, skeletons);
      NewFromCompletion(t4, t', t, i, body, skeletons);
      BeforeCompleteReslots(t, tournament, i, body, skeletons);
      ReslotsCounts(t, t4, i, body.teamCount);
      if body.teamCount != t.stageItems[i].teamCount {
        CompletionKeys(t, tournament, i, body, skeletons);
      }
    }
  }

  lemma ReslotsCounts(t: Tables, t4: Tables, i: Id, count: int)
    requires Reslots(t, t, t4, i, count)
    ensures SlotsAre(t4, i, count) && |InputsOfItem(t4, i)| == count
  {
    InputsCounted(t4, i, count);
  }

  lemma CompletionKeys(t: Tables, tournament: Id, i: Id, body: ItemBody, skeletons: Skeletons)
    requires Intact(t) && Sequenced(t) && SlotsOk(t) && PositionsOk(t) && BelongsTo(t, tournament, i)
    requires BeforeComplete(t, tournament, i, body, skeletons).Ok? && body.teamCount != t.stageItems[i].teamCount
    requires Sequenced(BeforeComplete(t, tournament, i, body, skeletons).value)
    requires !StandingsResolved(t.stageItems[i].kind)
    ensures var t4 := BeforeComplete(t, tournament, i, body, skeletons).value;
            var r := Complete(t4, t, i, body.teamCount);
            r.Ok? && (r.value.matches.Keys != t4.matches.Keys <==>
                        t.stageItems[i].kind == SingleElimination || WillLackPair(t, i, body.teamCount))
  {
    hide Intact, BeforeComplete, AddMissing, BuildBracket, SlotsAre, PositionsWithin, Sequenced, WillLackPair,
      LacksPair, Reslots, LosesOnlyIdle, PairsAfter, RoundsOfItem, BracketRounds, InputsOfItem;
    var t4 := BeforeComplete(t, tournament, i, body, skeletons).value;
    BeforeCompleteReslots(t, tournament, i, body, skeletons);
    ReslotsCounts(t, t4, i, body.teamCount);
    IntactRefers(t4);
    IntactIsSequenced(t4);
    if t.stageItems[i].kind == SingleElimination {
      CompletionReady(t, tournament, i, body, skeletons);
      BuiltKeys(t4, i, body.teamCount);
    } else {
      PairsAfterResize(t, tournament, i, body, skeletons);
      LackingBefore(t, t4, i, body.teamCount);
      AddMissingAdds(t4, i, body.teamCount);
    }
  }

  // ---------------------------------------------------------------- fewer games

  lemma TrailingAreYoungest(seen: Tables, i: Id, keep: nat, r: Id, x: Id)
    requires r in Group(TrailingRounds(seen, i, keep))
    requires x in RoundsOfItem(seen, i) && x !in Group(TrailingRounds(seen, i, keep))
    ensures x < r
  {
    var order := Ids(RoundsOfItem(seen, i));
    var k := Min(keep, |order|);
    var key: map<Id, int> := map x | x in RoundsOfItem(seen, i) :: x;
    assert order == SortedBy(RoundsOfItem(seen, i), key);
    assert x in order && x !in order[k..] && r in order[k..];
    LaterIsYounger(order, k, key, x, r);
  }

  lemma InTail(order: seq<Id>, k: nat, a: nat)
    requires k <= |order| && a < |order|
    ensures a >= k ==> order[a] in order[k..]
  {
    if a >= k { assert order[k..][a - k] == order[a]; }
  }

  lemma LaterIsYounger(order: seq<Id>, k: nat, key: map<Id, int>, x: Id, r: Id)
    requires k <= |order| && r in order[k..] && x in order && x !in order[k..]
    requires forall y | y in order :: y in key && key[y] == y
    requires forall a, b | 0 <= a < b < |order| :: Before(key, order[a], order[b])
    ensures x < r
  {
    var b :| 0 <= b < |order[k..]| && order[k..][b] == r;
    var a :| 0 <= a < |order| && order[a] == x;
    InTail(order, k, a);
    assert Before(key, order[a], order[k + b]);
  }

  lemma {:induction false} RoundsDeletedExactly(t: Tables, seen: Tables, rounds: seq<Id>)
    requires RoundsDeleted(t, seen, rounds).Ok?
    ensures RoundsDeleted(t, seen, rounds).value.rounds == t.rounds - Group(rounds)
  {
    if rounds == [] {
      assert t.rounds - Group([]) == t.rounds;
    } else {
      var n := |rounds| - 1;
      RoundsDeletedExactly(t, seen, rounds[..n]);
      RoundDeleted(t, seen, rounds);
      hide RoundsDeleted, Group;
      GroupLast(rounds);
      assert (t.rounds - Group(rounds[..n])) - {rounds[n]} == t.rounds - Group(rounds);
    }
  }

  lemma RoundDeleted(t: Tables, seen: Tables, rounds: seq<Id>)
    requires rounds != [] && RoundsDeleted(t, seen, rounds).Ok?
    ensures var n := |rounds| - 1;
            && RoundsDeleted(t, seen, rounds[..n]).Ok?
            && RoundsDeleted(t, seen, rounds).value.rounds
               == RoundsDeleted(t, seen, rounds[..n]).value.rounds - {rounds[n]}
  {
    hide DeletedOneByOne, MatchesOfRounds;
    var n := |rounds| - 1;
    OneByOneFrame(RoundsDeleted(t, seen, rounds[..n]).value, Ids(MatchesOfRounds(seen, {rounds[n]})));
  }

  lemma GroupLast(ids: seq<Id>)
    requires ids != []
    ensures Group(ids) == Group(ids[..|ids| - 1]) + {ids[|ids| - 1]}
  {
    assert ids == ids[..|ids| - 1] + [ids[|ids| - 1]];
  }

  lemma ResizeKeepsRounds(t: Tables, seen: Tables, tournament: Id, i: Id, count: int)
    requires i in seen.stageItems && Resize(t, seen, tournament, i, count).Ok?
    ensures Resize(t, seen, tournament, i, count).value.rounds == t.rounds
  {
    hide EmptyInputs, BlockingSlots, RemovedInputs, Shrunk, Appended;
    var was := seen.stageItems[i].teamCount;
    if count > was {
      AppendedKeepsRounds(t, tournament, i, was + 1, count - was);
    } else {
      ShrunkKeepsRounds(t, seen, i, RemovedInputs(seen, i, was - count), count);
    }
  }

  lemma {:induction false} AppendedKeepsRounds(t: Tables, tournament: Id, i: Id, first: int, k: nat)
    ensures Appended(t, tournament, i, first, k).rounds == t.rounds
  {
    if k > 0 { AppendedKeepsRounds(t, tournament, i, first, k - 1); }
  }

  lemma ShrunkKeepsRounds(t: Tables, seen: Tables, i: Id, removed: set<Id>, count: int)
    requires Shrunk(t, seen, i, removed, count).Ok?
    ensures Shrunk(t, seen, i, removed, count).value.rounds == t.rounds
  {
    hide RemovableMatches, DeletedOneByOne, Renumbered, PositionsCleared, BySlot, PlayedIn, InputsOfItem, Without;
    OneByOneFrame(t, RemovableMatches(seen, i, removed));
  }

  /** The request asks for fewer games per player, and their skeleton has `keep` rounds, fewer than now. */
  ghost predicate FewerRounds(t: Tables, i: Id, body: ItemBody, skeletons: Skeletons, keep: nat)
    requires i in t.stageItems
  {
    var item := t.stageItems[i];
    && StandingsResolved(item.kind) && item.gamesPerPlayer.Some? && body.gamesPerPlayer.Some?
    && body.gamesPerPlayer != item.gamesPerPlayer
    && keep == |skeletons(item.kind, item.teamCount, body.gamesPerPlayer.value)|
    && keep < |skeletons(item.kind, item.teamCount, item.gamesPerPlayer.value)|
  }

  lemma FewerRoundsLeft(t: Tables, tournament: Id, i: Id, body: ItemBody, skeletons: Skeletons, keep: nat)
    requires Sequenced(t) && UpdateStageItem(t, tournament, i, body, skeletons).Ok?
    requires FewerRounds(t, i, body, skeletons, keep)
    ensures UpdateStageItem(t, tournament, i, body, skeletons).value.rounds ==
            t.rounds - Group(TrailingRounds(t, i, keep))
    ensures AllIdle(t, Group(TrailingRounds(t, i, keep)))
  {
    hide ResizeForRanking, Resize, RoundsDeleted, TrailingRounds, Group, AllIdle, Sequenced;
    var t1 := ResizeForRanking(t, tournament, i, body.ranking).value;
    ResizeForRankingFrame(t, tournament, i, body.ranking);
    RoundsDeletedExactly(t1, t, TrailingRounds(t, i, keep));
    var t2 := RoundsDeleted(t1, t, TrailingRounds(t, i, keep)).value;
    if body.teamCount != t.stageItems[i].teamCount { ResizeKeepsRounds(t2, t, tournament, i, body.teamCount); }
  }

  lemma TrailingCount(seen: Tables, i: Id, keep: nat)
    ensures var gone := Group(TrailingRounds(seen, i, keep));
            gone <= RoundsOfItem(seen, i) && |RoundsOfItem(seen, i) - gone| == Min(keep, |RoundsOfItem(seen, i)|)
  {
    hide RoundsOfItem, Group;
    var order := Ids(RoundsOfItem(seen, i));
    GroupIs(order, RoundsOfItem(seen, i));
    TailTaken(order, Min(keep, |order|));
  }

  lemma TailTaken(order: seq<Id>, k: nat)
    requires k <= |order| && forall a, b | 0 <= a < b < |order| :: order[a] != order[b]
    ensures Group(order[k..]) <= Group(order) && |Group(order) - Group(order[k..])| == k
  {
    HeadStays(order, k);
    hide Group;
    DistinctCount(order[..k]);
  }

  lemma HeadStays(order: seq<Id>, k: nat)
    requires k <= |order| && forall a, b | 0 <= a < b < |order| :: order[a] != order[b]
    ensures Group(order[k..]) <= Group(order) && Group(order) - Group(order[k..]) == Group(order[..k])
  {
    forall r: Id ensures r in Group(order) - Group(order[k..]) <==> r in Group(order[..k]) { InHead(order, k, r); }
    forall r | r in order[k..] ensures r in order { InHead(order, k, r); }
  }

  lemma InHead(order: seq<Id>, k: nat, r: Id)
    requires k <= |order| && forall a, b | 0 <= a < b < |order| :: order[a] != order[b]
    ensures r in order && r !in order[k..] <==> r in order[..k]
  {
    assert order == order[..k] + order[k..];
    if r in order[..k] {
      var a :| 0 <= a < k && order[a] == r;
      forall b | 0 <= b < |order[k..]| ensures order[k..][b] != r { assert order[k..][b] == order[k + b]; }
    }
  }

  /** An update that asks for fewer games per player takes exactly the youngest rounds of the item, down to the rounds
      of the shorter skeleton, and only rounds in which no match has started; rounds of other items stay. */
  lemma FewerGamesTakeYoungest(t: Tables, tournament: Id, i: Id, body: ItemBody, skeletons: Skeletons, keep: nat)
    requires Sequenced(t) && UpdateStageItem(t, tournament, i, body, skeletons).Ok?
    requires FewerRounds(t, i, body, skeletons, keep)
    ensures var t', mine := UpdateStageItem(t, tournament, i, body, skeletons).value, RoundsOfItem(t, i);
            var gone := t.rounds.Keys - t'.rounds.Keys;
            && gone <= mine && |mine - gone| == Min(keep, |mine|) && t'.rounds == t.rounds - gone
            && (forall r, x | r in gone && x in mine - gone :: x < r)
            && (forall m | m in MatchesOfRounds(t, gone) :: StateOfMatch(t, m) == NotStarted)
  {
    hide UpdateStageItem, TrailingRounds, StateOfMatch, Sequenced, FewerRounds;
    FewerRoundsLeft(t, tournament, i, body, skeletons, keep);
    TrailingCount(t, i, keep);
    var t', gone := UpdateStageItem(t, tournament, i, body, skeletons).value, Group(TrailingRounds(t, i, keep));
    assert t.rounds.Keys - t'.rounds.Keys == gone by {
      forall r ensures r in t.rounds.Keys - t'.rounds.Keys <==> r in gone {
        assert r in gone ==> r in RoundsOfItem(t, i);
      }
    }
    forall r, x | r in gone && x in RoundsOfItem(t, i) - gone ensures x < r { TrailingAreYoungest(t, i, keep, r, x); }
  }
}
