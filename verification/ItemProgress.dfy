/** Set rows through the creation and the update of a stage item: in the middle of an update the item's old and
    new matches may have different numbers of sets, and what the item asks for at the end decides. */
module ItemProgress {
  import opened Schema
  import opened Progress
  import opened MatchSets
  import opened SetResize
  import opened Rankings
  import opened Deletion
  import opened StageItemResize
  import opened ItemMatches
  import opened RoundRobin
  import opened Elimination
  import opened EliminationResize
  import opened StageItems
  import opened SkeletonBuilders

  // ---------------------------------------------------------------- skeletons

  lemma {:induction false} SkeletonMatchesExtend(t: Tables, i: Id, round: Id, matches: seq<(int, int)>,
    bye: Option<int>)
    requires (forall m | m in t.matches :: m < t.nextId) && round in t.rounds && t.rounds[round].stageItem == i
    ensures var t' := SkeletonMatches(t, round, matches, bye);
            && Extended(t, t', i) && (forall m | m in t'.matches :: m < t'.nextId)
            && (t'.matches.Keys == t.matches.Keys <==> matches == [])
  {
    hide MatchesOfItem, Extended, WithMatch;
    if matches == [] {
      NothingExtends(t, i);
    } else {
      var k := |matches| - 1;
      SkeletonMatchesExtend(t, i, round, matches[..k], bye);
      var s := SkeletonMatches(t, round, matches[..k], bye);
      MatchExtends(s, i, SkeletonMatch(round, matches[k], bye));
      ExtendedTwice(t, s, SkeletonMatches(t, round, matches, bye), i);
      ExtendedKeys(t, s, i);
    }
  }

  ghost predicate AddsMatch(rounds: seq<RoundSkeleton>) {
    exists r :: 0 <= r < |rounds| && rounds[r].matches != []
  }

  lemma AddsMatchSplit(rounds: seq<RoundSkeleton>)
    requires rounds != []
    ensures AddsMatch(rounds) <==> AddsMatch(rounds[..|rounds| - 1]) || rounds[|rounds| - 1].matches != []
  {
    var k := |rounds| - 1;
    if AddsMatch(rounds[..k]) {
      var r :| 0 <= r < k && rounds[..k][r].matches != [];
      assert rounds[r].matches != [];
    }
    if AddsMatch(rounds) {
      var r :| 0 <= r < |rounds| && rounds[r].matches != [];
      assert r < k ==> rounds[..k][r].matches != [];
    }
  }

  /** Laying out a skeleton adds exactly the matches drawn in it. */
  lemma {:induction false} SkeletonRoundsExtend(t: Tables, i: Id, rounds: seq<RoundSkeleton>)
    requires Sequenced(t)
    ensures var t' := SkeletonRounds(t, i, rounds);
            Extended(t, t', i) && Sequenced(t') && (t'.matches.Keys == t.matches.Keys <==> !AddsMatch(rounds))
  {
    hide MatchesOfItem, SkeletonMatches, Extended;
    SkeletonRoundsSequenced(t, i, rounds);
    if rounds == [] {
      NothingExtends(t, i);
    } else {
      var k := |rounds| - 1;
      SkeletonRoundsExtend(t, i, rounds[..k]);
      var t1, t' := SkeletonRounds(t, i, rounds[..k]), SkeletonRounds(t, i, rounds);
      var t2 := WithRound(t1, i, Placeholder);
      RoundExtends(t1, i, Placeholder);
      SkeletonMatchesExtend(t2, i, t1.nextId, rounds[k].matches, rounds[k].byeSlot);
      ExtendedTwice(t1, t2, t', i);
      ExtendedTwice(t, t1, t', i);
      ExtendedKeys(t, t1, i);
      ExtendedKeys(t2, t', i);
      AddsMatchSplit(rounds);
    }
  }

  // ---------------------------------------------------------------- removing matches and rounds

  lemma DeletedMatchesThin(t: Tables, ids: set<Id>, seen: set<Id>)
    requires ChainRefers(t) && ids * t.matches.Keys <= seen && DeleteMatches(t, ids).Ok?
    ensures Thinner(t, DeleteMatches(t, ids).value, seen) && ChainRefers(DeleteMatches(t, ids).value)
  {
    hide FedBy;
  }

  lemma {:induction false} OneByOneThins(t: Tables, ids: seq<Id>, seen: set<Id>)
    requires ChainRefers(t) && (forall m | m in ids :: m in seen) && DeletedOneByOne(t, ids).Ok?
    ensures Thinner(t, DeletedOneByOne(t, ids).value, seen) && ChainRefers(DeletedOneByOne(t, ids).value)
  {
    if ids == [] {
      NothingThins(t, seen);
    } else {
      hide ChainRefers, Thinner, DeleteMatches;
      var n := |ids| - 1;
      var last := ids[n];
      assert last in ids && last in seen;
      assert forall m | m in ids[..n] :: m in ids;
      OneByOneThins(t, ids[..n], seen);
      var s := DeletedOneByOne(t, ids[..n]).value;
      DeletedMatchesThin(s, {ids[n]}, seen);
      ThinnerTwice(t, s, DeletedOneByOne(t, ids).value, seen);
    }
  }

  lemma DeletedRoundsThin(t: Tables, rounds: set<Id>, seen: set<Id>)
    requires ChainRefers(t) && DeleteRounds(t, rounds).Ok?
    ensures Thinner(t, DeleteRounds(t, rounds).value, seen) && ChainRefers(DeleteRounds(t, rounds).value)
  {
  }

  lemma {:induction false} RoundsDeletedThins(t: Tables, seen: Tables, rounds: seq<Id>)
    requires ChainRefers(t) && RoundsDeleted(t, seen, rounds).Ok?
    ensures var t' := RoundsDeleted(t, seen, rounds).value; Thinner(t, t', seen.matches.Keys) && ChainRefers(t')
  {
    if rounds == [] {
      NothingThins(t, seen.matches.Keys);
    } else {
      hide ChainRefers, Thinner, DeletedOneByOne, DeleteRounds;
      var n, all := |rounds| - 1, seen.matches.Keys;
      RoundsDeletedThins(t, seen, rounds[..n]);
      var s := RoundsDeleted(t, seen, rounds[..n]).value;
      var ids := Ids(MatchesOfRounds(seen, {rounds[n]}));
      OneByOneThins(s, ids, all);
      var s' := DeletedOneByOne(s, ids).value;
      DeletedRoundsThin(s', {rounds[n]}, all);
      ThinnerTwice(t, s, s', all);
      ThinnerTwice(t, s', RoundsDeleted(t, seen, rounds).value, all);
    }
  }

  /** Rows of inputs, and referees, do not matter for set rows. */
  lemma InputsDoNotMatter(t: Tables, t': Tables, seen: set<Id>)
    requires ChainRefers(t) && t' == t.(inputs := t'.inputs, matches := t'.matches, nextId := t'.nextId)
    requires t'.matches.Keys == t.matches.Keys && t.nextId <= t'.nextId
    requires forall m | m in t.matches ::
              m in t'.matches && t'.matches[m].round == t.matches[m].round
                && t'.matches[m].progress == t.matches[m].progress
    requires forall x | x in t'.inputs :: x < t'.nextId
    ensures Thinner(t, t', seen) && ChainRefers(t')
  {
  }

  lemma {:induction false} RenumberedKeys(inputs: map<Id, Input>, i: Id, order: seq<Id>)
    ensures Renumbered(inputs, i, order).Keys == inputs.Keys
  {
    if order != [] { RenumberedKeys(inputs, i, order[..|order| - 1]); }
  }

  lemma CutThins(t: Tables, ids: set<Id>, inputs: map<Id, Input>, seen: set<Id>)
    requires ChainRefers(t) && inputs.Keys <= t.inputs.Keys
    ensures var t' := t.(inputs := inputs, matches := WithoutReferees(t.matches, ids));
            Thinner(t, t', seen) && ChainRefers(t')
  {
    InputsBelow(t);
    RefereesAside(t.matches, ids);
    hide ChainRefers, Thinner, WithoutReferees;
    InputsDoNotMatter(t, t.(inputs := inputs, matches := WithoutReferees(t.matches, ids)), seen);
  }

  lemma ClearedKeys(inputs: map<Id, Input>, i: Id, count: int)
    ensures PositionsCleared(inputs, i, count).Keys == inputs.Keys
  {
  }

  lemma ShrunkThins(t: Tables, seen: Tables, i: Id, removed: set<Id>, count: int)
    requires ChainRefers(t) && Shrunk(t, seen, i, removed, count).Ok?
    ensures var t' := Shrunk(t, seen, i, removed, count).value; Thinner(t, t', seen.matches.Keys) && ChainRefers(t')
  {
    hide ChainRefers, Thinner, DeletedOneByOne, PlayedIn, Renumbered, BySlot, Without, PositionsCleared, InputsOfItem,
      WithoutReferees;
    var ids, all := RemovableMatches(seen, i, removed), seen.matches.Keys;
    RemovableAreMatches(seen, i, removed);
    hide RemovableMatches;
    OneByOneThins(t, ids, all);
    var t1 := DeletedOneByOne(t, ids).value;
    var mine := InputsOfItem(t1, i) * removed;
    var order := Without(BySlot(seen, i), removed);
    RenumberedKeys(t1.inputs - mine, i, order);
    ClearedKeys(Renumbered(t1.inputs - mine, i, order), i, count);
    CutThins(t1, mine, PositionsCleared(Renumbered(t1.inputs - mine, i, order), i, count), all);
    ThinnerTwice(t, t1, Shrunk(t, seen, i, removed, count).value, all);
  }

  lemma InputsBelow(t: Tables)
    requires ChainRefers(t)
    ensures forall x | x in t.inputs :: x < t.nextId
  {
  }

  lemma RemovableAreMatches(seen: Tables, i: Id, removed: set<Id>)
    ensures forall m | m in RemovableMatches(seen, i, removed) :: m in seen.matches.Keys
  {
  }

  lemma AppendedThins(t: Tables, tournament: Id, i: Id, first: int, k: nat, seen: set<Id>)
    requires ChainRefers(t)
    ensures Thinner(t, Appended(t, tournament, i, first, k), seen) && ChainRefers(Appended(t, tournament, i, first, k))
  {
    InputsBelow(t);
    hide ChainRefers, Thinner;
    AppendedForm(t, tournament, i, first, k);
    hide Appended;
    InputsDoNotMatter(t, Appended(t, tournament, i, first, k), seen);
  }

  lemma ResizeThins(t: Tables, seen: Tables, tournament: Id, i: Id, count: int)
    requires ChainRefers(t) && i in seen.stageItems && Resize(t, seen, tournament, i, count).Ok?
    ensures var t' := Resize(t, seen, tournament, i, count).value;
            Thinner(t, t', seen.matches.Keys) && ChainRefers(t')
  {
    hide ChainRefers, Thinner, Appended, Shrunk, RemovedInputs, EmptyInputs, BlockingSlots;
    var was, all := seen.stageItems[i].teamCount, seen.matches.Keys;
    if count > was {
      AppendedThins(t, tournament, i, was + 1, count - was, all);
    } else {
      ShrunkThins(t, seen, i, RemovedInputs(seen, i, was - count), count);
    }
  }

  lemma ReslottedThins(t: Tables, seen: Tables, tournament: Id, i: Id, count: int)
    requires ChainRefers(t) && i in seen.stageItems && Reslotted(t, seen, tournament, i, count).Ok?
    ensures var t' := Reslotted(t, seen, tournament, i, count).value;
            Thinner(t, t', seen.matches.Keys) && ChainRefers(t')
  {
    hide ChainRefers, Thinner, Appended, RemovedInputs, EmptyInputs, BlockingSlots, PlayedIn, Renumbered, BySlot,
      Without, InputsOfItem, WithoutReferees;
    var was, all := seen.stageItems[i].teamCount, seen.matches.Keys;
    NothingThins(t, all);
    if count > was {
      AppendedThins(t, tournament, i, was + 1, count - was, all);
    } else if count < was {
      var mine := InputsOfItem(t, i) * RemovedInputs(seen, i, was - count);
      var order := Without(BySlot(seen, i), RemovedInputs(seen, i, was - count));
      RenumberedKeys(t.inputs - mine, i, order);
      CutThins(t, mine, Renumbered(t.inputs - mine, i, order), all);
    }
  }

  lemma ResizeBracketThins(t: Tables, seen: Tables, tournament: Id, i: Id, count: int)
    requires ChainRefers(t) && i in seen.stageItems && ResizeBracket(t, seen, tournament, i, count).Ok?
    requires t.matches.Keys <= seen.matches.Keys
    ensures var t' := ResizeBracket(t, seen, tournament, i, count).value;
            && Thinner(t, t', seen.matches.Keys) && ChainRefers(t')
            && !HasOldMatch(t', i, seen.matches.Keys) && !HasNewMatch(t', i, seen.matches.Keys)
  {
    hide ChainRefers, Thinner, Reslotted, DeleteMatches, DeleteRounds, MatchesOfItem, RoundsOfItem, BracketRounds,
      StartedMatches, PositionsCleared, HasOldMatch, HasNewMatch;
    var all := seen.matches.Keys;
    var t1 := Reslotted(t, seen, tournament, i, count).value;
    ReslottedThins(t, seen, tournament, i, count);
    ReslottedFrame(t, seen, tournament, i, count);
    var t2 := t1.(inputs := PositionsCleared(t1.inputs, i, count));
    ClearingThins(t1, i, count, all);
    ThinnerTwice(t, t1, t2, all);
    OnlyLost(t, t1);
    BracketThins(t2, i, all);
    ThinnerTwice(t, t2, ResizeBracket(t, seen, tournament, i, count).value, all);
  }

  lemma OnlyLost(t: Tables, t': Tables)
    requires OnlyLoses(t, t')
    ensures t'.matches.Keys <= t.matches.Keys
  {
    forall m | m in t'.matches.Keys ensures m in t.matches.Keys { assert m in t'.matches; }
  }

  lemma ClearingThins(t: Tables, i: Id, count: int, seen: set<Id>)
    requires ChainRefers(t)
    ensures var t' := t.(inputs := PositionsCleared(t.inputs, i, count)); Thinner(t, t', seen) && ChainRefers(t')
  {
    InputsBelow(t);
    ClearedKeys(t.inputs, i, count);
    hide ChainRefers, Thinner, PositionsCleared;
    forall x | x in PositionsCleared(t.inputs, i, count) ensures x < t.nextId {
      assert x in t.inputs.Keys;
    }
    InputsDoNotMatter(t, t.(inputs := PositionsCleared(t.inputs, i, count)), seen);
  }

  lemma BracketThins(t: Tables, i: Id, seen: set<Id>)
    requires ChainRefers(t) && t.matches.Keys <= seen && WithoutBracket(t, i).Ok?
    ensures var t' := WithoutBracket(t, i).value;
            Thinner(t, t', seen) && ChainRefers(t') && !HasOldMatch(t', i, seen) && !HasNewMatch(t', i, seen)
  {
    hide ChainRefers, Thinner, DeleteRounds, DeleteMatches, MatchesOfItem, RoundsOfItem;
    var t1 := DeleteMatches(t, MatchesOfItem(t, i)).value;
    DeletedMatchesThin(t, MatchesOfItem(t, i), seen);
    DeletedRoundsThin(t1, RoundsOfItem(t1, i), seen);
    ThinnerTwice(t, t1, WithoutBracket(t, i).value, seen);
    BracketEmptied(t, i);
  }

  lemma BracketEmptied(t: Tables, i: Id)
    requires WithoutBracket(t, i).Ok?
    ensures MatchesOfItem(WithoutBracket(t, i).value, i) == {}
  {
    hide FedBy;
    EmptyOrHasMember(MatchesOfItem(WithoutBracket(t, i).value, i));
  }

  lemma ResizeIfNeededThins(t: Tables, seen: Tables, tournament: Id, i: Id, count: int)
    requires ChainRefers(t) && i in seen.stageItems && ResizeIfNeeded(t, seen, tournament, i, count).Ok?
    requires seen.stageItems[i].kind == SingleElimination ==> t.matches.Keys <= seen.matches.Keys
    ensures var t' := ResizeIfNeeded(t, seen, tournament, i, count).value;
            Thinner(t, t', seen.matches.Keys) && ChainRefers(t')
  {
    hide ChainRefers, Thinner, Resize, ResizeBracket;
    if count == seen.stageItems[i].teamCount {
      NothingThins(t, seen.matches.Keys);
    } else if seen.stageItems[i].kind == SingleElimination {
      ResizeBracketThins(t, seen, tournament, i, count);
    } else {
      ResizeThins(t, seen, tournament, i, count);
    }
  }

  // ---------------------------------------------------------------- the steps of an update

  /** How many sets the item's matches have after the first step: the new ranking's, if the program found it in
      the tournament, else what they had. */
  function ResizedTo(t: Tables, tournament: Id, i: Id, ranking: Id): int {
    SetsOr(RankingIn(t, tournament, ranking), NumSetsOfItem(t, i))
  }

  lemma ResizeForRankingCounts(t: Tables, tournament: Id, i: Id, ranking: Id, given: int)
    requires ProgressOk(t) && Tenancy(t) && BelongsTo(t, tournament, i)
    requires ResizeForRanking(t, tournament, i, ranking).Ok?
    ensures var t1 := ResizeForRanking(t, tournament, i, ranking).value;
            && ChainRefers(t1) && MatchesOfItem(t1, i) == MatchesOfItem(t, i)
            && TwoCounts(t1, i, t.matches.Keys, ResizedTo(t, tournament, i, ranking), given)
  {
    hide Resized, BreaksCheck, TwoCounts, ChainRefers, AllSetsFit, MatchesOfItem;
    var was, n := NumSetsOfItem(t, i), ResizedTo(t, tournament, i, ranking);
    MatchesAreMatches(t, i);
    AllFitAlready(t, i, t.matches.Keys, given);
    if n != was { ResizedCounts(t, i, n, given); }
  }

  lemma MatchesAreMatches(t: Tables, i: Id)
    ensures MatchesOfItem(t, i) <= t.matches.Keys
  {
  }

  lemma ResizedCounts(t: Tables, i: Id, n: int, given: int)
    requires ProgressOk(t) && i in t.stageItems
    requires TryResize(t, Uniform(MatchesOfItem(t, i), NumSetsOfItem(t, i)), n).Ok?
    ensures var t1 := TryResize(t, Uniform(MatchesOfItem(t, i), NumSetsOfItem(t, i)), n).value;
            && ChainRefers(t1) && MatchesOfItem(t1, i) == MatchesOfItem(t, i)
            && TwoCounts(t1, i, t.matches.Keys, n, given)
  {
    hide Resized, BreaksCheck, TwoCounts, AllSetsFit, CountsFit, ChainRefers, MatchesOfItem, NumSetsOfItem;
    var counts := Uniform(MatchesOfItem(t, i), NumSetsOfItem(t, i));
    ItemCountsFit(t, i);
    ResizeKeepsReferences(t, counts, n);
    SameMatchesOfItem(t, counts, n, i);
    assert counts.Keys == MatchesOfItem(t, i);
    if n >= 0 {
      ResizedFits(t, counts, n);
      ResizedKeepsMatches(t, counts, n);
      ResizedFrame(t, counts, n);
      GroupCounts(t, Resized(t, counts, n), i, n, given);
    } else {
      NoMatchesBelow(t, counts, n);
      ResizeNothing(t, n);
      NoMatchNoCount(t, i, n, given);
    }
  }

  lemma NoMatchNoCount(t: Tables, i: Id, n: int, given: int)
    requires ChainRefers(t) && AllSetsFit(t) && MatchesOfItem(t, i) == {}
    ensures TwoCounts(t, i, t.matches.Keys, n, given)
  {
    forall m | m in t.matches ensures FitsCount(t, m, CountOf(t, i, t.matches.Keys, n, given, m)) {
      assert SetsFit(t, m) && m !in MatchesOfItem(t, i);
    }
  }

  lemma GroupCounts(t: Tables, t1: Tables, i: Id, n: int, given: int)
    requires AllSetsFit(t) && t1.matches.Keys == t.matches.Keys && MatchesOfItem(t1, i) == MatchesOfItem(t, i)
    requires t1 == t.(matches := t1.matches, matchSets := t1.matchSets)
    requires CountsFit(t1, Uniform(MatchesOfItem(t, i), n))
    requires forall m | m in t.matches && m !in MatchesOfItem(t, i) ::
              t1.matches[m] == t.matches[m] && RowsOf(t1, m) == RowsOf(t, m)
    ensures TwoCounts(t1, i, t.matches.Keys, n, given)
  {
    hide Fits, RowsAre;
    forall m | m in t1.matches ensures FitsCount(t1, m, CountOf(t1, i, t.matches.Keys, n, given, m)) {
      assert m in t.matches && SetsFit(t, m);
      if m in MatchesOfItem(t, i) {
        assert m in Uniform(MatchesOfItem(t, i), n);
      }
    }
  }

  lemma ItemCountsFit(t: Tables, i: Id)
    requires AllSetsFit(t) && ChainRefers(t)
    ensures CountsFit(t, Uniform(MatchesOfItem(t, i), NumSetsOfItem(t, i)))
    ensures Uniform(MatchesOfItem(t, i), NumSetsOfItem(t, i)).Keys <= t.matches.Keys
  {
    forall m | m in MatchesOfItem(t, i) ensures NumSetsOf(t, m) == NumSetsOfItem(t, i) && SetsFit(t, m) {
      RoundAsks(t, t.matches[m].round);
    }
  }

  /** The request asks for more games per player, and the longer skeleton has a match to add. */
  ghost predicate GrowthAddsMatch(t: Tables, i: Id, body: ItemBody, skeletons: Skeletons)
    requires i in t.stageItems
  {
    var item := t.stageItems[i];
    && StandingsResolved(item.kind) && item.gamesPerPlayer.Some? && body.gamesPerPlayer.Some?
    && body.gamesPerPlayer != item.gamesPerPlayer
    && var was := skeletons(item.kind, item.teamCount, item.gamesPerPlayer.value);
       var now := skeletons(item.kind, item.teamCount, body.gamesPerPlayer.value);
       |now| > |was| && AddsMatch(now[|was|..])
  }

  lemma AdjustCounts(t: Tables, seen: Tables, i: Id, body: ItemBody, skeletons: Skeletons, n: int)
    requires ChainRefers(t) && i in seen.stageItems && i in t.stageItems && t.matches.Keys == seen.matches.Keys
    requires TwoCounts(t, i, seen.matches.Keys, n, Max(NumSetsOfItem(t, i), 1))
    requires AdjustIfAsked(t, seen, i, body, skeletons).Ok?
    ensures var t' := AdjustIfAsked(t, seen, i, body, skeletons).value;
            && ChainRefers(t') && TwoCounts(t', i, seen.matches.Keys, n, Max(NumSetsOfItem(t, i), 1))
            && (HasNewMatch(t', i, seen.matches.Keys) <==> GrowthAddsMatch(seen, i, body, skeletons))
            && (seen.stageItems[i].kind == SingleElimination ==> t' == t)
  {
    hide ChainRefers, TwoCounts, SkeletonRounds, RoundsDeleted, AllIdle, TrailingRounds, AddsMatch, NumSetsOfItem,
      Extended, HasNewMatch, HasOldMatch;
    NoNewMatch(t, i);
    if body.gamesPerPlayer.Some? && seen.stageItems[i].gamesPerPlayer.Some? {
      var item, games := seen.stageItems[i], body.gamesPerPlayer.value;
      var was := skeletons(item.kind, item.teamCount, item.gamesPerPlayer.value);
      var now := skeletons(item.kind, item.teamCount, games);
      if |now| > |was| {
        GrowthCounts(t, i, now[|was|..], n);
      } else if RoundsDeleted(t, seen, TrailingRounds(seen, i, |now|)).Ok? {
        var t' := RoundsDeleted(t, seen, TrailingRounds(seen, i, |now|)).value;
        RoundsDeletedThins(t, seen, TrailingRounds(seen, i, |now|));
        ThinnerCounts(t, t', i, seen.matches.Keys, n, Max(NumSetsOfItem(t, i), 1));
      }
    }
  }

  lemma NoNewMatch(t: Tables, i: Id)
    ensures !HasNewMatch(t, i, t.matches.Keys)
  {
  }

  lemma GrowthCounts(t: Tables, i: Id, rounds: seq<RoundSkeleton>, n: int)
    requires ChainRefers(t) && i in t.stageItems && TwoCounts(t, i, t.matches.Keys, n, Max(NumSetsOfItem(t, i), 1))
    ensures var t' := SkeletonRounds(t, i, rounds);
            && ChainRefers(t') && TwoCounts(t', i, t.matches.Keys, n, Max(NumSetsOfItem(t, i), 1))
            && (HasNewMatch(t', i, t.matches.Keys) <==> AddsMatch(rounds))
  {
    hide TwoCounts, AddsMatch, NumSetsOfItem, Extended, ChainRefers, SkeletonRounds, HasNewMatch, HasOldMatch;
    SequenceAhead(t);
    NoNewMatch(t, i);
    SkeletonRoundsExtend(t, i, rounds);
    ExtendedRefers(t, SkeletonRounds(t, i, rounds), i);
    ExtendedCounts(t, SkeletonRounds(t, i, rounds), i, t.matches.Keys, n);
  }

  /** The row switches to the new ranking: from then on every match is asked for what the item asks now. */
  lemma RowSwitchFits(t: Tables, i: Id, body: ItemBody, known: set<Id>, n: int, given: int)
    requires ChainRefers(t) && i in t.stageItems && body.ranking in t.rankings && TwoCounts(t, i, known, n, given)
    ensures var r, now := UpdateRow(t, i, body), t.rankings[body.ranking].rules.numSets;
            && r.Ok? && ChainRefers(r.value) && NumSetsOfItem(r.value, i) == now
            && (HasOldMatch(r.value, i, known) <==> HasOldMatch(t, i, known))
            && (HasNewMatch(r.value, i, known) <==> HasNewMatch(t, i, known))
            && (ProgressOk(r.value) <==>
                  (HasOldMatch(t, i, known) ==> n == now) && (HasNewMatch(t, i, known) ==> given == now))
  {
    hide TwoCounts;
    var t' := UpdateRow(t, i, body).value;
    assert MatchesOfItem(t', i) == MatchesOfItem(t, i);
    hide HasOldMatch, HasNewMatch;
    TwoCountsFit(t, t', i, known, n, given, t.rankings[body.ranking].rules.numSets);
    hide AllSetsFit;
  }

  lemma BeforeCompleteCounts(t: Tables, tournament: Id, i: Id, body: ItemBody, skeletons: Skeletons)
    requires ProgressOk(t) && Tenancy(t) && BelongsTo(t, tournament, i)
    requires BeforeComplete(t, tournament, i, body, skeletons).Ok?
    ensures body.ranking in t.rankings
    ensures var t4 := BeforeComplete(t, tournament, i, body, skeletons).value;
            var now, known := t.rankings[body.ranking].rules.numSets, t.matches.Keys;
            && i in t4.stageItems && ChainRefers(t4) && NumSetsOfItem(t4, i) == now
            && (HasNewMatch(t4, i, known) <==> GrowthAddsMatch(t, i, body, skeletons))
            && (ProgressOk(t4) <==>
                  && (HasOldMatch(t4, i, known) ==> ResizedTo(t, tournament, i, body.ranking) == now)
                  && (GrowthAddsMatch(t, i, body, skeletons) ==> Max(NumSetsOfItem(t, i), 1) == now))
  {
    hide ResizeForRanking, AdjustIfAsked, ResizeIfNeeded, UpdateRow, GrowthAddsMatch, ChainRefers, ProgressOk,
      HasOldMatch, HasNewMatch, TwoCounts, ResizedTo, Tenancy, NumSetsOfItem;
    var n, given, known := ResizedTo(t, tournament, i, body.ranking), Max(NumSetsOfItem(t, i), 1), t.matches.Keys;
    ResizeForRankingCounts(t, tournament, i, body.ranking, given);
    ResizeForRankingFrame(t, tournament, i, body.ranking);
    var t1 := ResizeForRanking(t, tournament, i, body.ranking).value;
    SameAsk(t, t1, i);
    AdjustCounts(t1, t, i, body, skeletons, n);
    AdjustFrame(t1, t, i, body, skeletons);
    var t2 := AdjustIfAsked(t1, t, i, body, skeletons).value;
    ResizeIfNeededThins(t2, t, tournament, i, body.teamCount);
    ResizeIfNeededFrame(t2, t, tournament, i, body.teamCount);
    var t3 := ResizeIfNeeded(t2, t, tournament, i, body.teamCount).value;
    ThinnerCounts(t2, t3, i, known, n, given);
    BeforeCompleteFrame(t, tournament, i, body, skeletons);
    RowSwitchFits(t3, i, body, known, n, given);
  }

  lemma SameAsk(t: Tables, t': Tables, i: Id)
    requires t'.stageItems == t.stageItems && t'.rankings == t.rankings
    ensures NumSetsOfItem(t', i) == NumSetsOfItem(t, i)
  {
  }

  // ---------------------------------------------------------------- what the update promises

  lemma CompleteExtends(t: Tables, seen: Tables, i: Id, count: int)
    requires Sequenced(t) && i in seen.stageItems && Complete(t, seen, i, count).Ok?
    ensures Extended(t, Complete(t, seen, i, count).value, i)
  {
    hide Extended, AddMissing, BuildBracket, InputsOfItem;
    NothingExtends(t, i);
    if count != seen.stageItems[i].teamCount {
      if seen.stageItems[i].kind == StageKind.RoundRobin {
        AddMissingExtends(t, i, count);
      } else if seen.stageItems[i].kind == SingleElimination {
        BuildBracketExtends(t, i, count);
      }
    }
  }

  /** An update adds a match in its last step: that of a resized round-robin item or bracket. */
  ghost predicate CompletionAddsMatch(t: Tables, t': Tables, i: Id, body: ItemBody, skeletons: Skeletons)
    requires i in t.stageItems
  {
    HasNewMatch(t', i, t.matches.Keys) && !GrowthAddsMatch(t, i, body, skeletons)
  }

  /** The update keeps the set-row invariant exactly when three things hold. The matches the item keeps were resized
      for the new ranking, which the program does when that ranking is of the tournament. Matches that more games
      per player add were given what the new ranking asks for: they are created while the row still names the old
      one. And where the last step adds matches, the new ranking asks for a set. */
  lemma UpdateStageItemKeeps(t: Tables, tournament: Id, i: Id, body: ItemBody, skeletons: Skeletons)
    requires ProgressOk(t) && Tenancy(t) && Sequenced(t) && UpdateStageItem(t, tournament, i, body, skeletons).Ok?
    ensures i in t.stageItems && body.ranking in t.rankings
    ensures var t' := UpdateStageItem(t, tournament, i, body, skeletons).value;
            var was, now := NumSetsOfItem(t, i), t.rankings[body.ranking].rules.numSets;
            ProgressOk(t') <==>
              && (RankingIn(t, tournament, body.ranking).None? && HasOldMatch(t', i, t.matches.Keys) ==> was == now)
              && (GrowthAddsMatch(t, i, body, skeletons) ==> Max(was, 1) == now)
              && (CompletionAddsMatch(t, t', i, body, skeletons) ==> now >= 1)
  {
    hide ProgressOk, BeforeComplete, Complete, GrowthAddsMatch, HasOldMatch, HasNewMatch, Tenancy, NumSetsOfItem,
      ChainRefers, Extended;
    var t4 := BeforeComplete(t, tournament, i, body, skeletons).value;
    BeforeCompleteCounts(t, tournament, i, body, skeletons);
    BeforeCompleteFrame(t, tournament, i, body, skeletons);
    CompleteExtends(t4, t, i, body.teamCount);
    var t' := Complete(t4, t, i, body.teamCount).value;
    ExtendedFits(t4, t', i);
    if StandingsResolved(t.stageItems[i].kind) {
      OnlyTwoKindsComplete(t4, t, i, body.teamCount);
    } else {
      BeforeCompleteLoses(t, tournament, i, body, skeletons);
    }
    NewFromCompletion(t4, t', t, i, body, skeletons);
  }

  lemma OnlyTwoKindsComplete(t: Tables, seen: Tables, i: Id, count: int)
    requires Sequenced(t) && i in seen.stageItems && StandingsResolved(seen.stageItems[i].kind)
    ensures Complete(t, seen, i, count) == Ok(t)
  {
  }

  lemma BeforeCompleteLoses(t: Tables, tournament: Id, i: Id, body: ItemBody, skeletons: Skeletons)
    requires i in t.stageItems && !StandingsResolved(t.stageItems[i].kind)
    requires BeforeComplete(t, tournament, i, body, skeletons).Ok?
    ensures BeforeComplete(t, tournament, i, body, skeletons).value.matches.Keys <= t.matches.Keys
  {
    hide ResizeForRanking, ResizeIfNeeded;
    ResizeForRankingFrame(t, tournament, i, body.ranking);
    var t1 := ResizeForRanking(t, tournament, i, body.ranking).value;
    ResizeIfNeededFrame(t1, t, tournament, i, body.teamCount);
    OnlyLost(t1, ResizeIfNeeded(t1, t, tournament, i, body.teamCount).value);
  }

  /** Whether there are new matches at the end, and whether old ones are left. */
  lemma NewFromCompletion(t4: Tables, t': Tables, t: Tables, i: Id, body: ItemBody, skeletons: Skeletons)
    requires ChainRefers(t4) && Extended(t4, t', i) && i in t.stageItems && t.nextId <= t4.nextId && Sequenced(t)
    requires StandingsResolved(t.stageItems[i].kind) ==> t' == t4
    requires !StandingsResolved(t.stageItems[i].kind) ==> t4.matches.Keys <= t.matches.Keys
    ensures HasOldMatch(t', i, t.matches.Keys) <==> HasOldMatch(t4, i, t.matches.Keys)
    ensures GrowthAddsMatch(t, i, body, skeletons) ==> t' == t4
    ensures !StandingsResolved(t.stageItems[i].kind) ==>
              (CompletionAddsMatch(t, t', i, body, skeletons) <==> t'.matches.Keys != t4.matches.Keys)
  {
    hide NumSetsOfItem, RowsAre, AddsMatch;
    forall m | m in t4.matches ensures m in MatchesOfItem(t', i) <==> m in MatchesOfItem(t4, i) {
      assert t4.matches[m].round in t4.rounds;
    }
    ExtendedKeys(t4, t', i);
    EmptyOrHasMember(t'.matches.Keys - t4.matches.Keys);
    assert t'.matches.Keys == t4.matches.Keys + (t'.matches.Keys - t4.matches.Keys);
    if m :| m in t'.matches.Keys - t4.matches.Keys { assert m in MatchesOfItem(t', i) && m !in t.matches.Keys; }
  }

  /** Within one tournament an update keeps the parity rules. */
  lemma UpdateStageItemKeepsParity(t: Tables, tournament: Id, i: Id, body: ItemBody, skeletons: Skeletons)
    requires ParityOk(t) && Tenancy(t) && Sequenced(t) && UpdateStageItem(t, tournament, i, body, skeletons).Ok?
    ensures var t' := UpdateStageItem(t, tournament, i, body, skeletons).value;
            && body.ranking in t.rankings
            && (Tenancy(t') <==> RankingIn(t, tournament, body.ranking).Some?)
            && (Tenancy(t') ==> ParityOk(t'))
  {
    UpdateFrame(t, tournament, i, body, skeletons);
    hide UpdateTransaction;
    var t' := UpdateStageItem(t, tournament, i, body, skeletons).value;
    forall x | x in t'.stageItems
      ensures t'.stageItems[x].kind == t.stageItems[x].kind && t'.stageItems[x].stage == t.stageItems[x].stage
    {
    }
  }

  // ---------------------------------------------------------------- what the creation promises

  lemma WithItemKeeps(t: Tables, row: StageItem)
    requires ProgressOk(t) && row.stage in t.stages && row.ranking in t.rankings
    ensures ProgressOk(WithItem(t, row))
  {
    var t' := WithItem(t, row);
    forall m | m in t'.matches ensures SetsFit(t', m) {
      assert SetsFit(t, m) && t.matches[m].round in t.rounds;
    }
  }

  lemma AppendedKeeps(t: Tables, tournament: Id, i: Id, first: int, k: nat)
    requires ProgressOk(t)
    ensures var t' := Appended(t, tournament, i, first, k);
            ProgressOk(t') && t' == t.(inputs := t'.inputs, nextId := t'.nextId)
  {
    AppendedThins(t, tournament, i, first, k, {});
    hide Appended;
    var t' := Appended(t, tournament, i, first, k);
    forall m | m in t'.matches ensures SetsFit(t', m) { assert SetsFit(t, m) && t'.matches[m].round in t'.rounds; }
  }

  /** Building the item creates a match: always for a round robin, for a bracket of a legal size, and for a skeleton
      that has one. */
  ghost predicate CreatesMatch(body: NewItemBody, skeletons: Skeletons) {
    match body.kind
    case RoundRobin => true
    case SingleElimination => BracketRounds(body.teamCount).Some?
    case _ => body.gamesPerPlayer.Some? && AddsMatch(skeletons(body.kind, body.teamCount, body.gamesPerPlayer.value))
  }

  lemma TwoInputsLackPair(t: Tables, i: Id)
    requires |InputsOfItem(t, i)| >= 2 && MatchesOfItem(t, i) == {}
    ensures LacksPair(t, i)
  {
    var mine := InputsOfItem(t, i);
    EmptyOrHasMember(mine);
    var x :| x in mine;
    EmptyOrHasMember(mine - {x});
    assert mine == {x} + (mine - {x});
    var y :| y in mine - {x};
    assert PairsOf(t, i) == {};
    assert x in InputsOfItem(t, i) && y in InputsOfItem(t, i) && {x, y} !in PairsOf(t, i);
  }

  lemma BracketHasMatch(t: Tables, t': Tables, inputs: seq<Id>, rounds: seq<Id>)
    requires BracketOver(t, t', inputs, rounds) && |inputs| >= 2 && forall m | m in t.matches :: m < t.nextId
    ensures t'.matches.Keys != t.matches.Keys
  {
    assert t.nextId in t'.matches && t.nextId !in t.matches;
  }

  /** What is built for a new item: matches of the item alone, and some exactly when the body says so. */
  lemma BuildItemExtends(t: Tables, i: Id, body: NewItemBody, skeletons: Skeletons)
    requires IdsBelowSequence(t) && Sequenced(t) && i in t.stageItems
    requires SlotsAre(t, i, body.teamCount) && |InputsOfItem(t, i)| == body.teamCount
    requires RoundsOfItem(t, i) == {} && MatchesOfItem(t, i) == {}
    requires forall m | m in t.matches :: t.matches[m].round in t.rounds
    ensures var r := BuildItem(t, i, body.kind, body.teamCount, body.gamesPerPlayer, skeletons);
            && (r.Err? <==> body.kind == SingleElimination && BracketRounds(body.teamCount).None?)
            && (r.Err? ==> r.error == Http(400))
            && (r.Ok? ==> Extended(t, r.value, i)
                          && (r.value.matches.Keys != t.matches.Keys <==> CreatesMatch(body, skeletons)))
  {
    hide AddMissing, BuildBracket, SkeletonRounds, Extended, LacksPair, AddsMatch, SlotsAre, BracketRounds,
      BracketOver, WithRounds, MatchesOfItem, IdsBelowSequence;
    match body.kind {
      case RoundRobin =>
        TwoInputsLackPair(t, i);
        AddMissingAdds(t, i, body.teamCount);
        AddMissingExtends(t, i, body.teamCount);
      case SingleElimination =>
        BuildBracketForm(t, i, body.teamCount);
        if BracketRounds(body.teamCount).Some? {
          BuildBracketExtends(t, i, body.teamCount);
          BuiltKeys(t, i, body.teamCount);
        }
      case _ =>
        NothingExtends(t, i);
        if body.gamesPerPlayer.Some? {
          SkeletonRoundsExtend(t, i, skeletons(body.kind, body.teamCount, body.gamesPerPlayer.value));
        }
    }
  }

  lemma BuiltKeys(t: Tables, i: Id, count: TeamCount)
    requires Sequenced(t) && RoundsOfItem(t, i) == {} && |InputsOfItem(t, i)| == count && BracketRounds(count).Some?
    ensures BuildBracket(t, i, count).Ok? && BuildBracket(t, i, count).value.matches.Keys != t.matches.Keys
  {
    hide BuildBracket, BracketOver, BracketRounds, RoundsOfItem;
    BuildBracketForm(t, i, count);
    var t1 := WithRounds(t, i, BracketRounds(count).value);
    BracketHasMatch(t1, BuildBracket(t, i, count).value, BySlot(t, i), Ids(RoundsOfItem(t1, i)));
  }

  /** A creation that gets past its checks keeps the set rows exactly when it creates no match or the ranking asks
      for a set, and the tenancy of rankings exactly when the ranking is of the tournament; then parity too. That
      holds also where it fails half way. */
  lemma CreateStageItemKeeps(t: Tables, tournament: Id, body: NewItemBody, skeletons: Skeletons)
    requires ProgressOk(t) && ForeignKeys(t) && Tenancy(t) && ParityOk(t)
    ensures CreationRefused(t, tournament, body).Some? ==>
              CreateStageItem(t, tournament, body, skeletons).after == t
    ensures CreationRefused(t, tournament, body).None? ==>
              var f, chosen := CreateStageItem(t, tournament, body, skeletons), ChosenRanking(t, tournament, body);
              && chosen.Some? && chosen.value in t.rankings
              && (f.error == if body.kind == SingleElimination && BracketRounds(body.teamCount).None?
                             then Some(Http(400)) else None)
              && (ProgressOk(f.after) <==>
                    (CreatesMatch(body, skeletons) ==> t.rankings[chosen.value].rules.numSets >= 1))
              && (Tenancy(f.after) <==> RankingIn(t, tournament, chosen.value).Some?)
              && (Tenancy(f.after) ==> ParityOk(f.after))
  {
    hide ProgressOk, BuildItem, ChosenRanking, Tenancy, ParityOk, CreatesMatch, ForeignKeys, BracketRounds;
    ProgressIsSequenced(t);
    if CreationRefused(t, tournament, body).None? {
      BuiltFits(t, tournament, body, skeletons);
      CreatedConfiguration(t, tournament, body, skeletons);
    }
  }

  lemma BareItemFits(t: Tables, tournament: Id, body: NewItemBody)
    requires ProgressOk(t) && CreationRefused(t, tournament, body).None?
    ensures ProgressOk(BareItem(t, tournament, body))
    ensures t.nextId in BareItem(t, tournament, body).stageItems
    ensures NumSetsOfItem(BareItem(t, tournament, body), t.nextId)
         == t.rankings[ChosenRanking(t, tournament, body).value].rules.numSets
  {
    hide ProgressOk, Appended, ChosenRanking;
    var row := StageItem(body.stage, body.kind, body.teamCount, ChosenRanking(t, tournament, body).value,
                         body.gamesPerPlayer, body.name);
    WithItemKeeps(t, row);
    AppendedKeeps(WithItem(t, row), tournament, t.nextId, 1, body.teamCount);
  }

  lemma BuiltFits(t: Tables, tournament: Id, body: NewItemBody, skeletons: Skeletons)
    requires ProgressOk(t) && ForeignKeys(t) && CreationRefused(t, tournament, body).None?
    ensures var f, chosen := CreateStageItem(t, tournament, body, skeletons), ChosenRanking(t, tournament, body);
            && (f.error == if body.kind == SingleElimination && BracketRounds(body.teamCount).None?
                           then Some(Http(400)) else None)
            && (ProgressOk(f.after) <==>
                  (CreatesMatch(body, skeletons) ==> t.rankings[chosen.value].rules.numSets >= 1))
            && Extended(BareItem(t, tournament, body), f.after, t.nextId)
  {
    hide ProgressOk, BuildItem, ChosenRanking, ForeignKeys, BracketRounds, Extended, SlotsAre, InputsOfItem,
      MatchesOfItem, RoundsOfItem, NumSetsOfItem, BareItem, IdsBelowSequence, AddsMatch;
    var bare, i := BareItem(t, tournament, body), t.nextId;
    ProgressIsSequenced(t);
    BareItemFits(t, tournament, body);
    BareItemIsBare(t, tournament, body);
    BareItemHasInputs(t, tournament, body);
    ProgressIsSequenced(bare);
    BuildItemExtends(bare, i, body, skeletons);
    var r := BuildItem(bare, i, body.kind, body.teamCount, body.gamesPerPlayer, skeletons);
    NothingExtends(bare, i);
    ExtendedFits(bare, if r.Ok? then r.value else bare, i);
  }

  lemma ProgressIsSequenced(t: Tables)
    requires ProgressOk(t)
    ensures IdsBelowSequence(t) && ChainRefers(t) && Sequenced(t)
  {
  }

  lemma CreatedConfiguration(t: Tables, tournament: Id, body: NewItemBody, skeletons: Skeletons)
    requires Tenancy(t) && ParityOk(t) && ForeignKeys(t) && IdsBelowSequence(t)
    requires CreationRefused(t, tournament, body).None?
    requires Extended(BareItem(t, tournament, body), CreateStageItem(t, tournament, body, skeletons).after, t.nextId)
    ensures var f, chosen := CreateStageItem(t, tournament, body, skeletons), ChosenRanking(t, tournament, body).value;
            && (Tenancy(f.after) <==> RankingIn(t, tournament, chosen).Some?)
            && (Tenancy(f.after) ==> ParityOk(f.after))
  {
    hide ChosenRanking, CreateStageItem, ForeignKeys, IdsBelowSequence, Appended, BareItem;
    var f, chosen := CreateStageItem(t, tournament, body, skeletons), ChosenRanking(t, tournament, body).value;
    BareItemIsBare(t, tournament, body);
    BareRow(t, tournament, body);
    hide Tenancy, ParityOk, Extended;
    SameConfig(BareItem(t, tournament, body), f.after, t.nextId);
    SameTenancy(BareItem(t, tournament, body), f.after);
    OneMoreItem(t, BareItem(t, tournament, body), tournament, body, chosen);
  }

  lemma BareRow(t: Tables, tournament: Id, body: NewItemBody)
    requires ChosenRanking(t, tournament, body).Some?
    ensures BareItem(t, tournament, body).stageItems
         == t.stageItems[t.nextId := StageItem(body.stage, body.kind, body.teamCount,
                                               ChosenRanking(t, tournament, body).value, body.gamesPerPlayer,
                                               body.name)]
  {
    hide ChosenRanking, Appended;
  }

  lemma SameConfig(t: Tables, t': Tables, i: Id)
    requires Extended(t, t', i)
    ensures t'.stageItems == t.stageItems && t'.rankings == t.rankings && t'.stages == t.stages
  {
  }

  lemma OneMoreItem(t: Tables, bare: Tables, tournament: Id, body: NewItemBody, chosen: Id)
    requires Tenancy(t) && ParityOk(t) && t.nextId !in t.stageItems && CreationRefused(t, tournament, body).None?
    requires ChosenRanking(t, tournament, body) == Some(chosen)
    requires bare.rankings == t.rankings && bare.stages == t.stages
    requires bare.stageItems == t.stageItems[t.nextId := StageItem(body.stage, body.kind, body.teamCount, chosen,
                                                                   body.gamesPerPlayer, body.name)]
    ensures Tenancy(bare) <==> RankingIn(t, tournament, chosen).Some?
    ensures Tenancy(bare) ==> ParityOk(bare)
  {
    hide ChosenRanking;
    assert t.nextId in bare.stageItems && bare.stageItems[t.nextId].stage == body.stage;
    assert bare.stageItems[t.nextId].ranking == chosen;
    forall x | x in bare.stageItems && x != t.nextId
      ensures x in t.stageItems && bare.stageItems[x] == t.stageItems[x]
    {
    }
  }

  // ---------------------------------------------------------------- the case that breaks the invariant

  const POSITIONS := Match(6, None, None, None, None, None, None, None, None, Some(0), Some(1), None, RESET)
  const EMPTY_SLOT := Input(1, 5, 1, None, None, None, NO_STATS)

  /** A Mexicano item of four, one game each, as the builder makes it on a one-set ranking; a three-set ranking
      stands beside it. */
  const MEXICANO_OF_FOUR :=
    Tables({1}, map[], map[2 := Stage(1, None)], map[5 := StageItem(2, Mexicano, 4, 3, Some(1), 0)],
           map[11 := EMPTY_SLOT, 12 := EMPTY_SLOT.(slot := 2), 13 := EMPTY_SLOT.(slot := 3),
               14 := EMPTY_SLOT.(slot := 4)],
           map[6 := Round(5, Placeholder)],
           map[7 := POSITIONS, 8 := POSITIONS.(slot1 := Some(2), slot2 := Some(3))],
           map[7 := map[1 := ZERO], 8 := map[1 := ZERO]],
           map[], map[], map[], map[],
           map[3 := Ranking(1, None, 0, ONE_SET), 4 := Ranking(1, None, 1, ONE_SET.(numSets := 3))], map[], 15)

  const THREE_SETS_TWO_GAMES := ItemBody(4, 4, Some(2), 0)

  lemma FourAreOk()
    ensures ProgressOk(MEXICANO_OF_FOUR) && Tenancy(MEXICANO_OF_FOUR) && Sequenced(MEXICANO_OF_FOUR)
  {
    hide ChainRefers, AllSetsFit, Tenancy;
    FourFit();
    FourRefer();
    FourBelong();
  }

  lemma FourFit()
    ensures AllSetsFit(MEXICANO_OF_FOUR)
  {
    var t := MEXICANO_OF_FOUR;
    forall m | m in t.matches ensures SetsFit(t, m) {
      assert NumSetsOf(t, m) == 1 && RowsAre(RowsOf(t, m), 1);
    }
  }

  lemma FourRefer()
    ensures ChainRefers(MEXICANO_OF_FOUR)
  {
    hide IdsBelowSequence, StageItemsRefer, RoundsRefer;
    FourIds();
    FourItems();
  }

  lemma FourIds()
    ensures IdsBelowSequence(MEXICANO_OF_FOUR)
  {
  }

  lemma FourItems()
    ensures StageItemsRefer(MEXICANO_OF_FOUR.stageItems, MEXICANO_OF_FOUR.stages.Keys, MEXICANO_OF_FOUR.rankings.Keys)
    ensures RoundsRefer(MEXICANO_OF_FOUR.rounds, MEXICANO_OF_FOUR.stageItems.Keys)
  {
  }

  lemma FourBelong()
    ensures Tenancy(MEXICANO_OF_FOUR)
  {
  }

  lemma FourUpdates()
    requires Sequenced(MEXICANO_OF_FOUR) && ProgressOk(MEXICANO_OF_FOUR)
    ensures UpdateStageItem(MEXICANO_OF_FOUR, 1, 5, THREE_SETS_TWO_GAMES, MEXICANO).Ok?
    ensures GrowthAddsMatch(MEXICANO_OF_FOUR, 5, THREE_SETS_TWO_GAMES, MEXICANO)
    ensures NumSetsOfItem(MEXICANO_OF_FOUR, 5) == 1
  {
    hide ProgressOk, Sequenced, TryResize, SkeletonRounds, RoundsDeleted, MexicanoSkeleton, AddsMatch;
    var t, body := MEXICANO_OF_FOUR, THREE_SETS_TWO_GAMES;
    FourResize();
    SecondRound();
    assert BelongsTo(t, 1, 5) && UpdateRefused(t, 1, 5, body).None?;
    var t1 := ResizeForRanking(t, 1, 5, 4).value;
    ResizeForRankingFrame(t, 1, 5, 4);
    hide ResizeForRanking;
    assert AdjustIfAsked(t1, t, 5, body, MEXICANO).Ok?;
    AdjustFrame(t1, t, 5, body, MEXICANO);
    hide AdjustIfAsked;
    assert BeforeComplete(t, 1, 5, body, MEXICANO).Ok?;
  }

  lemma SecondRound()
    ensures var was, now := MexicanoSkeleton(4, 1), MexicanoSkeleton(4, 2);
            |now| > |was| && AddsMatch(now[|was|..])
  {
    var was, now := MexicanoSkeleton(4, 1), MexicanoSkeleton(4, 2);
    assert now[|was|..][0].matches[0] == (0, 1);
  }

  lemma FourResize()
    requires ProgressOk(MEXICANO_OF_FOUR)
    ensures ResizeForRanking(MEXICANO_OF_FOUR, 1, 5, 4).Ok?
  {
    hide ProgressOk, BreaksCheck, Resized;
    var t := MEXICANO_OF_FOUR;
    assert AllSetsFit(t) && ChainRefers(t) by { ProgressParts(t); }
    ItemCountsFit(t, 5);
    CountsLetThrough(t, Uniform(MatchesOfItem(t, 5), NumSetsOfItem(t, 5)), 3);
  }

  lemma ProgressParts(t: Tables)
    requires ProgressOk(t)
    ensures AllSetsFit(t) && ChainRefers(t)
  {
  }

  /** The item moves to the three-set ranking while its games per player go from one to two: the matches of the
      second round get one set row instead of three. */
  lemma RankingChangeWithGrowthBreaks()
    ensures exists t, tournament, i, body ::
      && ProgressOk(t) && Tenancy(t) && Sequenced(t) && UpdateStageItem(t, tournament, i, body, MEXICANO).Ok?
      && RankingIn(t, tournament, body.ranking).Some?
      && !ProgressOk(UpdateStageItem(t, tournament, i, body, MEXICANO).value)
  {
    hide ProgressOk, Tenancy, Sequenced, UpdateStageItem, GrowthAddsMatch, NumSetsOfItem;
    var t, body := MEXICANO_OF_FOUR, THREE_SETS_TWO_GAMES;
    FourAreOk();
    FourUpdates();
    UpdateStageItemKeeps(t, 1, 5, body, MEXICANO);
    assert RankingIn(t, 1, body.ranking).Some?;
  }

  /** With a ranking of another tournament, and nothing else to change, an update goes through and writes only the
      item's row. */
  lemma ForeignRankingGoesThrough(t: Tables, tournament: Id, i: Id, ranking: Id)
    requires Sequenced(t) && BelongsTo(t, tournament, i) && 2 <= t.stageItems[i].teamCount <= 64
    requires ranking in t.rankings && t.rankings[ranking].tournament != tournament
    ensures var item := t.stageItems[i];
            UpdateStageItem(t, tournament, i, ItemBody(ranking, item.teamCount, None, item.name), MEXICANO)
            == Ok(t.(stageItems := t.stageItems[i := item.(ranking := ranking)]))
  {
    hide TryResize, Sequenced;
  }

  /** The item of four beside a three-set ranking of another tournament. */
  const FOREIGN_RANKING :=
    MEXICANO_OF_FOUR.(tournaments := {1, 2},
                      rankings := MEXICANO_OF_FOUR.rankings[4 := Ranking(2, None, 0, ONE_SET.(numSets := 3))])

  lemma ForeignIsOk()
    ensures ProgressOk(FOREIGN_RANKING) && Tenancy(FOREIGN_RANKING) && Sequenced(FOREIGN_RANKING)
  {
    FourAreOk();
    SameCountsOk(MEXICANO_OF_FOUR, FOREIGN_RANKING);
    assert Tenancy(FOREIGN_RANKING) && Sequenced(FOREIGN_RANKING);
  }

  lemma SameCountsOk(t: Tables, t': Tables)
    requires ProgressOk(t) && t' == t.(tournaments := t'.tournaments, rankings := t'.rankings)
    requires t'.rankings.Keys == t.rankings.Keys
    requires forall r | r in t.rankings :: t'.rankings[r].rules == t.rankings[r].rules
    ensures ProgressOk(t')
  {
    forall m | m in t'.matches ensures SetsFit(t', m) {
      assert SetsFit(t, m) && NumSetsOf(t', m) == NumSetsOf(t, m) by {
        assert forall r :: r in t'.rankings.Keys <==> r in t.rankings.Keys;
      }
    }
    assert forall r :: r in t'.rankings.Keys <==> r in t.rankings.Keys;
  }

  /** The update accepts that ranking; afterwards the item plays by the rules of another tournament, and its first
      match has one set row where they ask for three. */
  lemma ForeignRankingBreaks()
    ensures ProgressOk(FOREIGN_RANKING) && Tenancy(FOREIGN_RANKING) && Sequenced(FOREIGN_RANKING)
    ensures var r := UpdateStageItem(FOREIGN_RANKING, 1, 5, ItemBody(4, 4, None, 0), MEXICANO);
            && r.Ok? && !Tenancy(r.value) && !ProgressOk(r.value)
            && 7 in r.value.matches && NumSetsOf(r.value, 7) == 3 && RowsOf(r.value, 7) == map[1 := ZERO]
  {
    ForeignIsOk();
    assert BelongsTo(FOREIGN_RANKING, 1, 5);
    ForeignRankingGoesThrough(FOREIGN_RANKING, 1, 5, 4);
    hide UpdateStageItem, ChainRefers;
    ForeignAfter(UpdateStageItem(FOREIGN_RANKING, 1, 5, ItemBody(4, 4, None, 0), MEXICANO).value);
  }

  lemma ForeignAfter(t': Tables)
    requires var t := FOREIGN_RANKING; t' == t.(stageItems := t.stageItems[5 := t.stageItems[5].(ranking := 4)])
    ensures !Tenancy(t') && !AllSetsFit(t')
    ensures 7 in t'.matches && NumSetsOf(t', 7) == 3 && RowsOf(t', 7) == map[1 := ZERO]
  {
    assert 5 in t'.stageItems;
    assert NumSetsOf(t', 7) == 3 && 3 !in RowsOf(t', 7);
    assert !SetsFit(t', 7);
  }
}
