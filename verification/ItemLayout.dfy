/** What an update of a stage item does to its shape: slots, positions and matches inside their item are kept whatever
    one request changes together, only empty slots and matches that had not started are lost, and inputs that stay
    keep their order. */
module ItemLayout {
  import opened Schema
  import opened Progress
  import opened MatchSets
  import opened SetResize
  import opened Rankings
  import opened Deletion
  import opened StageItemResize
  import opened ItemMatches
  import opened RoundRobin
  import opened Layout
  import opened Elimination
  import opened EliminationResize
  import opened StageItems
  import opened ItemProgress

  // ---------------------------------------------------------------- the shape through each step

  lemma ResizeForRankingIntact(t: Tables, tournament: Id, i: Id, ranking: Id)
    requires Intact(t) && i in t.stageItems && ResizeForRanking(t, tournament, i, ranking).Ok?
    ensures Intact(ResizeForRanking(t, tournament, i, ranking).value)
  {
    hide Intact, BreaksCheck, Resized;
    MatchesAreMatches(t, i);
    var now := RankingIn(t, tournament, ranking);
    var was := SetsOr(RankingIn(t, tournament, t.stageItems[i].ranking), 1);
    if now.Some? { ResizedIntact(t, Uniform(MatchesOfItem(t, i), was), now.value.rules.numSets); }
  }

  lemma {:induction false} SkeletonMatchesIntact(t: Tables, round: Id, matches: seq<(int, int)>, bye: Option<int>)
    requires Intact(t) && round in t.rounds
    ensures Intact(SkeletonMatches(t, round, matches, bye))
  {
    hide Intact;
    if matches != [] {
      var n := |matches| - 1;
      SkeletonMatchesIntact(t, round, matches[..n], bye);
      MatchIntact(SkeletonMatches(t, round, matches[..n], bye), SkeletonMatch(round, matches[n], bye));
    }
  }

  lemma {:induction false} SkeletonRoundsIntact(t: Tables, i: Id, rounds: seq<RoundSkeleton>)
    requires Intact(t) && i in t.stageItems
    ensures Intact(SkeletonRounds(t, i, rounds))
  {
    hide Intact, SkeletonMatches;
    if rounds != [] {
      var n := |rounds| - 1;
      SkeletonRoundsIntact(t, i, rounds[..n]);
      var t1 := SkeletonRounds(t, i, rounds[..n]);
      RoundIntact(t1, i, Placeholder);
      SkeletonMatchesIntact(WithRound(t1, i, Placeholder), t1.nextId, rounds[n].matches, rounds[n].byeSlot);
    }
  }

  lemma {:induction false} RoundsDeletedIntact(t: Tables, seen: Tables, rounds: seq<Id>)
    requires Intact(t) && RoundsDeleted(t, seen, rounds).Ok?
    ensures Intact(RoundsDeleted(t, seen, rounds).value)
  {
    hide Intact, DeletedOneByOne, DeleteRounds, MatchesOfRounds;
    if rounds != [] {
      var n := |rounds| - 1;
      RoundsDeletedIntact(t, seen, rounds[..n]);
      var s := RoundsDeleted(t, seen, rounds[..n]).value;
      OneByOneIntact(s, Ids(MatchesOfRounds(seen, {rounds[n]})));
      DeleteRoundsIntact(DeletedOneByOne(s, Ids(MatchesOfRounds(seen, {rounds[n]}))).value, {rounds[n]});
    }
  }

  lemma AdjustIntact(t: Tables, seen: Tables, i: Id, body: ItemBody, skeletons: Skeletons)
    requires Intact(t) && i in seen.stageItems && i in t.stageItems && AdjustIfAsked(t, seen, i, body, skeletons).Ok?
    ensures Intact(AdjustIfAsked(t, seen, i, body, skeletons).value)
  {
    hide Intact, SkeletonRounds, RoundsDeleted, AllIdle, TrailingRounds;
    if body.gamesPerPlayer.Some? && seen.stageItems[i].gamesPerPlayer.Some? {
      var item, games := seen.stageItems[i], body.gamesPerPlayer.value;
      var was := skeletons(item.kind, item.teamCount, item.gamesPerPlayer.value);
      var now := skeletons(item.kind, item.teamCount, games);
      if |now| > |was| {
        SkeletonRoundsIntact(t, i, now[|was|..]);
      } else if RoundsDeleted(t, seen, TrailingRounds(seen, i, |now|)).Ok? {
        RoundsDeletedIntact(t, seen, TrailingRounds(seen, i, |now|));
      }
    }
  }

  lemma ResizeIfNeededIntact(t: Tables, seen: Tables, tournament: Id, i: Id, count: int)
    requires Intact(t) && i in seen.stageItems && ResizeIfNeeded(t, seen, tournament, i, count).Ok?
    requires BelongsTo(t, tournament, i)
    ensures Intact(ResizeIfNeeded(t, seen, tournament, i, count).value)
  {
    hide Intact, Resize, ResizeBracket;
    if count != seen.stageItems[i].teamCount {
      if seen.stageItems[i].kind == SingleElimination {
        ResizeBracketIntact(t, seen, tournament, i, count);
      } else {
        ResizeIntact(t, seen, tournament, i, count);
      }
    }
  }

  lemma RowShape(t: Tables, i: Id, body: ItemBody)
    requires Shape(t) && UpdateRow(t, i, body).Ok?
    ensures Shape(UpdateRow(t, i, body).value)
  {
    hide InputsRefer, RoundsRefer, LevelsRefer, StagesRefer, TeamsRefer, PlayersRefer, MatchSetsRefer,
      MembershipsRefer, CourtsRefer, RankingsRefer, RankingPointsRefer, MatchesRefer, UniqueTeams, MatchesInside;
    var t' := UpdateRow(t, i, body).value;
    assert t'.stageItems.Keys == t.stageItems.Keys;
    SameInside(t, t');
  }

  lemma RowIntact(t: Tables, i: Id, body: ItemBody)
    requires Intact(t) && UpdateRow(t, i, body).Ok?
    ensures Intact(UpdateRow(t, i, body).value)
  {
    hide Shape, UniqueSources, Local;
    RowShape(t, i, body);
    GroundLocal(t, UpdateRow(t, i, body).value);
  }

  lemma {:induction false} TopUpRoundIntact(t: Tables, i: Id, round: Id, inputs: seq<Id>, n: int,
    cells: seq<(nat, nat)>)
    requires Intact(t) && n <= |inputs| && round in t.rounds && t.rounds[round].stageItem == i
    requires forall x | x in inputs :: x in t.inputs && t.inputs[x].stageItem == i
    ensures Intact(TopUpRound(t, i, round, inputs, n, cells))
  {
    hide Intact, PairsOf, WithMatch;
    if cells != [] {
      var last := |cells| - 1;
      TopUpRoundIntact(t, i, round, inputs, n, cells[..last]);
      if cells[last].0 < n && cells[last].1 < n {
        assert inputs[cells[last].0] in inputs && inputs[cells[last].1] in inputs;
        MatchIntact(TopUpRound(t, i, round, inputs, n, cells[..last]),
                    NewMatch(round, inputs[cells[last].0], inputs[cells[last].1]));
      }
    }
  }

  lemma {:induction false} TopUpIntact(t: Tables, i: Id, rounds: seq<Id>, inputs: seq<Id>, n: int,
    table: seq<seq<(nat, nat)>>)
    requires Intact(t) && n <= |inputs| && |table| <= |rounds|
    requires forall r | r in rounds :: r in t.rounds && t.rounds[r].stageItem == i
    requires forall x | x in inputs :: x in t.inputs && t.inputs[x].stageItem == i
    ensures Intact(TopUp(t, i, rounds, inputs, n, table))
  {
    hide Intact, TopUpRound;
    if table != [] {
      var last := |table| - 1;
      TopUpIntact(t, i, rounds, inputs, n, table[..last]);
      assert rounds[last] in rounds;
      TopUpRoundIntact(TopUp(t, i, rounds, inputs, n, table[..last]), i, rounds[last], inputs, n, table[last]);
    }
  }

  lemma AddMissingIntact(t: Tables, i: Id, n: int)
    requires Intact(t) && i in t.stageItems && n <= |InputsOfItem(t, i)| && forall r | r in t.rounds :: r < t.nextId
    ensures Intact(AddMissing(t, i, n))
  {
    hide Intact, TopUp, BySlot, InputsOfItem, RoundsOfItem, Combinations, WithRounds;
    var t1 := EnoughRounds(t, i, RoundsNeeded(n));
    EnoughRoundsForm(t, i, n);
    SlotsListed(t, i);
    RoundsIntact(t, i, Max(RoundsNeeded(n) - |RoundsOfItem(t, i)|, 0));
    ItemListed(t1, i);
    TopUpIntact(t1, i, Ids(RoundsOfItem(t1, i)), BySlot(t1, i), n, Combinations(n));
  }

  lemma CompleteIntact(t: Tables, seen: Tables, i: Id, count: int)
    requires Intact(t) && Sequenced(t) && i in seen.stageItems && i in t.stageItems
    requires t.stageItems[i].kind == seen.stageItems[i].kind && Complete(t, seen, i, count).Ok?
    ensures Intact(Complete(t, seen, i, count).value)
  {
    hide Intact, AddMissing, BuildBracket, InputsOfItem;
    if count != seen.stageItems[i].teamCount {
      if seen.stageItems[i].kind == StageKind.RoundRobin {
        AddMissingIntact(t, i, count);
      } else if seen.stageItems[i].kind == SingleElimination {
        BuildBracketIntact(t, i, count);
      }
    }
  }

  lemma BeforeCompleteIntact(t: Tables, tournament: Id, i: Id, body: ItemBody, skeletons: Skeletons)
    requires Intact(t) && BelongsTo(t, tournament, i) && BeforeComplete(t, tournament, i, body, skeletons).Ok?
    ensures Intact(BeforeComplete(t, tournament, i, body, skeletons).value)
  {
    hide Intact, ResizeForRanking, AdjustIfAsked, ResizeIfNeeded, UpdateRow;
    ResizeForRankingIntact(t, tournament, i, body.ranking);
    ResizeForRankingFrame(t, tournament, i, body.ranking);
    var t1 := ResizeForRanking(t, tournament, i, body.ranking).value;
    AdjustIntact(t1, t, i, body, skeletons);
    var t2 := AdjustIfAsked(t1, t, i, body, skeletons).value;
    AdjustFrame(t1, t, i, body, skeletons);
    ResizeIfNeededIntact(t2, t, tournament, i, body.teamCount);
    RowIntact(ResizeIfNeeded(t2, t, tournament, i, body.teamCount).value, i, body);
  }

  lemma IntactIsSequenced(t: Tables)
    requires Intact(t)
    ensures Sequenced(t) && IdsBelowSequence(t)
  {
    IntactRefers(t);
  }

  lemma UpdateKeepsIntact(t: Tables, tournament: Id, i: Id, body: ItemBody, skeletons: Skeletons)
    requires Intact(t) && Sequenced(t) && UpdateStageItem(t, tournament, i, body, skeletons).Ok?
    ensures Intact(UpdateStageItem(t, tournament, i, body, skeletons).value)
  {
    hide Intact, BeforeComplete, Complete, Sequenced;
    BeforeCompleteIntact(t, tournament, i, body, skeletons);
    BeforeCompleteFrame(t, tournament, i, body, skeletons);
    CompleteIntact(BeforeComplete(t, tournament, i, body, skeletons).value, t, i, body.teamCount);
  }

  // ---------------------------------------------------------------- what each step loses

  lemma ResizeForRankingLoses(t: Tables, tournament: Id, i: Id, ranking: Id)
    requires i in t.stageItems && ResizeForRanking(t, tournament, i, ranking).Ok?
    ensures LosesOnlyIdle(t, t, ResizeForRanking(t, tournament, i, ranking).value, i)
  {
    hide BreaksCheck, ResizedSets, EmptyInputs, MatchesOfItem, StateOfMatch;
  }

  /** From `t` to `t'` nothing is lost at all. */
  lemma AddingLosesNothing(seen: Tables, t: Tables, t': Tables, i: Id)
    requires Extended(t, t', i)
    ensures LosesOnlyIdle(seen, t, t', i)
  {
    hide EmptyInputs, MatchesOfItem, StateOfMatch, NumSetsOfItem, RowsAre;
  }

  /** Matches laid out as positions play with nobody and wait for nobody. */
  ghost predicate NewAreOpen(t: Tables, t': Tables) {
    forall m | m in t'.matches && m !in t.matches ::
      && t'.matches[m].input1.None? && t'.matches[m].input2.None?
      && t'.matches[m].winnerFrom1.None? && t'.matches[m].winnerFrom2.None?
  }

  lemma {:induction false} SkeletonMatchesOpen(t: Tables, round: Id, matches: seq<(int, int)>, bye: Option<int>)
    ensures NewAreOpen(t, SkeletonMatches(t, round, matches, bye))
  {
    if matches != [] { SkeletonMatchesOpen(t, round, matches[..|matches| - 1], bye); }
  }

  lemma {:induction false} SkeletonRoundsOpen(t: Tables, i: Id, rounds: seq<RoundSkeleton>)
    requires Sequenced(t)
    ensures NewAreOpen(t, SkeletonRounds(t, i, rounds))
  {
    hide SkeletonMatches, Extended;
    if rounds != [] {
      var n := |rounds| - 1;
      SkeletonRoundsOpen(t, i, rounds[..n]);
      SkeletonRoundsExtend(t, i, rounds[..n]);
      var t1 := SkeletonRounds(t, i, rounds[..n]);
      var t2 := WithRound(t1, i, Placeholder);
      SkeletonMatchesOpen(t2, t1.nextId, rounds[n].matches, rounds[n].byeSlot);
      RoundExtends(t1, i, Placeholder);
      SkeletonMatchesExtend(t2, i, t1.nextId, rounds[n].matches, rounds[n].byeSlot);
      OpenTwice(t, t2, SkeletonRounds(t, i, rounds), i);
    }
  }

  lemma OpenTwice(t: Tables, s: Tables, t': Tables, i: Id)
    requires NewAreOpen(t, s) && NewAreOpen(s, t') && Extended(s, t', i)
    ensures NewAreOpen(t, t')
  {
    hide NumSetsOfItem, RowsAre, MatchesOfItem;
    forall m | m in t'.matches && m !in t.matches && m in s.matches ensures t'.matches[m] == s.matches[m] {}
  }

  lemma {:induction false} OneByOneLoses(t: Tables, ids: seq<Id>)
    requires DeletedOneByOne(t, ids).Ok?
    ensures var t' := DeletedOneByOne(t, ids).value;
            && t'.matches.Keys == t.matches.Keys - Group(ids)
            && forall m | m in t'.matches :: t'.matches[m] == t.matches[m]
  {
    if ids == [] {
      assert Group([]) == {};
    } else {
      var n := |ids| - 1;
      assert ids == ids[..n] + [ids[n]];
      assert Group(ids) == Group(ids[..n]) + {ids[n]};
      OneByOneLoses(t, ids[..n]);
      hide Group, FedBy;
    }
  }

  lemma MoreRounds(t: Tables, a: set<Id>, b: set<Id>)
    requires a <= b
    ensures MatchesOfRounds(t, a) <= MatchesOfRounds(t, b)
  {
  }

  lemma OneRoundLoses(t: Tables, seen: Tables, r: Id)
    requires var s := DeletedOneByOne(t, Ids(MatchesOfRounds(seen, {r}))); s.Ok? && DeleteRounds(s.value, {r}).Ok?
    ensures var u := DeleteRounds(DeletedOneByOne(t, Ids(MatchesOfRounds(seen, {r}))).value, {r}).value;
            && u.rounds == t.rounds - {r} && u.matches.Keys == t.matches.Keys - MatchesOfRounds(seen, {r})
            && (forall m | m in u.matches :: u.matches[m] == t.matches[m])
            && u.inputs == t.inputs && u.nextId == t.nextId
  {
    hide DeletedOneByOne, MatchesOfRounds, Group;
    var ids := Ids(MatchesOfRounds(seen, {r}));
    OneByOneLoses(t, ids);
    OneByOneFrame(t, ids);
    GroupIs(ids, MatchesOfRounds(seen, {r}));
  }

  /** The rounds of the list are gone, and of the matches only those of these rounds; the rest is unchanged. */
  lemma {:induction false} RoundsDeletedLoses(t: Tables, seen: Tables, rounds: seq<Id>)
    requires RoundsDeleted(t, seen, rounds).Ok?
    ensures var t' := RoundsDeleted(t, seen, rounds).value;
            && t'.rounds == t.rounds - Group(rounds) && t'.inputs == t.inputs && t'.nextId == t.nextId
            && t.matches.Keys - t'.matches.Keys <= MatchesOfRounds(seen, Group(rounds))
            && forall m | m in t'.matches :: m in t.matches && t'.matches[m] == t.matches[m]
  {
    if rounds == [] {
      assert Group([]) == {} && t.rounds - Group([]) == t.rounds;
    } else {
      hide DeletedOneByOne, DeleteRounds, Group, MatchesOfRounds, Ids;
      var n := |rounds| - 1;
      var s := RoundsDeleted(t, seen, rounds[..n]).value;
      RoundsDeletedLoses(t, seen, rounds[..n]);
      OneRoundLoses(s, seen, rounds[n]);
      GroupSplits(rounds);
      MoreRounds(seen, Group(rounds[..n]), Group(rounds));
      MoreRounds(seen, {rounds[n]}, Group(rounds));
      hide RoundsDeleted;
      LossesAdd(t.matches.Keys, s.matches.Keys, MatchesOfRounds(seen, {rounds[n]}),
        MatchesOfRounds(seen, Group(rounds)));
      assert (t.rounds - Group(rounds[..n])) - {rounds[n]} == t.rounds - Group(rounds);
    }
  }

  lemma GroupSplits(ids: seq<Id>)
    requires ids != []
    ensures Group(ids) == Group(ids[..|ids| - 1]) + {ids[|ids| - 1]}
  {
    assert ids == ids[..|ids| - 1] + [ids[|ids| - 1]];
  }

  lemma LossesAdd(all: set<Id>, kept: set<Id>, gone: set<Id>, bound: set<Id>)
    requires all - kept <= bound && gone <= bound
    ensures all - (kept - gone) <= bound
  {
  }

  lemma TrailingIdle(seen: Tables, i: Id, keep: nat)
    requires AllIdle(seen, Group(TrailingRounds(seen, i, keep)))
    ensures Group(TrailingRounds(seen, i, keep)) <= RoundsOfItem(seen, i)
    ensures forall m | m in MatchesOfRounds(seen, Group(TrailingRounds(seen, i, keep))) ::
              m in MatchesOfItem(seen, i) && StateOfMatch(seen, m) == NotStarted
  {
    hide StateOfMatch;
    var order := Ids(RoundsOfItem(seen, i));
    forall r | r in TrailingRounds(seen, i, keep) ensures r in RoundsOfItem(seen, i) {
      var k :| 0 <= k < |TrailingRounds(seen, i, keep)| && TrailingRounds(seen, i, keep)[k] == r;
      assert order[Min(keep, |order|) + k] == r;
      assert r in order;
    }
  }

  lemma ReductionLoses(t: Tables, seen: Tables, i: Id, keep: nat)
    requires AllIdle(seen, Group(TrailingRounds(seen, i, keep)))
    requires RoundsDeleted(t, seen, TrailingRounds(seen, i, keep)).Ok?
    ensures var t' := RoundsDeleted(t, seen, TrailingRounds(seen, i, keep)).value;
            LosesOnlyIdle(seen, t, t', i) && NewAreOpen(t, t')
  {
    hide RoundsDeleted, TrailingRounds, MatchesOfRounds, AllIdle, EmptyInputs, MatchesOfItem, StateOfMatch,
      RoundsOfItem;
    var rounds := TrailingRounds(seen, i, keep);
    RoundsDeletedLoses(t, seen, rounds);
    TrailingIdle(seen, i, keep);
    var t' := RoundsDeleted(t, seen, rounds).value;
    forall m | m in t.matches && m !in t'.matches ensures m in MatchesOfRounds(seen, Group(rounds)) {
      assert m in t.matches.Keys - t'.matches.Keys;
    }
  }

  /** More games per player lose nothing and add matches that play with nobody yet; fewer lose only rounds whose
      matches have not started. */
  lemma AdjustLoses(t: Tables, seen: Tables, i: Id, body: ItemBody, skeletons: Skeletons)
    requires Sequenced(t) && i in seen.stageItems && AdjustIfAsked(t, seen, i, body, skeletons).Ok?
    ensures var t' := AdjustIfAsked(t, seen, i, body, skeletons).value;
            LosesOnlyIdle(seen, t, t', i) && NewAreOpen(t, t')
  {
    hide SkeletonRounds, RoundsDeleted, AllIdle, TrailingRounds, LosesOnlyIdle, Extended, Sequenced;
    SameLosesNothing(seen, t, i);
    if body.gamesPerPlayer.Some? && seen.stageItems[i].gamesPerPlayer.Some? {
      var item, games := seen.stageItems[i], body.gamesPerPlayer.value;
      var was := skeletons(item.kind, item.teamCount, item.gamesPerPlayer.value);
      var now := skeletons(item.kind, item.teamCount, games);
      if |now| > |was| {
        SkeletonRoundsExtend(t, i, now[|was|..]);
        AddingLosesNothing(seen, t, SkeletonRounds(t, i, now[|was|..]), i);
        SkeletonRoundsOpen(t, i, now[|was|..]);
      } else if |now| < |was| && AllIdle(seen, Group(TrailingRounds(seen, i, |now|))) {
        if RoundsDeleted(t, seen, TrailingRounds(seen, i, |now|)).Ok? {
          ReductionLoses(t, seen, i, |now|);
        }
      }
    }
  }

  lemma SameLosesNothing(seen: Tables, t: Tables, i: Id)
    ensures LosesOnlyIdle(seen, t, t, i) && NewAreOpen(t, t)
  {
    hide EmptyInputs, MatchesOfItem, StateOfMatch;
  }

  // ---------------------------------------------------------------- the resize in the middle of the request

  /** After the first two steps the inputs are untouched and only matches the item had play with them. */
  lemma CarriedMidway(t: Tables, s: Tables, i: Id)
    requires Intact(t) && Intact(s) && s.inputs == t.inputs && s.stageItems == t.stageItems
    requires i in t.stageItems && t.stageItems[i].kind != SingleElimination
    requires LosesOnlyIdle(t, t, s, i) && NewAreOpen(t, s)
    ensures Carried(t, s, i)
  {
    hide Intact, EmptyInputs, StateOfMatch, LosesOnlyIdle;
    IntactRefers(t);
    IntactParts(s);
    forall m | m in s.matches
      ensures Plays(s.matches[m], InputsOfItem(t, i)) ==>
                && m in MatchesOfItem(t, i) && s.matches[m].input1 == t.matches[m].input1
                && s.matches[m].input2 == t.matches[m].input2
      ensures !Feeds(s.matches[m], MatchesOfItem(t, i))
    {
      if Plays(s.matches[m], InputsOfItem(t, i)) { PlayerCarried(t, s, i, m); }
      FeederCarried(t, s, i, m);
    }
  }

  lemma IntactParts(t: Tables)
    requires Intact(t)
    ensures MatchesInside(t)
  {
  }

  lemma KeptMatch(t: Tables, s: Tables, i: Id, m: Id)
    requires LosesOnlyIdle(t, t, s, i) && m in t.matches && m in s.matches
    requires t.matches[m].round in t.rounds && s.matches[m].round in s.rounds
    ensures s.matches[m] == t.matches[m].(referee := s.matches[m].referee, progress := s.matches[m].progress)
    ensures s.rounds[s.matches[m].round] == t.rounds[t.matches[m].round]
  {
    hide EmptyInputs, StateOfMatch, MatchesOfItem;
  }

  lemma PlayerCarried(t: Tables, s: Tables, i: Id, m: Id)
    requires MatchesInside(s) && s.inputs == t.inputs && LosesOnlyIdle(t, t, s, i) && NewAreOpen(t, s)
    requires forall x | x in t.matches :: t.matches[x].round in t.rounds
    requires m in s.matches && Plays(s.matches[m], InputsOfItem(t, i))
    ensures m in MatchesOfItem(t, i)
    ensures s.matches[m].input1 == t.matches[m].input1 && s.matches[m].input2 == t.matches[m].input2
  {
    hide LosesOnlyIdle;
    SameInputsSameSlots(t, s, i);
    PlayersInside(s, i, m);
    assert m in t.matches;
    KeptMatch(t, s, i, m);
  }

  lemma FeederCarried(t: Tables, s: Tables, i: Id, m: Id)
    requires MatchesInside(s) && s.stageItems == t.stageItems && LosesOnlyIdle(t, t, s, i)
    requires i in t.stageItems && t.stageItems[i].kind != SingleElimination
    requires forall x | x in t.matches :: t.matches[x].round in t.rounds
    requires m in s.matches
    ensures !Feeds(s.matches[m], MatchesOfItem(t, i))
  {
    hide LosesOnlyIdle;
    assert MatchInside(s, s.matches[m]);
    forall f | f in MatchesOfItem(t, i) ensures !WaitsFor(s.matches[m], f) {
      if WaitsFor(s.matches[m], f) {
        FeederInItem(t, s, i, m, f);
      }
    }
    WaitsForNone(s.matches[m], MatchesOfItem(t, i));
  }

  lemma WaitsForNone(m: Match, ids: set<Id>)
    requires forall f | f in ids :: !WaitsFor(m, f)
    ensures !Feeds(m, ids)
  {
    assert m.winnerFrom1.Some? ==> WaitsFor(m, m.winnerFrom1.value);
    assert m.winnerFrom2.Some? ==> WaitsFor(m, m.winnerFrom2.value);
  }

  lemma FeederInItem(t: Tables, s: Tables, i: Id, m: Id, f: Id)
    requires MatchesInside(s) && s.stageItems == t.stageItems && LosesOnlyIdle(t, t, s, i)
    requires forall x | x in t.matches :: t.matches[x].round in t.rounds
    requires m in s.matches && WaitsFor(s.matches[m], f) && f in MatchesOfItem(t, i)
    ensures i in t.stageItems && t.stageItems[i].kind == SingleElimination
  {
    hide LosesOnlyIdle;
    assert MatchInside(s, s.matches[m]);
    assert f in s.matches && s.matches[f].round in s.rounds;
    KeptMatch(t, s, i, f);
    assert f in MatchesOfItem(s, i);
    FedInside(s, i, m);
  }

  /** Slots and items of all inputs of other items are as they were. */
  ghost predicate OthersKept(t: Tables, t': Tables, i: Id) {
    && (forall x | x in t'.inputs && t'.inputs[x].stageItem != i ::
          x in t.inputs && t.inputs[x].stageItem == t'.inputs[x].stageItem && t.inputs[x].slot == t'.inputs[x].slot)
    && (forall x | x in t.inputs && t.inputs[x].stageItem != i :: x in t'.inputs && t'.inputs[x].stageItem != i)
  }

  lemma OthersSlots(t: Tables, t': Tables, i: Id, j: Id, n: int)
    requires OthersKept(t, t', i) && j != i && SlotsAre(t, j, n)
    ensures SlotsAre(t', j, n) && InputsOfItem(t', j) == InputsOfItem(t, j)
  {
    forall x ensures x in InputsOfItem(t', j) <==> x in InputsOfItem(t, j) {}
    assert InputsOfItem(t', j) == InputsOfItem(t, j);
  }

  /** Inputs track what they tracked, or nothing. */
  ghost predicate TracksLess(t: Tables, t': Tables) {
    forall x | x in t'.inputs && t'.inputs[x].winnerFrom.Some? ::
      x in t.inputs && t'.inputs[x].winnerFrom == t.inputs[x].winnerFrom
      && t'.inputs[x].winnerPosition == t.inputs[x].winnerPosition
  }

  lemma LessIsWithin(t: Tables, t': Tables, j: Id, n: int)
    requires TracksLess(t, t') && PositionsWithin(t, j, n)
    ensures PositionsWithin(t', j, n)
  {
  }

  /** Inputs of item `i` that stay, stay in their order. */
  ghost predicate StaysInOrder(t: Tables, t': Tables, i: Id) {
    forall x, y | x in InputsOfItem(t', i) && x in t.inputs && y in InputsOfItem(t', i) && y in t.inputs ::
      && x in InputsOfItem(t, i) && y in InputsOfItem(t, i)
      && (t.inputs[x].slot < t.inputs[y].slot ==> t'.inputs[x].slot < t'.inputs[y].slot)
  }

  /** What a resize in the middle of a request does to the inputs: slots 1..count, order kept among those that stay,
      other items untouched, nobody tracking more than before, and nothing beyond the new count. */
  ghost predicate Reslots(seen: Tables, t: Tables, t': Tables, i: Id, count: int) {
    && SlotsAre(t', i, count) && OthersKept(t, t', i) && TracksLess(t, t') && PositionsWithin(t', i, count)
    && t.inputs.Keys - t'.inputs.Keys == LostInputs(seen, i, count) && StaysInOrder(t, t', i)
  }

  /** The inputs a resize to `count` takes: none when it grows, else the empty ones with the highest slots. */
  function LostInputs(seen: Tables, i: Id, count: int): set<Id> {
    if i in seen.stageItems && count < seen.stageItems[i].teamCount
    then RemovedInputs(seen, i, seen.stageItems[i].teamCount - count) else {}
  }

  lemma AppendedReslots(seen: Tables, t: Tables, tournament: Id, i: Id, n: int, k: nat)
    requires SlotsAre(t, i, n) && PositionsWithin(t, i, n) && (forall x | x in t.inputs :: x < t.nextId)
    requires i in seen.stageItems && seen.stageItems[i].teamCount == n
    ensures Reslots(seen, t, Appended(t, tournament, i, n + 1, k), i, n + k)
  {
    hide Appended, SlotsAre, RemovedInputs, GrownBy, OthersKept, TracksLess, PositionsWithin, StaysInOrder;
    AppendedSlots(t, tournament, i, n, k);
    AppendedForm(t, tournament, i, n + 1, k);
    GrownKeeps(t, Appended(t, tournament, i, n + 1, k), tournament, i, n, k);
  }

  lemma GrownKeeps(t: Tables, g: Tables, tournament: Id, i: Id, n: int, k: nat)
    requires GrownBy(t, g, tournament, i, n + 1, k) && PositionsWithin(t, i, n)
    ensures OthersKept(t, g, i) && TracksLess(t, g) && PositionsWithin(g, i, n + k) && StaysInOrder(t, g, i)
    ensures t.inputs.Keys - g.inputs.Keys == {}
  {
    forall x | x in t.inputs.Keys ensures x in g.inputs.Keys { assert x in t.inputs; }
  }

  lemma RecutReslots(seen: Tables, t: Tables, t': Tables, i: Id, removed: set<Id>, count: int)
    requires removed <= InputsOfItem(t, i) && count == |InputsOfItem(t, i)| - |removed|
    requires t'.inputs == PositionsCleared(Recut(t, i, removed).inputs, i, count)
    requires removed == LostInputs(seen, i, count)
    ensures Reslots(seen, t, t', i, count)
  {
    hide Recut, SlotsAre, InputsOfItem, LostInputs, OthersKept, TracksLess, PositionsWithin, StaysInOrder,
      PositionsCleared;
    RecutSlotsAre(t, t', i, removed, count);
    RecutKeeps(t, t', i, removed, count);
    RecutStaysInOrder(t, t', i, removed, count);
  }

  lemma RecutSlotsAre(t: Tables, t': Tables, i: Id, removed: set<Id>, count: int)
    requires removed <= InputsOfItem(t, i) && count == |InputsOfItem(t, i)| - |removed|
    requires t'.inputs == PositionsCleared(Recut(t, i, removed).inputs, i, count)
    ensures SlotsAre(t', i, count) && PositionsWithin(t', i, count)
  {
    hide Recut, SlotsAre, InputsOfItem, PositionsCleared, PositionsWithin;
    var recut := Recut(t, i, removed);
    RecutFillsSlots(t, i, removed, count);
    ClearingKeepsSlots(recut, i, count, i, count);
    ClearedPositions(recut, i, count);
    var cleared := recut.(inputs := PositionsCleared(recut.inputs, i, count));
    SlotsFrame(cleared, t', i, count);
    PositionsFrame(cleared, t', i, count);
  }

  /** Row by row: what a recut and the clearing of positions leave. */
  lemma RecutRowsThen(t: Tables, t': Tables, i: Id, removed: set<Id>, count: int)
    requires removed <= InputsOfItem(t, i)
    requires t'.inputs == PositionsCleared(Recut(t, i, removed).inputs, i, count)
    ensures t'.inputs.Keys == t.inputs.Keys - removed
    ensures forall x | x in t'.inputs ::
              && x in t.inputs && t'.inputs[x].stageItem == t.inputs[x].stageItem
              && (t.inputs[x].stageItem != i ==> t'.inputs[x].slot == t.inputs[x].slot)
              && (t'.inputs[x].winnerFrom.Some? ==> t'.inputs[x].winnerFrom == t.inputs[x].winnerFrom
                                                    && t'.inputs[x].winnerPosition == t.inputs[x].winnerPosition)
  {
    hide Recut, InputsOfItem, PositionsCleared;
    RecutRows(t, i, removed);
    ClearedRows(Recut(t, i, removed).inputs, i, count);
  }

  lemma RecutKeeps(t: Tables, t': Tables, i: Id, removed: set<Id>, count: int)
    requires removed <= InputsOfItem(t, i)
    requires t'.inputs == PositionsCleared(Recut(t, i, removed).inputs, i, count)
    ensures OthersKept(t, t', i) && TracksLess(t, t') && t.inputs.Keys - t'.inputs.Keys == removed
  {
    hide Recut, PositionsCleared;
    RecutRowsThen(t, t', i, removed, count);
    forall x | x in removed ensures x in t.inputs.Keys && t.inputs[x].stageItem == i {
      assert x in InputsOfItem(t, i);
    }
    forall x | x in t.inputs && t.inputs[x].stageItem != i ensures x in t'.inputs && t'.inputs[x].stageItem != i {
      assert x in t'.inputs.Keys;
    }
  }

  lemma RecutStaysInOrder(t: Tables, t': Tables, i: Id, removed: set<Id>, count: int)
    requires removed <= InputsOfItem(t, i)
    requires t'.inputs == PositionsCleared(Recut(t, i, removed).inputs, i, count)
    ensures StaysInOrder(t, t', i)
  {
    hide Recut, PositionsCleared, InputsOfItem;
    RecutRowsThen(t, t', i, removed, count);
    RecutInside(t, t', i, removed);
    ClearedRows(Recut(t, i, removed).inputs, i, count);
    forall x, y | x in InputsOfItem(t', i) && x in t.inputs && y in InputsOfItem(t', i) && y in t.inputs
      ensures x in InputsOfItem(t, i) && y in InputsOfItem(t, i)
      ensures x in t'.inputs && y in t'.inputs
      ensures t.inputs[x].slot < t.inputs[y].slot ==> t'.inputs[x].slot < t'.inputs[y].slot
    {
      RecutInOrder(t, i, removed, x, y);
    }
  }

  lemma ClearedRows(inputs: map<Id, Input>, i: Id, count: int)
    ensures var after := PositionsCleared(inputs, i, count);
            after.Keys == inputs.Keys &&
            forall x | x in inputs ::
              && after[x].stageItem == inputs[x].stageItem && after[x].slot == inputs[x].slot
              && (after[x].winnerFrom.Some? ==> after[x] == inputs[x])
  {
  }

  lemma RecutInside(t: Tables, t': Tables, i: Id, removed: set<Id>)
    requires removed <= InputsOfItem(t, i) && t'.inputs.Keys == t.inputs.Keys - removed
    requires forall x | x in t'.inputs :: x in t.inputs && t'.inputs[x].stageItem == t.inputs[x].stageItem
    ensures InputsOfItem(t', i) == InputsOfItem(t, i) - removed
    ensures forall x | x in removed :: x in t.inputs && t.inputs[x].stageItem == i
  {
    forall x ensures x in InputsOfItem(t', i) <==> x in InputsOfItem(t, i) - removed {
      assert x in t'.inputs <==> x in t'.inputs.Keys;
    }
  }

  lemma ClearedReslots(seen: Tables, t: Tables, t1: Tables, t': Tables, i: Id, count: int)
    requires Reslots(seen, t, t1, i, count) && t'.inputs == PositionsCleared(t1.inputs, i, count)
    ensures Reslots(seen, t, t', i, count)
  {
    hide SlotsAre, LostInputs, PositionsCleared, PositionsWithin;
    var cleared := t1.(inputs := PositionsCleared(t1.inputs, i, count));
    ClearingKeepsSlots(t1, i, count, i, count);
    ClearedPositions(t1, i, count);
    SlotsFrame(cleared, t', i, count);
    PositionsFrame(cleared, t', i, count);
    ClearedRows(t1.inputs, i, count);
    ClearedKeep(t, t1, t', i);
  }

  lemma ClearedKeep(t: Tables, t1: Tables, t': Tables, i: Id)
    requires OthersKept(t, t1, i) && TracksLess(t, t1) && StaysInOrder(t, t1, i) && t'.inputs.Keys == t1.inputs.Keys
    requires forall x | x in t1.inputs ::
               && t'.inputs[x].stageItem == t1.inputs[x].stageItem && t'.inputs[x].slot == t1.inputs[x].slot
               && (t'.inputs[x].winnerFrom.Some? ==> t'.inputs[x] == t1.inputs[x])
    ensures OthersKept(t, t', i) && TracksLess(t, t') && StaysInOrder(t, t', i)
  {
    forall x | x in t.inputs && t.inputs[x].stageItem != i ensures x in t'.inputs && t'.inputs[x].stageItem != i {
      assert x in t1.inputs.Keys;
    }
    forall x ensures x in InputsOfItem(t', i) <==> x in InputsOfItem(t1, i) {
      assert x in t'.inputs <==> x in t'.inputs.Keys;
    }
    assert InputsOfItem(t', i) == InputsOfItem(t1, i);
  }

  /** What the middle of a request has done when the resize comes: nothing to the inputs. */
  ghost predicate Midway(t: Tables, s: Tables, i: Id) {
    && Intact(t) && Intact(s) && s.inputs == t.inputs && s.stageItems == t.stageItems && i in t.stageItems
    && LosesOnlyIdle(t, t, s, i) && NewAreOpen(t, s)
    && (t.stageItems[i].kind == SingleElimination ==> s.rounds == t.rounds && s.matches.Keys == t.matches.Keys)
  }

  lemma NoResize(t: Tables, s: Tables, i: Id, count: int)
    requires s.inputs == t.inputs && SlotsAre(t, i, count) && PositionsWithin(t, i, count)
    requires i in t.stageItems && t.stageItems[i].teamCount == count
    ensures Reslots(t, s, s, i, count) && LosesOnlyIdle(t, s, s, i)
  {
    hide SlotsAre, RemovedInputs, EmptyInputs, MatchesOfItem, StateOfMatch;
    SlotsFrame(t, s, i, count);
    PositionsFrame(t, s, i, count);
  }

  lemma GrowthReslots(t: Tables, s: Tables, tournament: Id, i: Id, k: nat)
    requires s.inputs == t.inputs && (forall x | x in s.inputs :: x < s.nextId)
    requires i in t.stageItems && SlotsAre(t, i, t.stageItems[i].teamCount)
    requires PositionsWithin(t, i, t.stageItems[i].teamCount)
    ensures var n := t.stageItems[i].teamCount;
            var s' := Appended(s, tournament, i, n + 1, k);
            Reslots(t, s, s', i, n + k) && LosesOnlyIdle(t, s, s', i)
  {
    hide SlotsAre, PositionsWithin, Appended, Reslots, EmptyInputs, MatchesOfItem, StateOfMatch, GrownBy;
    var n := t.stageItems[i].teamCount;
    SlotsFrame(t, s, i, n);
    PositionsFrame(t, s, i, n);
    AppendedReslots(t, s, tournament, i, n, k);
    AppendedForm(s, tournament, i, n + 1, k);
    GrownNew(s, Appended(s, tournament, i, n + 1, k), tournament, i, n + 1, k);
  }

  lemma GrownNew(t: Tables, g: Tables, tournament: Id, i: Id, first: int, k: nat)
    requires GrownBy(t, g, tournament, i, first, k)
    ensures t.nextId <= g.nextId && (forall x | x in t.inputs :: x in g.inputs)
    ensures forall x | x in g.inputs && x !in t.inputs :: t.nextId <= x
  {
  }

  lemma InputsCounted(t: Tables, i: Id, n: int)
    requires SlotsAre(t, i, n)
    ensures |InputsOfItem(t, i)| == n
  {
  }

  lemma ShrinkReslots(t: Tables, s: Tables, tournament: Id, i: Id, count: int)
    requires Midway(t, s, i) && SlotsAre(t, i, t.stageItems[i].teamCount) && count < t.stageItems[i].teamCount
    requires t.stageItems[i].kind != SingleElimination && Resize(s, t, tournament, i, count).Ok?
    ensures var s' := Resize(s, t, tournament, i, count).value;
            Reslots(t, s, s', i, count) && LosesOnlyIdle(t, s, s', i)
  {
    hide SlotsAre, Intact, NewAreOpen, Carried, Resize, RemovedInputs, InvolvedMatches, EmptyInputs, InputsOfItem,
      StartedMatches, Plays, LosesOnlyIdle, Reslots, PositionsCleared, PositionsWithin, Renumbered, Without, BySlot,
      WithoutReferees;
    var k := t.stageItems[i].teamCount - count;
    var removed := RemovedInputs(t, i, k);
    CarriedMidway(t, s, i);
    ShrinkOutcome(s, t, tournament, i, count);
    RemovedFacts(t, i, k);
    ShrinkLosesOnlyIdle(s, t, i, removed, count);
    InputsCounted(t, i, t.stageItems[i].teamCount);
    SameInputsSameSlots(t, s, i);
    RecutReslots(t, s, Resize(s, t, tournament, i, count).value, i, removed, count);
  }

  lemma BracketReslots(t: Tables, s: Tables, tournament: Id, i: Id, count: int)
    requires Midway(t, s, i) && SlotsAre(t, i, t.stageItems[i].teamCount) && count != t.stageItems[i].teamCount
    requires PositionsWithin(t, i, t.stageItems[i].teamCount)
    requires t.stageItems[i].kind == SingleElimination && ResizeBracket(s, t, tournament, i, count).Ok?
    ensures var s' := ResizeBracket(s, t, tournament, i, count).value;
            Reslots(t, s, s', i, count) && LosesOnlyIdle(t, s, s', i)
  {
    hide SlotsAre, Intact, NewAreOpen, Reslotted, WithoutBracket, StartedMatches, LosesOnlyIdle, Reslots,
      PositionsCleared, PositionsWithin, BracketRounds;
    var t1 := Reslotted(s, t, tournament, i, count).value;
    var t2 := t1.(inputs := PositionsCleared(t1.inputs, i, count));
    ReslottedLoses(t, s, tournament, i, count);
    BracketLoses(t, s, t1, t2, i, count);
    SequencedParts(s);
    LosesOnlyIdleTwice(t, s, t2, WithoutBracket(t2, i).value, i);
    ReslotsFrame(t, s, t2, WithoutBracket(t2, i).value, i, count);
  }

  lemma SequencedParts(t: Tables)
    requires Intact(t)
    ensures (forall m | m in t.matches :: m < t.nextId) && (forall x | x in t.inputs :: x < t.nextId)
    ensures forall r | r in t.rounds :: r < t.nextId
  {
    IntactRefers(t);
  }

  lemma ReslotsFrame(seen: Tables, t: Tables, t1: Tables, t': Tables, i: Id, count: int)
    requires Reslots(seen, t, t1, i, count) && t'.inputs == t1.inputs
    ensures Reslots(seen, t, t', i, count)
  {
    hide SlotsAre, PositionsWithin, LostInputs;
    SlotsFrame(t1, t', i, count);
    PositionsFrame(t1, t', i, count);
    SameInputsSameSlots(t1, t', i);
  }

  /** The inputs of a bracket are settled, and nothing else has changed but referees. */
  lemma ReslottedLoses(t: Tables, s: Tables, tournament: Id, i: Id, count: int)
    requires Midway(t, s, i) && SlotsAre(t, i, t.stageItems[i].teamCount) && count != t.stageItems[i].teamCount
    requires PositionsWithin(t, i, t.stageItems[i].teamCount)
    requires StartedMatches(t, i) == {} && Reslotted(s, t, tournament, i, count).Ok?
    ensures var t1 := Reslotted(s, t, tournament, i, count).value;
            var t2 := t1.(inputs := PositionsCleared(t1.inputs, i, count));
            Reslots(t, s, t2, i, count) && LosesOnlyIdle(t, s, t2, i) && t2.rounds == s.rounds
            && t2.matches.Keys == s.matches.Keys
            && forall m | m in s.matches :: t2.matches[m] == s.matches[m].(referee := t2.matches[m].referee)
  {
    hide SlotsAre, Intact, NewAreOpen, ShrunkBracket, Appended, StartedMatches, LosesOnlyIdle, Reslots,
      PositionsCleared, PositionsWithin;
    SequencedParts(s);
    var was := t.stageItems[i].teamCount;
    if count < was {
      ShrunkBracketLoses(t, s, i, count);
    } else {
      GrowthReslots(t, s, tournament, i, count - was);
      var t1 := Appended(s, tournament, i, was + 1, count - was);
      ClearedReslots(t, s, t1, t1.(inputs := PositionsCleared(t1.inputs, i, count)), i, count);
      ClearedRows(t1.inputs, i, count);
      SameKeysLoses(t, s, t1, t1.(inputs := PositionsCleared(t1.inputs, i, count)), i);
    }
  }

  lemma SameKeysLoses(seen: Tables, t: Tables, t1: Tables, t': Tables, i: Id)
    requires LosesOnlyIdle(seen, t, t1, i) && t' == t1.(inputs := t'.inputs) && t'.inputs.Keys == t1.inputs.Keys
    ensures LosesOnlyIdle(seen, t, t', i)
  {
    hide EmptyInputs, MatchesOfItem, StateOfMatch;
    forall x ensures x in t'.inputs <==> x in t1.inputs { assert x in t'.inputs.Keys <==> x in t1.inputs.Keys; }
  }

  lemma ShrunkBracketLoses(t: Tables, s: Tables, i: Id, count: int)
    requires Midway(t, s, i) && SlotsAre(t, i, t.stageItems[i].teamCount) && count < t.stageItems[i].teamCount
    requires StartedMatches(t, i) == {} && ShrunkBracket(s, t, i, t.stageItems[i].teamCount - count).Ok?
    ensures var t1 := ShrunkBracket(s, t, i, t.stageItems[i].teamCount - count).value;
            var t2 := t1.(inputs := PositionsCleared(t1.inputs, i, count));
            Reslots(t, s, t2, i, count) && LosesOnlyIdle(t, s, t2, i) && t2.rounds == s.rounds
            && t2.matches.Keys == s.matches.Keys
            && forall m | m in s.matches :: t2.matches[m] == s.matches[m].(referee := t2.matches[m].referee)
  {
    hide SlotsAre, Intact, NewAreOpen, ShrunkBracket, StartedMatches, LosesOnlyIdle, Reslots, RemovedInputs,
      EmptyInputs, PositionsCleared, PositionsWithin, WithoutReferees, PlayedIn, InputsOfItem, Renumbered, Without,
      BySlot;
    var k := t.stageItems[i].teamCount - count;
    var removed := RemovedInputs(t, i, k);
    ShrunkBracketOutcome(s, t, i, k);
    RemovedFacts(t, i, k);
    InputsCounted(t, i, t.stageItems[i].teamCount);
    SameInputsSameSlots(t, s, i);
    RefereesAside(s.matches, removed);
    var t1 := ShrunkBracket(s, t, i, k).value;
    var t2 := t1.(inputs := PositionsCleared(t1.inputs, i, count));
    RecutReslots(t, s, t2, i, removed, count);
    RecutRows(s, i, removed);
    ClearedRows(Recut(s, i, removed).inputs, i, count);
    CutLoses(t, s, t2, i, removed);
  }

  lemma CutLoses(seen: Tables, t: Tables, t': Tables, i: Id, removed: set<Id>)
    requires t' == t.(inputs := t'.inputs, matches := t'.matches) && t'.inputs.Keys == t.inputs.Keys - removed
    requires removed <= EmptyInputs(seen, i) && t'.matches.Keys == t.matches.Keys
    requires forall m | m in t.matches :: t'.matches[m] == t.matches[m].(referee := t'.matches[m].referee)
    ensures LosesOnlyIdle(seen, t, t', i)
  {
    hide EmptyInputs, MatchesOfItem, StateOfMatch;
    forall x ensures x in t'.inputs <==> x in t.inputs && x !in removed {
      assert x in t'.inputs <==> x in t'.inputs.Keys;
    }
    forall m ensures m in t'.matches <==> m in t.matches { assert m in t'.matches.Keys <==> m in t.matches.Keys; }
  }

  /** The matches of a bracket in which nothing has started go, and with them its rounds. */
  lemma BracketLoses(t: Tables, s: Tables, t1: Tables, t2: Tables, i: Id, count: int)
    requires Midway(t, s, i) && t.stageItems[i].kind == SingleElimination && StartedMatches(t, i) == {}
    requires t2.rounds == s.rounds && t2.matches.Keys == s.matches.Keys && WithoutBracket(t2, i).Ok?
    requires forall m | m in s.matches :: t2.matches[m] == s.matches[m].(referee := t2.matches[m].referee)
    ensures LosesOnlyIdle(t, t2, WithoutBracket(t2, i).value, i)
    ensures WithoutBracket(t2, i).value.inputs == t2.inputs
  {
    hide StateOfMatch, EmptyInputs, Intact, StartedMatches, MatchesOfItem, NewAreOpen, DeleteMatches, DeleteRounds,
      RoundsOfItem;
    BracketMatches(t, s, t2, i);
    MatchesAreMatches(t, i);
    forall m | m in MatchesOfItem(t2, i) ensures m in MatchesOfItem(t, i) && StateOfMatch(t, m) == NotStarted {
      NotStartedHere(t, i, m);
    }
    WithoutBracketFrame(t2, i);
  }

  lemma BracketMatches(t: Tables, s: Tables, t2: Tables, i: Id)
    requires Midway(t, s, i) && t.stageItems[i].kind == SingleElimination
    requires t2.rounds == s.rounds && t2.matches.Keys == s.matches.Keys
    requires forall m | m in s.matches :: t2.matches[m] == s.matches[m].(referee := t2.matches[m].referee)
    ensures MatchesOfItem(t2, i) <= MatchesOfItem(t, i)
  {
    hide StateOfMatch, EmptyInputs, Intact, NewAreOpen;
    forall m | m in MatchesOfItem(t2, i) ensures m in MatchesOfItem(t, i) {
      assert m in t2.matches.Keys && m in s.matches && m in t.matches.Keys;
      assert s.matches[m] == t.matches[m].(referee := s.matches[m].referee, progress := s.matches[m].progress);
    }
  }

  lemma WithoutBracketFrame(t: Tables, i: Id)
    requires WithoutBracket(t, i).Ok?
    ensures var t' := WithoutBracket(t, i).value;
            && t'.inputs == t.inputs && t'.nextId == t.nextId && t'.matches == t.matches - MatchesOfItem(t, i)
            && t'.rounds == t.rounds - RoundsOfItem(DeleteMatches(t, MatchesOfItem(t, i)).value, i)
  {
    hide FedBy;
  }

  lemma NotStartedHere(t: Tables, i: Id, m: Id)
    requires StartedMatches(t, i) == {} && m in MatchesOfItem(t, i)
    ensures StateOfMatch(t, m) == NotStarted
  {
    hide StateOfMatch;
    assert m !in StartedMatches(t, i);
  }

  /** The resize of an update, for every kind: slots, positions and losses. */
  lemma ResizeStep(t: Tables, s: Tables, tournament: Id, i: Id, count: int)
    requires Midway(t, s, i) && SlotsAre(t, i, t.stageItems[i].teamCount)
    requires PositionsWithin(t, i, t.stageItems[i].teamCount) && ResizeIfNeeded(s, t, tournament, i, count).Ok?
    ensures var s' := ResizeIfNeeded(s, t, tournament, i, count).value;
            Reslots(t, s, s', i, count) && LosesOnlyIdle(t, s, s', i)
  {
    hide SlotsAre, PositionsWithin, ResizeBracket, Reslots, LosesOnlyIdle, Intact, NewAreOpen, Appended, Shrunk,
      EmptyInputs, RemovedInputs, BlockingSlots;
    var was := t.stageItems[i].teamCount;
    SequencedParts(s);
    if count == was {
      NoResize(t, s, i, count);
    } else if t.stageItems[i].kind == SingleElimination {
      BracketReslots(t, s, tournament, i, count);
    } else if count > was {
      GrowthReslots(t, s, tournament, i, count - was);
    } else {
      ShrinkReslots(t, s, tournament, i, count);
    }
  }

  // ---------------------------------------------------------------- the whole update

  lemma MidwayHolds(t: Tables, tournament: Id, i: Id, body: ItemBody, skeletons: Skeletons)
    requires Intact(t) && i in t.stageItems && ResizeForRanking(t, tournament, i, body.ranking).Ok?
    requires AdjustIfAsked(ResizeForRanking(t, tournament, i, body.ranking).value, t, i, body, skeletons).Ok?
    ensures var t1 := ResizeForRanking(t, tournament, i, body.ranking).value;
            Midway(t, AdjustIfAsked(t1, t, i, body, skeletons).value, i)
  {
    hide Intact, ResizeForRanking, AdjustIfAsked, LosesOnlyIdle;
    SequencedParts(t);
    ResizeForRankingIntact(t, tournament, i, body.ranking);
    ResizeForRankingFrame(t, tournament, i, body.ranking);
    ResizeForRankingLoses(t, tournament, i, body.ranking);
    var t1 := ResizeForRanking(t, tournament, i, body.ranking).value;
    IntactIsSequenced(t1);
    AdjustIntact(t1, t, i, body, skeletons);
    AdjustFrame(t1, t, i, body, skeletons);
    AdjustLoses(t1, t, i, body, skeletons);
    var t2 := AdjustIfAsked(t1, t, i, body, skeletons).value;
    LosesOnlyIdleTwice(t, t, t1, t2, i);
    SameKeysOpen(t, t1, t2);
    BracketsHaveNoGames(t1, t, i, body, skeletons);
  }

  lemma SameKeysOpen(t: Tables, t1: Tables, t2: Tables)
    requires t1.matches.Keys == t.matches.Keys && NewAreOpen(t1, t2)
    ensures NewAreOpen(t, t2)
  {
    forall m | m in t2.matches && m !in t.matches ensures m !in t1.matches { assert m !in t1.matches.Keys; }
  }

  lemma BracketsHaveNoGames(t: Tables, seen: Tables, i: Id, body: ItemBody, skeletons: Skeletons)
    requires i in seen.stageItems
    ensures !StandingsResolved(seen.stageItems[i].kind) ==> AdjustIfAsked(t, seen, i, body, skeletons) == Ok(t)
  {
  }

  /** All steps but the last: slots, positions and losses, judged by the state the request read. */
  lemma BeforeCompleteReslots(t: Tables, tournament: Id, i: Id, body: ItemBody, skeletons: Skeletons)
    requires Intact(t) && BelongsTo(t, tournament, i) && SlotsAre(t, i, t.stageItems[i].teamCount)
    requires PositionsWithin(t, i, t.stageItems[i].teamCount) && BeforeComplete(t, tournament, i, body, skeletons).Ok?
    ensures var t4 := BeforeComplete(t, tournament, i, body, skeletons).value;
            Reslots(t, t, t4, i, body.teamCount) && LosesOnlyIdle(t, t, t4, i) && Intact(t4)
  {
    hide Intact, ResizeForRanking, AdjustIfAsked, ResizeIfNeeded, LosesOnlyIdle, SlotsAre, PositionsWithin, Reslots,
      NewAreOpen;
    SequencedParts(t);
    MidwayHolds(t, tournament, i, body, skeletons);
    var t2 := AdjustIfAsked(ResizeForRanking(t, tournament, i, body.ranking).value, t, i, body, skeletons).value;
    ResizeStep(t, t2, tournament, i, body.teamCount);
    var t3 := ResizeIfNeeded(t2, t, tournament, i, body.teamCount).value;
    ResizeIfNeededFrame(t2, t, tournament, i, body.teamCount);
    var t4 := UpdateRow(t3, i, body).value;
    ReslotsFromSame(t, t2, t, t3, i, body.teamCount);
    ReslotsFrame(t, t, t3, t4, i, body.teamCount);
    RowLosesNothing(t, t3, i, body);
    LosesOnlyIdleTwice(t, t, t2, t3, i);
    LosesOnlyIdleTwice(t, t, t3, t4, i);
    BeforeCompleteIntact(t, tournament, i, body, skeletons);
  }

  lemma ReslotsFromSame(seen: Tables, t: Tables, t0: Tables, t': Tables, i: Id, count: int)
    requires Reslots(seen, t, t', i, count) && t0.inputs == t.inputs
    ensures Reslots(seen, t0, t', i, count)
  {
    hide SlotsAre, PositionsWithin, LostInputs;
    SameInputsSameSlots(t, t0, i);
  }

  lemma RowLosesNothing(seen: Tables, t: Tables, i: Id, body: ItemBody)
    requires UpdateRow(t, i, body).Ok?
    ensures LosesOnlyIdle(seen, t, UpdateRow(t, i, body).value, i)
  {
    hide EmptyInputs, MatchesOfItem, StateOfMatch;
  }

  /** The item at the end: its slots are 1..count, what was lost is exactly the empty inputs with the highest slots
      and matches that had not started, inputs that stay keep their order, other items are untouched. */
  lemma UpdateReslots(t: Tables, tournament: Id, i: Id, body: ItemBody, skeletons: Skeletons)
    requires Intact(t) && Sequenced(t) && i in t.stageItems && SlotsAre(t, i, t.stageItems[i].teamCount)
    requires PositionsWithin(t, i, t.stageItems[i].teamCount)
    requires UpdateStageItem(t, tournament, i, body, skeletons).Ok?
    ensures var t' := UpdateStageItem(t, tournament, i, body, skeletons).value;
            Reslots(t, t, t', i, body.teamCount) && LosesOnlyIdle(t, t, t', i) && Intact(t')
  {
    hide Intact, BeforeComplete, Complete, LosesOnlyIdle, SlotsAre, PositionsWithin, Reslots, Sequenced, Extended;
    BeforeCompleteReslots(t, tournament, i, body, skeletons);
    BeforeCompleteFrame(t, tournament, i, body, skeletons);
    var t4 := BeforeComplete(t, tournament, i, body, skeletons).value;
    CompleteExtends(t4, t, i, body.teamCount);
    CompleteFrame(t4, t, i, body.teamCount);
    var t' := Complete(t4, t, i, body.teamCount).value;
    AddingLosesNothing(t, t4, t', i);
    SequencedParts(t);
    LosesOnlyIdleTwice(t, t, t4, t', i);
    ReslotsFrame(t, t, t4, t', i, body.teamCount);
    UpdateKeepsIntact(t, tournament, i, body, skeletons);
  }

  /** An update loses exactly the inputs a shrink takes, which were empty, and matches of the item that had not
      started; every match that stays plays and waits as before, and none plays with an input that went. */
  lemma UpdateLosesOnlyIdle(t: Tables, tournament: Id, i: Id, body: ItemBody, skeletons: Skeletons)
    requires Intact(t) && Sequenced(t) && SlotsOk(t) && PositionsOk(t)
    requires UpdateStageItem(t, tournament, i, body, skeletons).Ok?
    ensures var t' := UpdateStageItem(t, tournament, i, body, skeletons).value;
            && t.inputs.Keys - t'.inputs.Keys == LostInputs(t, i, body.teamCount) && LosesOnlyIdle(t, t, t', i)
            && forall m | m in t'.matches :: !Plays(t'.matches[m], LostInputs(t, i, body.teamCount))
  {
    hide Intact, UpdateTransaction, LosesOnlyIdle, SlotsAre, PositionsWithin, Sequenced, LostInputs, OthersKept,
      TracksLess, StaysInOrder;
    UpdateReslots(t, tournament, i, body, skeletons);
    var t' := UpdateStageItem(t, tournament, i, body, skeletons).value;
    IntactRefers(t');
    forall m | m in t'.matches ensures !Plays(t'.matches[m], LostInputs(t, i, body.teamCount)) {
      assert MatchRefers(t'.matches[m], t'.rounds.Keys, t'.inputs.Keys, t'.matches.Keys, t'.courts.Keys);
    }
  }

  /** Whatever an update changes together, every reference holds afterwards, teams are unique, matches stay inside
      their items, slots are 1..team_count everywhere, and nobody tracks a position that does not exist. */
  lemma UpdateKeepsLayout(t: Tables, tournament: Id, i: Id, body: ItemBody, skeletons: Skeletons)
    requires Intact(t) && Sequenced(t) && SlotsOk(t) && PositionsOk(t)
    requires UpdateStageItem(t, tournament, i, body, skeletons).Ok?
    ensures var t' := UpdateStageItem(t, tournament, i, body, skeletons).value;
            Intact(t') && SlotsOk(t') && PositionsOk(t') && OrderKept(t, t')
  {
    hide Intact, UpdateTransaction, LosesOnlyIdle, SlotsAre, PositionsWithin, Sequenced, LostInputs, OthersKept,
      TracksLess, StaysInOrder, OrderKept;
    UpdateReslots(t, tournament, i, body, skeletons);
    UpdateFrame(t, tournament, i, body, skeletons);
    var t' := UpdateStageItem(t, tournament, i, body, skeletons).value;
    forall j | j in t'.stageItems
      ensures SlotsAre(t', j, t'.stageItems[j].teamCount) && PositionsWithin(t', j, t'.stageItems[j].teamCount)
    {
      assert j in t.stageItems.Keys;
      if j != i {
        OthersSlots(t, t', i, j, t.stageItems[j].teamCount);
        LessIsWithin(t, t', j, t.stageItems[j].teamCount);
      }
    }
    ReslottedOrder(t, t', i, body.teamCount);
  }

  // ---------------------------------------------------------------- order over time

  /** Of the inputs `t'` has in item `i`, those below `t`'s sequence were there in `t`, and they stand in
      the order they had there: no id is used twice and no two inputs ever change places. */
  ghost predicate KeepsOrder(t: Tables, t': Tables, i: Id) {
    && (forall x | x in InputsOfItem(t', i) && x < t.nextId :: x in InputsOfItem(t, i))
    && forall x, y | x in InputsOfItem(t', i) && y in InputsOfItem(t', i) && x < t.nextId && y < t.nextId ::
         t.inputs[x].slot < t.inputs[y].slot ==> t'.inputs[x].slot < t'.inputs[y].slot
  }

  /** The same of all items: an item below `t`'s sequence was there in `t`. */
  ghost predicate OrderKept(t: Tables, t': Tables) {
    && t.nextId <= t'.nextId
    && (forall i | i in t'.stageItems && i < t.nextId :: i in t.stageItems)
    && forall i | i in t'.stageItems && i < t.nextId :: KeepsOrder(t, t', i)
  }

  lemma KeepsOrderTwice(t: Tables, s: Tables, t': Tables, i: Id)
    requires t.nextId <= s.nextId && KeepsOrder(t, s, i) && KeepsOrder(s, t', i)
    ensures KeepsOrder(t, t', i)
  {
  }

  lemma OrderKeptTwice(t: Tables, s: Tables, t': Tables)
    requires OrderKept(t, s) && OrderKept(s, t')
    ensures OrderKept(t, t')
  {
    hide KeepsOrder;
    forall i | i in t'.stageItems && i < t.nextId ensures i in t.stageItems && KeepsOrder(t, t', i) {
      KeepsOrderTwice(t, s, t', i);
    }
  }

  lemma ReslottedOrder(t: Tables, t': Tables, i: Id, count: int)
    requires Reslots(t, t, t', i, count) && LosesOnlyIdle(t, t, t', i) && t'.stageItems.Keys == t.stageItems.Keys
    ensures OrderKept(t, t')
  {
    hide SlotsAre, PositionsWithin, LostInputs, EmptyInputs, MatchesOfItem, StateOfMatch, KeepsOrder, TracksLess,
      OthersKept, StaysInOrder;
    forall j | j in t'.stageItems ensures j in t.stageItems && KeepsOrder(t, t', j) {
      assert j in t.stageItems.Keys;
      if j == i { OwnOrder(t, t', i); } else { OthersOrder(t, t', i, j); }
    }
  }

  lemma OwnOrder(t: Tables, t': Tables, i: Id)
    requires StaysInOrder(t, t', i) && forall x | x in t'.inputs && x !in t.inputs :: t.nextId <= x
    ensures KeepsOrder(t, t', i)
  {
  }

  lemma OthersOrder(t: Tables, t': Tables, i: Id, j: Id)
    requires OthersKept(t, t', i) && i != j
    ensures KeepsOrder(t, t', j)
  {
  }
}
