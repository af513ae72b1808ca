/** When a creation and an update of a stage item go through, with which error they are refused otherwise, and what they
    store. */
module ItemOutcome {
  import opened Schema
  import opened Progress
  import opened MatchSets
  import opened SetResize
  import opened Rankings
  import opened Deletion
  import opened StageItemResize
  import opened ItemMatches
  import opened Layout
  import opened Elimination
  import opened EliminationResize
  import opened StageItems
  import opened ItemProgress
  import opened ItemLayout
  import opened ItemCompletion
  import opened ItemCreation

  // ---------------------------------------------------------------- why an update is refused

  ghost predicate HasStarted(t: Tables, i: Id) {
    exists m :: m in MatchesOfItem(t, i) && StateOfMatch(t, m) != NotStarted
  }

  /** A match that has started plays with one of these inputs. */
  ghost predicate StartedWith(t: Tables, i: Id, ids: set<Id>) {
    exists m :: m in MatchesOfItem(t, i) && StateOfMatch(t, m) != NotStarted && Plays(t.matches[m], ids)
  }

  /** Why a change of the team count is refused, judged by the state the request read. */
  ghost function ResizeRefused(t: Tables, i: Id, count: int): Option<Error>
    requires i in t.stageItems
  {
    var item, fewer := t.stageItems[i], t.stageItems[i].teamCount - count;
    if fewer == 0 then None
    else if item.kind == SingleElimination && (count !in {2, 4, 8, 16, 32} || HasStarted(t, i)) then Some(Http(400))
    else if fewer < 0 then None
    else if fewer > |EmptyInputs(t, i)| then Some(Http(400))
    else if item.kind == SingleElimination then
      if PlayedIn(t.matches, RemovedInputs(t, i, fewer)) then Some(ForeignKeyViolation) else None
    else if StartedWith(t, i, RemovedInputs(t, i, fewer)) then Some(Http(400))
    else None
  }

  /** Fewer games would take a round in which a match has started. */
  ghost predicate TakesStarted(t: Tables, i: Id, body: ItemBody, skeletons: Skeletons)
    requires i in t.stageItems
  {
    exists keep: nat :: FewerRounds(t, i, body, skeletons, keep) && !AllIdle(t, Group(TrailingRounds(t, i, keep)))
  }

  /** Why an update is refused, in the order in which it fails. */
  ghost function WhyRefused(t: Tables, tournament: Id, i: Id, body: ItemBody, skeletons: Skeletons): Option<Error> {
    if HomeOf(t, i) != Some(tournament) then Some(Http(400)) else
      var item, found := t.stageItems[i], RankingIn(t, tournament, body.ranking);
      var switches := body.ranking != item.ranking && found.Some?;
      if switches && item.kind == SingleElimination && found.value.rules.numSets % 2 == 0 then Some(Http(422))
      else if switches && found.value.rules.numSets < 0 && MatchesOfItem(t, i) != {} then Some(CheckViolation)
      else if TakesStarted(t, i, body, skeletons) then Some(Http(400))
      else if ResizeRefused(t, i, body.teamCount).Some? then ResizeRefused(t, i, body.teamCount)
      else if body.ranking !in t.rankings then Some(ForeignKeyViolation)
      else None
  }

  // ---------------------------------------------------------------- step by step

  lemma RankingStep(t: Tables, tournament: Id, i: Id, ranking: Id)
    requires ProgressOk(t) && Tenancy(t) && BelongsTo(t, tournament, i)
    ensures var found := RankingIn(t, tournament, ranking);
            var refused := ranking != t.stageItems[i].ranking && found.Some? && found.value.rules.numSets < 0
                           && MatchesOfItem(t, i) != {};
            if refused then ResizeForRanking(t, tournament, i, ranking) == Err(CheckViolation)
            else ResizeForRanking(t, tournament, i, ranking).Ok?
  {
    hide TryResize, CountsFit, MatchesOfItem, ProgressOk;
    var found, was := RankingIn(t, tournament, ranking), NumSetsOfItem(t, i);
    var counts := Uniform(MatchesOfItem(t, i), was);
    ItemCounts(t, i);
    if found.Some? { ResizesExactly(t, counts, found.value.rules.numSets); }
  }

  lemma ItemCounts(t: Tables, i: Id)
    requires ProgressOk(t)
    ensures CountsFit(t, Uniform(MatchesOfItem(t, i), NumSetsOfItem(t, i)))
    ensures Uniform(MatchesOfItem(t, i), NumSetsOfItem(t, i)) == map[] <==> MatchesOfItem(t, i) == {}
    ensures NumSetsOfItem(t, i) < 0 ==> MatchesOfItem(t, i) == {}
  {
    hide NumSetsOfItem;
    ItemCountsFit(t, i);
    EmptyOrHasMember(MatchesOfItem(t, i));
    var counts := Uniform(MatchesOfItem(t, i), NumSetsOfItem(t, i));
    assert counts.Keys == MatchesOfItem(t, i);
    if m :| m in MatchesOfItem(t, i) { assert m in counts && Fits(t.matches[m].progress, counts[m]); }
  }

  /** Rounds of an item that is no bracket can always go, with their matches. */
  lemma {:induction false} RoundsGo(t: Tables, seen: Tables, i: Id, rounds: seq<Id>)
    requires forall m | m in t.matches :: !Feeds(t.matches[m], MatchesOfItem(seen, i))
    requires forall r | r in rounds :: r in RoundsOfItem(seen, i)
    requires forall r :: MatchesOfRounds(seen, {r}) == MatchesOfRounds(t, {r})
    requires seen.rounds == t.rounds
    ensures RoundsDeleted(t, seen, rounds).Ok?
  {
    if rounds != [] {
      hide DeletedOneByOne, DeleteRounds, MatchesOfRounds, RoundsOfItem, MatchesOfItem, Feeds;
      var n := |rounds| - 1;
      assert rounds == rounds[..n] + [rounds[n]];
      assert rounds[n] in rounds;
      RoundsGo(t, seen, i, rounds[..n]);
      RoundsDeletedLoses(t, seen, rounds[..n]);
      RoundGoes(t, RoundsDeleted(t, seen, rounds[..n]).value, seen, i, rounds[n]);
    }
  }

  lemma RoundGoes(t: Tables, s: Tables, seen: Tables, i: Id, r: Id)
    requires forall m | m in t.matches :: !Feeds(t.matches[m], MatchesOfItem(seen, i))
    requires forall m | m in s.matches :: m in t.matches && s.matches[m] == t.matches[m]
    requires r in RoundsOfItem(seen, i) && MatchesOfRounds(seen, {r}) == MatchesOfRounds(t, {r})
    ensures var d := DeletedOneByOne(s, Ids(MatchesOfRounds(seen, {r}))); d.Ok? && DeleteRounds(d.value, {r}).Ok?
  {
    hide Feeds, DeletedOneByOne;
    var ids := Ids(MatchesOfRounds(seen, {r}));
    GroupIs(ids, MatchesOfRounds(seen, {r}));
    RoundInItem(seen, i, r);
    OneByOneForm(s, ids, MatchesOfItem(seen, i));
    forall m | m in s.matches && s.matches[m].round == r ensures m in Group(ids) {
      assert m in MatchesOfRounds(t, {r});
    }
  }

  lemma RoundInItem(seen: Tables, i: Id, r: Id)
    requires r in RoundsOfItem(seen, i)
    ensures MatchesOfRounds(seen, {r}) <= MatchesOfItem(seen, i)
  {
  }

  /** The first step changes pointers and set rows only. */
  ghost predicate SamePlaces(t: Tables, t1: Tables) {
    && t1 == t.(matches := t1.matches, matchSets := t1.matchSets) && t1.matches.Keys == t.matches.Keys
    && forall m | m in t.matches :: t1.matches[m] == t.matches[m].(progress := t1.matches[m].progress)
  }

  lemma RankingKeepsPlaces(t: Tables, tournament: Id, i: Id, ranking: Id)
    requires i in t.stageItems && ResizeForRanking(t, tournament, i, ranking).Ok?
    ensures SamePlaces(t, ResizeForRanking(t, tournament, i, ranking).value)
  {
    hide BreaksCheck, ResizedSets;
  }

  lemma SameRoundMatches(t: Tables, t1: Tables)
    requires SamePlaces(t, t1)
    ensures forall r :: MatchesOfRounds(t, {r}) == MatchesOfRounds(t1, {r})
  {
    forall r ensures MatchesOfRounds(t, {r}) == MatchesOfRounds(t1, {r}) {
      forall m ensures m in MatchesOfRounds(t, {r}) <==> m in MatchesOfRounds(t1, {r}) {
        assert m in t.matches.Keys <==> m in t1.matches.Keys;
      }
    }
  }

  lemma NobodyFedHere(t: Tables, t1: Tables, i: Id)
    requires MatchesInside(t) && SamePlaces(t, t1) && i in t.stageItems && t.stageItems[i].kind != SingleElimination
    ensures forall m | m in t1.matches :: !Feeds(t1.matches[m], MatchesOfItem(t, i))
  {
    hide MatchesInside, Feeds, MatchesOfItem;
    forall m | m in t1.matches ensures !Feeds(t1.matches[m], MatchesOfItem(t, i)) {
      assert m in t.matches.Keys;
      SameFeeds(t.matches[m], t1.matches[m], MatchesOfItem(t, i));
      if Feeds(t.matches[m], MatchesOfItem(t, i)) { FedHere(t, i, m); }
    }
  }

  lemma SameFeeds(m: Match, m': Match, ids: set<Id>)
    requires m' == m.(progress := m'.progress)
    ensures Feeds(m', ids) <==> Feeds(m, ids)
  {
  }

  lemma FedHere(t: Tables, i: Id, m: Id)
    requires MatchesInside(t) && m in t.matches && Feeds(t.matches[m], MatchesOfItem(t, i))
    ensures i in t.stageItems && t.stageItems[i].kind == SingleElimination
  {
    assert MatchInside(t, t.matches[m]);
    FedInside(t, i, m);
  }

  lemma GamesStep(t: Tables, t1: Tables, i: Id, body: ItemBody, skeletons: Skeletons)
    requires MatchesInside(t) && SamePlaces(t, t1) && i in t.stageItems
    ensures var r := AdjustIfAsked(t1, t, i, body, skeletons);
            if TakesStarted(t, i, body, skeletons) then r == Err(Http(400)) else r.Ok?
  {
    hide MatchesInside, SkeletonRounds, RoundsDeleted, AllIdle, TrailingRounds, SamePlaces;
    var item := t.stageItems[i];
    if body.gamesPerPlayer.Some? && item.gamesPerPlayer.Some? {
      var keep := |skeletons(item.kind, item.teamCount, body.gamesPerPlayer.value)|;
      if FewerRounds(t, i, body, skeletons, keep) {
        assert !AllIdle(t, Group(TrailingRounds(t, i, keep))) ==> TakesStarted(t, i, body, skeletons);
        ReductionGoes(t, t1, i, keep);
      }
    }
  }

  lemma ReductionGoes(t: Tables, t1: Tables, i: Id, keep: nat)
    requires MatchesInside(t) && SamePlaces(t, t1) && i in t.stageItems && StandingsResolved(t.stageItems[i].kind)
    ensures RoundsDeleted(t1, t, TrailingRounds(t, i, keep)).Ok?
  {
    hide MatchesInside, RoundsDeleted, SamePlaces, MatchesOfRounds, RoundsOfItem, Feeds, MatchesOfItem;
    SameRoundMatches(t, t1);
    NobodyFedHere(t, t1, i);
    TrailingAreRounds(t, i, keep);
    assert t.rounds == t1.rounds by { SameRoundsTable(t, t1); }
    RoundsGo(t1, t, i, TrailingRounds(t, i, keep));
  }

  lemma SameRoundsTable(t: Tables, t1: Tables)
    requires SamePlaces(t, t1)
    ensures t1.rounds == t.rounds
  {
  }

  lemma TrailingAreRounds(t: Tables, i: Id, keep: nat)
    ensures forall r | r in TrailingRounds(t, i, keep) :: r in RoundsOfItem(t, i)
  {
    var order := Ids(RoundsOfItem(t, i));
    forall r | r in order[Min(keep, |order|)..] ensures r in order {}
  }

  lemma StartedAreSome(t: Tables, i: Id)
    ensures StartedMatches(t, i) != {} <==> HasStarted(t, i)
  {
    EmptyOrHasMember(StartedMatches(t, i));
    if m :| m in MatchesOfItem(t, i) && StateOfMatch(t, m) != NotStarted { assert m in StartedMatches(t, i); }
  }

  lemma ShrinkBlocked(t: Tables, i: Id, k: nat)
    ensures CanShrink(t, i, k) <==> k <= |EmptyInputs(t, i)| && !StartedWith(t, i, RemovedInputs(t, i, k))
  {
    hide EmptyInputs, RemovedInputs, StateOfMatch, Plays;
    forall m ensures m in StartedMatches(t, i) <==> m in MatchesOfItem(t, i) && StateOfMatch(t, m) != NotStarted {}
  }

  lemma SamePlayed(t: Tables, s: Tables, ids: set<Id>)
    requires SamePlaces(t, s)
    ensures PlayedIn(s.matches, ids) <==> PlayedIn(t.matches, ids)
  {
    forall m | m in t.matches ensures m in s.matches && (Plays(s.matches[m], ids) <==> Plays(t.matches[m], ids)) {
      assert m in t.matches.Keys;
    }
    forall m | m in s.matches ensures m in t.matches { assert m in s.matches.Keys; }
  }

  lemma BracketStep(t: Tables, s: Tables, tournament: Id, i: Id, count: int)
    requires Midway(t, s, i) && SamePlaces(t, s) && t.stageItems[i].kind == SingleElimination
    requires tournament in s.tournaments && i in s.stageItems && count >= 2
    ensures var refused := ResizeRefused(t, i, count);
            if refused.Some? then ResizeIfNeeded(s, t, tournament, i, count) == Err(refused.value)
            else ResizeIfNeeded(s, t, tournament, i, count).Ok?
  {
    hide Intact, LosesOnlyIdle, NewAreOpen, BracketApart, PlayedIn, RemovedInputs, EmptyInputs, StartedMatches,
      HasStarted, SamePlaces, MatchesOfItem, RoundsOfItem, Reslotted, WithoutBracket;
    var was := t.stageItems[i].teamCount;
    MatchesInsideOf(s);
    ApartInside(s, i);
    StartedAreSome(t, i);
    if count < was && BracketRounds(count).Some? {
      BracketShrinkOutcome(s, t, tournament, i, count);
      SamePlayed(t, s, RemovedInputs(t, i, was - count));
    } else if count > was {
      BracketGrowOutcome(s, t, tournament, i, count);
    }
  }

  lemma MatchesInsideOf(t: Tables)
    requires Intact(t)
    ensures MatchesInside(t)
  {
  }

  lemma SlotsStep(t: Tables, s: Tables, tournament: Id, i: Id, count: int)
    requires Midway(t, s, i) && t.stageItems[i].kind != SingleElimination
    requires tournament in s.tournaments && i in s.stageItems
    ensures var refused := ResizeRefused(t, i, count);
            if refused.Some? then ResizeIfNeeded(s, t, tournament, i, count) == Err(refused.value)
            else ResizeIfNeeded(s, t, tournament, i, count).Ok?
  {
    hide Intact, LosesOnlyIdle, NewAreOpen, Carried, RemovedInputs, EmptyInputs, StartedWith, CanShrink, ShrunkTables,
      InvolvedMatches, BlockingSlots, Shrunk, Appended, HasStarted, PlayedIn;
    var was := t.stageItems[i].teamCount;
    if count < was {
      CarriedMidway(t, s, i);
      ShrinkOutcome(s, t, tournament, i, count);
      ShrinkBlocked(t, i, was - count);
    }
  }

  // ---------------------------------------------------------------- the update

  lemma HomeIsBelonging(t: Tables, tournament: Id, i: Id)
    ensures BelongsTo(t, tournament, i) <==> HomeOf(t, i) == Some(tournament)
  {
  }

  lemma HomeExists(t: Tables, tournament: Id, i: Id)
    requires Intact(t) && BelongsTo(t, tournament, i)
    ensures tournament in t.tournaments && i in t.stageItems && MatchesInside(t)
  {
    hide LevelsRefer, StageItemsRefer, InputsRefer, RoundsRefer, MatchesRefer, TeamsRefer, PlayersRefer,
      MembershipsRefer, CourtsRefer, RankingsRefer, RankingPointsRefer, Local, UniqueTeams, UniqueSources,
      MatchesInside;
  }

  lemma StepsOutcome(t: Tables, tournament: Id, i: Id, body: ItemBody, skeletons: Skeletons)
    requires Intact(t) && ProgressOk(t) && Tenancy(t) && BelongsTo(t, tournament, i)
    requires UpdateRefused(t, tournament, i, body).None?
    ensures var refused := WhyRefused(t, tournament, i, body, skeletons);
            if refused.Some? then BeforeComplete(t, tournament, i, body, skeletons) == Err(refused.value)
            else BeforeComplete(t, tournament, i, body, skeletons).Ok?
  {
    hide Intact, ProgressOk, Tenancy, ResizeForRanking, AdjustIfAsked, ResizeIfNeeded, TakesStarted, ResizeRefused,
      SamePlaces, MatchesOfItem, UpdateRow;
    HomeIsBelonging(t, tournament, i);
    RankingStep(t, tournament, i, body.ranking);
    if ResizeForRanking(t, tournament, i, body.ranking).Ok? {
      LaterSteps(t, tournament, i, body, skeletons);
    }
  }

  lemma LaterSteps(t: Tables, tournament: Id, i: Id, body: ItemBody, skeletons: Skeletons)
    requires Intact(t) && BelongsTo(t, tournament, i) && ResizeForRanking(t, tournament, i, body.ranking).Ok?
    ensures var t1 := ResizeForRanking(t, tournament, i, body.ranking).value;
            var r := AdjustIfAsked(t1, t, i, body, skeletons);
            if TakesStarted(t, i, body, skeletons) then r == Err(Http(400))
            else
              && r.Ok?
              && var s, refused := ResizeIfNeeded(r.value, t, tournament, i, body.teamCount),
                   ResizeRefused(t, i, body.teamCount);
                 if refused.Some? then s == Err(refused.value)
                 else s.Ok? && if body.ranking in t.rankings then UpdateRow(s.value, i, body).Ok?
                               else UpdateRow(s.value, i, body) == Err(ForeignKeyViolation)
  {
    hide Intact, ResizeForRanking, AdjustIfAsked, ResizeIfNeeded, TakesStarted, ResizeRefused, SamePlaces, Midway,
      BelongsTo;
    HomeExists(t, tournament, i);
    var t1 := ResizeForRanking(t, tournament, i, body.ranking).value;
    RankingKeepsPlaces(t, tournament, i, body.ranking);
    ResizeForRankingFrame(t, tournament, i, body.ranking);
    GamesStep(t, t1, i, body, skeletons);
    if AdjustIfAsked(t1, t, i, body, skeletons).Ok? {
      var t2 := AdjustIfAsked(t1, t, i, body, skeletons).value;
      AdjustFrame(t1, t, i, body, skeletons);
      MidwayHolds(t, tournament, i, body, skeletons);
      CountStep(t, t1, t2, tournament, i, body, skeletons);
      if ResizeIfNeeded(t2, t, tournament, i, body.teamCount).Ok? {
        ResizeIfNeededFrame(t2, t, tournament, i, body.teamCount);
      }
    }
  }

  lemma CountStep(t: Tables, t1: Tables, t2: Tables, tournament: Id, i: Id, body: ItemBody, skeletons: Skeletons)
    requires SamePlaces(t, t1) && i in t.stageItems && AdjustIfAsked(t1, t, i, body, skeletons) == Ok(t2)
    requires Midway(t, t2, i) && tournament in t2.tournaments && i in t2.stageItems
    ensures var refused := ResizeRefused(t, i, body.teamCount);
            if refused.Some? then ResizeIfNeeded(t2, t, tournament, i, body.teamCount) == Err(refused.value)
            else ResizeIfNeeded(t2, t, tournament, i, body.teamCount).Ok?
  {
    hide SamePlaces, Midway, ResizeRefused, ResizeIfNeeded;
    if t.stageItems[i].kind == SingleElimination {
      BracketsHaveNoGames(t1, t, i, body, skeletons);
      BracketStep(t, t2, tournament, i, body.teamCount);
    } else {
      SlotsStep(t, t2, tournament, i, body.teamCount);
    }
  }

  /** An update of a healthy database goes through exactly when nothing refuses it, and else ends with that error. */
  lemma UpdateOutcome(t: Tables, tournament: Id, i: Id, body: ItemBody, skeletons: Skeletons)
    requires Intact(t) && ProgressOk(t) && Tenancy(t) && SlotsOk(t) && PositionsOk(t) && Sequenced(t)
    ensures var refused := WhyRefused(t, tournament, i, body, skeletons);
            if refused.Some? then UpdateStageItem(t, tournament, i, body, skeletons) == Err(refused.value)
            else UpdateStageItem(t, tournament, i, body, skeletons).Ok?
  {
    hide Intact, ProgressOk, Tenancy, SlotsAre, PositionsWithin, Sequenced, BeforeComplete, Complete, TakesStarted,
      ResizeRefused, MatchesOfItem;
    HomeIsBelonging(t, tournament, i);
    if UpdateRefused(t, tournament, i, body).None? {
      StepsOutcome(t, tournament, i, body, skeletons);
      if BeforeComplete(t, tournament, i, body, skeletons).Ok? {
        CompletionNeverFails(t, tournament, i, body, skeletons);
      }
    }
  }

  // ---------------------------------------------------------------- what an update leaves of the sets

  /** Matches that stay have the sets and the pointer they had; those that come have new ids. */
  ghost predicate SetsKept(t: Tables, t': Tables) {
    && t.nextId <= t'.nextId
    && (forall m | m in t'.matches && m !in t.matches :: t.nextId <= m)
    && forall m | m in t.matches && m in t'.matches ::
         RowsOf(t', m) == RowsOf(t, m) && t'.matches[m].progress == t.matches[m].progress
  }

  lemma SetsKeptTwice(t: Tables, s: Tables, t': Tables)
    requires SetsKept(t, s) && SetsKept(s, t') && Sequenced(t)
    ensures SetsKept(t, t')
  {
    hide RowsOf;
  }

  lemma ExtendedKeepsSets(t: Tables, t': Tables, i: Id)
    requires Extended(t, t', i)
    ensures SetsKept(t, t')
  {
    hide RowsAre, NumSetsOfItem, MatchesOfItem, RowsOf;
  }

  lemma ThinnerKeepsSets(t: Tables, t': Tables, known: set<Id>)
    requires Thinner(t, t', known)
    ensures SetsKept(t, t')
  {
    hide RowsOf;
  }

  lemma SameKeepsSets(t: Tables, t': Tables)
    requires t'.matches == t.matches && t'.matchSets == t.matchSets && t.nextId <= t'.nextId
    ensures SetsKept(t, t')
  {
  }

  lemma AdjustKeepsSets(t: Tables, seen: Tables, i: Id, body: ItemBody, skeletons: Skeletons)
    requires ChainRefers(t) && Sequenced(t) && i in seen.stageItems && AdjustIfAsked(t, seen, i, body, skeletons).Ok?
    ensures SetsKept(t, AdjustIfAsked(t, seen, i, body, skeletons).value)
  {
    hide ChainRefers, SkeletonRounds, RoundsDeleted, AllIdle, TrailingRounds, Extended, Thinner, SetsKept, Sequenced;
    SameKeepsSets(t, t);
    if body.gamesPerPlayer.Some? && seen.stageItems[i].gamesPerPlayer.Some? {
      var item, games := seen.stageItems[i], body.gamesPerPlayer.value;
      var was := skeletons(item.kind, item.teamCount, item.gamesPerPlayer.value);
      var now := skeletons(item.kind, item.teamCount, games);
      if |now| > |was| {
        SkeletonRoundsExtend(t, i, now[|was|..]);
        ExtendedKeepsSets(t, SkeletonRounds(t, i, now[|was|..]), i);
      } else if RoundsDeleted(t, seen, TrailingRounds(seen, i, |now|)).Ok? {
        RoundsDeletedThins(t, seen, TrailingRounds(seen, i, |now|));
        ThinnerKeepsSets(t, RoundsDeleted(t, seen, TrailingRounds(seen, i, |now|)).value, seen.matches.Keys);
      }
    }
  }

  /** From the second step on no set row and no pointer of a match that stays changes. */
  lemma LaterStepsKeepSets(t: Tables, tournament: Id, i: Id, body: ItemBody, skeletons: Skeletons)
    requires Intact(t) && Sequenced(t) && UpdateStageItem(t, tournament, i, body, skeletons).Ok?
    ensures i in t.stageItems && ResizeForRanking(t, tournament, i, body.ranking).Ok?
    ensures SetsKept(ResizeForRanking(t, tournament, i, body.ranking).value,
                     UpdateStageItem(t, tournament, i, body, skeletons).value)
  {
    hide Intact, ResizeForRanking, AdjustIfAsked, ResizeIfNeeded, Complete, SetsKept, Midway, Extended, Thinner,
      Sequenced, UpdateRow, ChainRefers;
    var t1 := ResizeForRanking(t, tournament, i, body.ranking).value;
    var t2 := AdjustIfAsked(t1, t, i, body, skeletons).value;
    var t3 := ResizeIfNeeded(t2, t, tournament, i, body.teamCount).value;
    var t4 := UpdateRow(t3, i, body).value;
    var t' := UpdateStageItem(t, tournament, i, body, skeletons).value;
    ResizeForRankingIntact(t, tournament, i, body.ranking);
    IntactRefers(t1);
    IntactIsSequenced(t1);
    MidwayHolds(t, tournament, i, body, skeletons);
    MidwayParts(t, t2, i);
    AdjustKeepsSets(t1, t, i, body, skeletons);
    ResizeIfNeededThins(t2, t, tournament, i, body.teamCount);
    ThinnerKeepsSets(t2, t3, t.matches.Keys);
    RowKeepsSets(t3, i, body);
    BeforeCompleteFrame(t, tournament, i, body, skeletons);
    CompleteExtends(t4, t, i, body.teamCount);
    ExtendedKeepsSets(t4, t', i);
    SetsKeptTwice(t1, t2, t3);
    SetsKeptTwice(t1, t3, t4);
    SetsKeptTwice(t1, t4, t');
  }

  lemma MidwayParts(t: Tables, s: Tables, i: Id)
    requires Midway(t, s, i)
    ensures ChainRefers(s)
    ensures t.stageItems[i].kind == SingleElimination ==> s.matches.Keys <= t.matches.Keys
  {
    hide Intact, LosesOnlyIdle, NewAreOpen;
    IntactRefers(s);
  }

  lemma RowKeepsSets(t: Tables, i: Id, body: ItemBody)
    requires UpdateRow(t, i, body).Ok?
    ensures SetsKept(t, UpdateRow(t, i, body).value)
  {
  }

  /** The first step resizes the sets of the item's matches to those of the new ranking, if the program finds it in the
      tournament, and no others. */
  lemma FirstStepResizes(t: Tables, tournament: Id, i: Id, ranking: Id, m: Id)
    requires ProgressOk(t) && Tenancy(t) && BelongsTo(t, tournament, i) && m in t.matches
    requires ResizeForRanking(t, tournament, i, ranking).Ok?
    ensures var t1 := ResizeForRanking(t, tournament, i, ranking).value;
            if m in MatchesOfItem(t, i) then MatchResized(t, t1, m, ResizedTo(t, tournament, i, ranking))
            else MatchUntouched(t, t1, m)
  {
    hide TryResize, CountsFit, MatchesOfItem, AllSetsFit, ChainRefers, MatchResized, MatchUntouched;
    var found, was := RankingIn(t, tournament, ranking), NumSetsOfItem(t, i);
    ItemCounts(t, i);
    Untouched(t, m);
    MatchOfItemFits(t, i, m);
    if found.Some? { ResizesExactly(t, Uniform(MatchesOfItem(t, i), was), found.value.rules.numSets); }
  }

  lemma Untouched(t: Tables, m: Id)
    requires m in t.matches
    ensures MatchUntouched(t, t, m)
  {
  }

  lemma MatchOfItemFits(t: Tables, i: Id, m: Id)
    requires ProgressOk(t) && m in t.matches
    ensures m in MatchesOfItem(t, i) ==> MatchResized(t, t, m, NumSetsOfItem(t, i))
  {
    assert SetsFit(t, m);
    if m in MatchesOfItem(t, i) {
      RoundAsks(t, t.matches[m].round);
      AlreadyResized(t, t, m, NumSetsOfItem(t, i));
    }
  }

  /** Whatever an update changes, a match that stays keeps the scores and states of its sets: matches of the item are
      resized to the sets of the new ranking, matches of other items keep all. */
  lemma UpdateKeepsSets(t: Tables, tournament: Id, i: Id, body: ItemBody, skeletons: Skeletons, m: Id)
    requires Intact(t) && ProgressOk(t) && Tenancy(t) && Sequenced(t)
    requires UpdateStageItem(t, tournament, i, body, skeletons).Ok?
    requires m in t.matches && m in UpdateStageItem(t, tournament, i, body, skeletons).value.matches
    ensures var t' := UpdateStageItem(t, tournament, i, body, skeletons).value;
            if m in MatchesOfItem(t, i) then SetsResized(t, t', m, ResizedTo(t, tournament, i, body.ranking))
            else RowsOf(t', m) == RowsOf(t, m) && t'.matches[m].progress == t.matches[m].progress
  {
    hide Intact, UpdateTransaction, ResizeForRanking, ProgressOk, Tenancy, Sequenced, MatchesOfItem, ResizedTo;
    UpdateFrame(t, tournament, i, body, skeletons);
    LaterStepsKeepSets(t, tournament, i, body, skeletons);
    FirstStepResizes(t, tournament, i, body.ranking, m);
  }

  // ---------------------------------------------------------------- a creation

  /** Why a creation fails, in the order in which it does; the last check comes after the item is stored. */
  ghost function WhyNotCreated(t: Tables, tournament: Id, body: NewItemBody): Option<Error> {
    if body.stage !in t.stages || t.stages[body.stage].tournament != tournament then Some(Http(400))
    else if body.ranking.None? && RankingsOf(t, tournament) == {} then Some(Http(500))
    else
      var chosen := if body.ranking.Some? then body.ranking.value else DefaultRanking(t, tournament).value;
      if body.kind == SingleElimination && RankingIn(t, tournament, chosen).Some?
         && t.rankings[chosen].rules.numSets % 2 == 0 then Some(Http(422))
      else if chosen !in t.rankings then Some(ForeignKeyViolation)
      else if body.kind == SingleElimination && body.teamCount !in {2, 4, 8, 16, 32} then Some(Http(400))
      else None
  }

  /** A creation of a bracket or of any other item ends with that error, or with none. */
  lemma CreationOutcome(t: Tables, tournament: Id, body: NewItemBody, skeletons: Skeletons)
    requires Intact(t) && IdsBelowSequence(t)
    ensures CreateStageItem(t, tournament, body, skeletons).error == WhyNotCreated(t, tournament, body)
  {
    hide Intact, BuildItem, SlotsAre, Extended, ForeignKeys, IdsBelowSequence, BareItem, DefaultRanking, RankingsOf,
      InputsOfItem, RoundsOfItem, MatchesOfItem;
    IntactForeignKeys(t);
    HasRanking(t, tournament);
    if CreationRefused(t, tournament, body).None? {
      BareReady(t, tournament, body);
      BuildItemExtends(BareItem(t, tournament, body), t.nextId, body, skeletons);
    }
  }

  lemma BareReady(t: Tables, tournament: Id, body: NewItemBody)
    requires Intact(t) && CreationRefused(t, tournament, body).None?
    ensures var bare, i := BareItem(t, tournament, body), t.nextId;
            && IdsBelowSequence(bare) && Sequenced(bare) && i in bare.stageItems && SlotsAre(bare, i, body.teamCount)
            && |InputsOfItem(bare, i)| == body.teamCount && RoundsOfItem(bare, i) == {} && MatchesOfItem(bare, i) == {}
            && forall m | m in bare.matches :: bare.matches[m].round in bare.rounds
  {
    hide Intact, SlotsAre, ForeignKeys, IdsBelowSequence, BareItem, ChosenRanking, InputsOfItem, RoundsOfItem,
      MatchesOfItem, Sequenced;
    IntactForeignKeys(t);
    BareItemIsBare(t, tournament, body);
    BareItemHasInputs(t, tournament, body);
    BareItemIntact(t, tournament, body);
    IntactIsSequenced(BareItem(t, tournament, body));
  }

  predicate AsAsked(item: StageItem, body: NewItemBody) {
    && item.stage == body.stage && item.kind == body.kind && item.teamCount == body.teamCount
    && item.gamesPerPlayer == body.gamesPerPlayer && item.name == body.name
  }

  /** The item as asked, under the ranking that was named or the first of the tournament; all that was there before is
      as it was. */
  ghost predicate ItemStored(t: Tables, t': Tables, tournament: Id, body: NewItemBody) {
    && t' == t.(stageItems := t'.stageItems, inputs := t'.inputs, rounds := t'.rounds, matches := t'.matches,
                matchSets := t'.matchSets, nextId := t'.nextId)
    && t'.stageItems.Keys == t.stageItems.Keys + {t.nextId}
    && (forall i | i in t.stageItems && i != t.nextId :: t'.stageItems[i] == t.stageItems[i])
    && AsAsked(t'.stageItems[t.nextId], body)
    && Some(t'.stageItems[t.nextId].ranking)
       == (if body.ranking.Some? then body.ranking else DefaultRanking(t, tournament))
    && (forall x | x in t.inputs :: x in t'.inputs && t'.inputs[x] == t.inputs[x])
    && (forall r | r in t.rounds :: r in t'.rounds && t'.rounds[r] == t.rounds[r])
    && (forall m | m in t.matches ::
          m in t'.matches && t'.matches[m] == t.matches[m] && RowsOf(t', m) == RowsOf(t, m))
  }

  /** Refused before its first write a creation has stored nothing; else the item is there, also where building it
      failed. */
  lemma CreationStores(t: Tables, tournament: Id, body: NewItemBody, skeletons: Skeletons)
    requires Intact(t) && IdsBelowSequence(t)
    ensures var t' := CreateStageItem(t, tournament, body, skeletons).after;
            if CreationRefused(t, tournament, body).Some? then t' == t else ItemStored(t, t', tournament, body)
  {
    hide Intact, BuildItem, SlotsAre, Extended, ForeignKeys, IdsBelowSequence, BareItem, DefaultRanking, ItemStored,
      OthersKept, TracksLess, PositionsWithin, InputsOfItem, EmptyInputs, RoundsOfItem, MatchesOfItem, Sequenced,
      CreatesMatch, RowsOf;
    if CreationRefused(t, tournament, body).None? {
      var bare, t' := BareItem(t, tournament, body), CreateStageItem(t, tournament, body, skeletons).after;
      IntactForeignKeys(t);
      BareReady(t, tournament, body);
      BareItemIsBare(t, tournament, body);
      BareItemInputs(t, tournament, body);
      BareRow(t, tournament, body);
      BuildItemExtends(bare, t.nextId, body, skeletons);
      OldStay(t, bare, t', t.nextId);
      StoredIn(t, t', tournament, body);
    }
  }

  lemma StoredIn(t: Tables, t': Tables, tournament: Id, body: NewItemBody)
    requires ChosenRanking(t, tournament, body).Some?
    requires t'.stageItems
          == t.stageItems[t.nextId := StageItem(body.stage, body.kind, body.teamCount,
                                                ChosenRanking(t, tournament, body).value, body.gamesPerPlayer,
                                                body.name)]
    requires t' == t.(stageItems := t'.stageItems, inputs := t'.inputs, rounds := t'.rounds, matches := t'.matches,
                      matchSets := t'.matchSets, nextId := t'.nextId)
    requires forall x | x in t.inputs :: x in t'.inputs && t'.inputs[x] == t.inputs[x]
    requires forall r | r in t.rounds :: r in t'.rounds && t'.rounds[r] == t.rounds[r]
    requires forall m | m in t.matches ::
               m in t'.matches && t'.matches[m] == t.matches[m] && RowsOf(t', m) == RowsOf(t, m)
    ensures ItemStored(t, t', tournament, body)
  {
    hide DefaultRanking, RowsOf;
  }

  lemma HasRanking(t: Tables, tournament: Id)
    ensures DefaultRanking(t, tournament).None? <==> RankingsOf(t, tournament) == {}
    ensures DefaultRanking(t, tournament).Some? ==> RankingIn(t, tournament, DefaultRanking(t, tournament).value).Some?
  {
  }

  lemma OldStay(t: Tables, bare: Tables, t': Tables, i: Id)
    requires bare == t.(stageItems := bare.stageItems, inputs := bare.inputs, nextId := bare.nextId)
    requires t' == bare || Extended(bare, t', i)
    ensures t' == t.(stageItems := bare.stageItems, inputs := bare.inputs, rounds := t'.rounds, matches := t'.matches,
                     matchSets := t'.matchSets, nextId := t'.nextId)
    ensures forall r | r in t.rounds :: r in t'.rounds && t'.rounds[r] == t.rounds[r]
    ensures forall m | m in t.matches ::
              m in t'.matches && t'.matches[m] == t.matches[m] && RowsOf(t', m) == RowsOf(t, m)
  {
    hide RowsAre, NumSetsOfItem, MatchesOfItem;
    if t' == bare { forall m | m in t.matches ensures RowsOf(t', m) == RowsOf(t, m) {} }
  }
}
