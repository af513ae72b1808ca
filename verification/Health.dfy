/** What holds of the whole database between requests, and how deletions, changes of rankings, progress and applied
    plans keep it. */
module Health {
  import opened Schema
  import opened Progress
  import opened MatchSets
  import opened SetResize
  import opened Rankings
  import opened Deletion
  import opened StageItemResize
  import opened Layout
  import opened ItemLayout

  /** Every match has the set rows and the pointer its ranking asks for; no bracket plays an even number of sets;
      rankings stay in their tournament; every reference of the schema resolves and stays in its tournament, teams and
      tracked positions are unique per item and matches stay inside their items; slots are 1..team_count and nobody
      tracks a position beyond it. */
  ghost predicate Healthy(t: Tables) {
    ProgressOk(t) && ParityOk(t) && Tenancy(t) && Intact(t) && SlotsOk(t) && PositionsOk(t)
  }

  // ---------------------------------------------------------------- slots and positions

  /** Items may go, with their inputs; items and inputs that stay keep size, slots and what they track, or track
      nothing. */
  ghost predicate LayoutKept(t: Tables, t': Tables) {
    && t.nextId <= t'.nextId
    && (forall i | i in t'.stageItems :: i in t.stageItems && t'.stageItems[i].teamCount == t.stageItems[i].teamCount)
    && (forall x | x in t'.inputs :: x in t.inputs && SameSlot(t.inputs[x], t'.inputs[x]))
    && (forall x | x in t.inputs && t.inputs[x].stageItem in t'.stageItems :: x in t'.inputs)
  }

  predicate SameSlot(row: Input, row': Input) {
    && row'.stageItem == row.stageItem && row'.slot == row.slot
    && (row'.winnerFrom.Some? ==> row'.winnerFrom == row.winnerFrom && row'.winnerPosition == row.winnerPosition)
  }

  lemma KeepsLayout(t: Tables, t': Tables)
    requires LayoutKept(t, t')
    ensures SlotsOk(t) ==> SlotsOk(t')
    ensures PositionsOk(t) ==> PositionsOk(t')
    ensures OrderKept(t, t')
  {
    hide SlotsAre, PositionsWithin, KeepsOrder;
    forall i | i in t'.stageItems
      ensures SlotsAre(t, i, t.stageItems[i].teamCount) ==> SlotsAre(t', i, t'.stageItems[i].teamCount)
      ensures PositionsWithin(t, i, t.stageItems[i].teamCount) ==> PositionsWithin(t', i, t'.stageItems[i].teamCount)
      ensures KeepsOrder(t, t', i)
    {
      ItemKeepsLayout(t, t', i);
    }
  }

  lemma ItemKeepsLayout(t: Tables, t': Tables, i: Id)
    requires LayoutKept(t, t') && i in t'.stageItems
    ensures i in t.stageItems && KeepsOrder(t, t', i)
    ensures SlotsAre(t, i, t.stageItems[i].teamCount) ==> SlotsAre(t', i, t'.stageItems[i].teamCount)
    ensures PositionsWithin(t, i, t.stageItems[i].teamCount) ==> PositionsWithin(t', i, t'.stageItems[i].teamCount)
  {
    forall x ensures x in InputsOfItem(t', i) <==> x in InputsOfItem(t, i) {
      if x in t'.inputs { assert x in t.inputs; }
    }
    assert InputsOfItem(t', i) == InputsOfItem(t, i);
  }

  // ---------------------------------------------------------------- progress

  lemma ProgressKeepsHealth(t: Tables, t': Tables)
    requires Healthy(t) && MatchesThinned(t, t') && ProgressOk(t')
    ensures Healthy(t') && OrderKept(t, t')
  {
    hide Intact, ProgressOk, ParityOk, Tenancy, SlotsOk, PositionsOk, LayoutKept, OrderKept;
    MatchesThinnedIntact(t, t');
    SameTenancy(t, t');
    SameItemsAndInputs(t, t');
    KeepsLayout(t, t');
  }

  lemma SameItemsAndInputs(t: Tables, t': Tables)
    requires t'.inputs == t.inputs && t.nextId <= t'.nextId
    requires forall i | i in t'.stageItems ::
               i in t.stageItems && t'.stageItems[i].teamCount == t.stageItems[i].teamCount
    ensures LayoutKept(t, t')
  {
  }

  /** The five progress writes. */
  function ProgressOutcomes(t: Tables, m: Id, k: int, score: Score): seq<Result<Tables>> {
    [StartMatch(t, m), EndMatch(t, m), ReopenMatch(t, m), ResetMatch(t, m), EditScore(t, m, k, score)]
  }

  lemma StepsKeepHealth(t: Tables, m: Id, k: int, score: Score)
    requires Healthy(t)
    ensures forall r | r in ProgressOutcomes(t, m, k, score) ::
              r.Ok? ==> Healthy(r.value) && OrderKept(t, r.value)
  {
    hide Healthy, StartMatch, EndMatch, ReopenMatch, ResetMatch, EditScore, OrderKept;
    StepsThin(t, m, k, score);
    HealthParts(t);
    StepsKeepProgressOk(t, m, k, score);
    forall r | r in ProgressOutcomes(t, m, k, score) && r.Ok?
      ensures Healthy(r.value) && OrderKept(t, r.value)
    {
      hide MatchesThinned;
      ProgressKeepsHealth(t, r.value);
    }
  }

  lemma HealthParts(t: Tables)
    requires Healthy(t)
    ensures ProgressOk(t) && ParityOk(t) && Tenancy(t) && Intact(t) && SlotsOk(t) && PositionsOk(t)
    ensures ForeignKeys(t) && IdsBelowSequence(t) && MatchesInside(t) && UniqueTeams(t.inputs)
  {
  }

  lemma IsHealthy(t: Tables)
    requires ProgressOk(t) && ParityOk(t) && Tenancy(t) && Intact(t) && SlotsOk(t) && PositionsOk(t)
    ensures Healthy(t)
  {
  }

  lemma StepsThin(t: Tables, m: Id, k: int, score: Score)
    requires Healthy(t)
    ensures forall r | r in ProgressOutcomes(t, m, k, score) ::
              r.Ok? ==> MatchesThinned(t, r.value)
  {
    hide Start, End, Reopen, IsDecided, PlayAllSetsOf, MatchesThinned, Healthy, Zeroed;
    HealthParts(t);
    if m in t.matches {
      forall p ensures MatchesThinned(t, SetProgress(t, m, p)) {
        RowThins(t, t.matches[m].(progress := p), m, t.matchSets);
      }
      RowThins(t, t.matches[m].(progress := RESET, completedAt := None), m, t.matchSets[m := Zeroed(RowsOf(t, m))]);
      RowThins(t, t.matches[m], m, t.matchSets[m := RowsOf(t, m)[k := score]]);
      assert t.matches[m := t.matches[m]] == t.matches;
    }
  }

  lemma RowThins(t: Tables, row: Match, m: Id, sets: map<Id, Rows>)
    requires Intact(t) && m in t.matches && SameReferences(t.matches[m], row) && sets.Keys <= t.matches.Keys
    ensures MatchesThinned(t, t.(matches := t.matches[m := row], matchSets := sets))
  {
    hide Intact;
    IntactRefers(t);
    forall x | x in t.matches
      ensures Refers(t.matches[x].winnerFrom1, t.matches.Keys) && Refers(t.matches[x].winnerFrom2, t.matches.Keys)
    {
      assert MatchRefers(t.matches[x], t.rounds.Keys, t.inputs.Keys, t.matches.Keys, t.courts.Keys);
    }
  }

  // ---------------------------------------------------------------- rankings

  lemma RankingRowIntact(t: Tables, r: Id, row: Ranking)
    requires Intact(t) && r in t.rankings
    requires row.tournament == t.rankings[r].tournament && row.level == t.rankings[r].level
    ensures Intact(t.(rankings := t.rankings[r := row]))
  {
    var t' := t.(rankings := t.rankings[r := row]);
    assert t'.rankings.Keys == t.rankings.Keys;
    hide InputsRefer, RoundsRefer, MatchesRefer, LevelsRefer, StagesRefer, TeamsRefer, PlayersRefer, MembershipsRefer,
      CourtsRefer, UniqueTeams, UniqueSources, Local;
    SameInside(t, t');
    GroundLocal(t, t');
  }

  lemma RankingMatchesKnown(t: Tables, r: Id, n: int)
    ensures Uniform(MatchesOfRanking(t, r), n).Keys <= t.matches.Keys
  {
  }

  lemma EditKeepsHealth(t: Tables, tournament: Id, r: Id, body: RankingBody, force: bool)
    requires Healthy(t) && UpdateRanking(t, tournament, r, body, force).Ok?
    ensures var t' := UpdateRanking(t, tournament, r, body, force).value; Healthy(t') && OrderKept(t, t')
  {
    hide Intact, ProgressOk, ParityOk, Tenancy, SlotsOk, PositionsOk, LayoutKept, OrderKept, UpdateRanking, Resized,
      BreaksCheck, MatchesOfRanking, HasActiveSets;
    UpdateRankingKeeps(t, tournament, r, body, force);
    UpdateRankingKeepsParity(t, tournament, r, body, force);
    UpdateRankingFrame(t, tournament, r, body, force);
    UpdateRankingResizes(t, tournament, r, body, force);
    var rules, was := NormaliseRules(body.rules).value, t.rankings[r].rules.numSets;
    var edited, t' := WithRules(t, r, body, rules), UpdateRanking(t, tournament, r, body, force).value;
    RankingRowIntact(t, r, edited.rankings[r]);
    RankingMatchesKnown(t, r, was);
    if rules.numSets != was { ResizedIntact(edited, Uniform(MatchesOfRanking(t, r), was), rules.numSets); }
    SameItemsAndInputs(t, t');
    KeepsLayout(t, t');
  }

  lemma NewRankingIntact(t: Tables, row: Ranking)
    requires Intact(t) && row.tournament in t.tournaments && row.level.None?
    ensures Intact(WithRanking(t, row))
  {
    var t' := WithRanking(t, row);
    hide InputsRefer, RoundsRefer, MatchesRefer, LevelsRefer, StagesRefer, TeamsRefer, PlayersRefer, MembershipsRefer,
      CourtsRefer, UniqueTeams, UniqueSources, Local;
    SameInside(t, t');
    GroundLocal(t, t');
  }

  lemma CreationKeepsHealth(t: Tables, tournament: Id, body: RankingBody)
    requires Healthy(t) && CreateRanking(t, tournament, body).Ok?
    ensures var t' := CreateRanking(t, tournament, body).value; Healthy(t') && OrderKept(t, t')
  {
    hide Intact, ProgressOk, ParityOk, Tenancy, SlotsOk, PositionsOk, LayoutKept, OrderKept, NextPosition;
    CreateRankingKeeps(t, tournament, body);
    var position, rules := NextPosition(t.rankings, tournament), NormaliseRules(body.rules).value;
    NewRankingIntact(t, Ranking(tournament, None, position, rules));
    var t' := CreateRanking(t, tournament, body).value;
    SameItemsAndInputs(t, t');
    KeepsLayout(t, t');
  }

  /** Deleting a ranking: no item uses it, so nothing else depends on it. */
  lemma RankingRemovalKeepsHealth(t: Tables, tournament: Id, r: Id)
    requires Healthy(t) && DeleteRanking(t, tournament, r).Ok?
    ensures var t' := DeleteRanking(t, tournament, r).value; Healthy(t') && OrderKept(t, t')
  {
    hide Intact, ProgressOk, SlotsOk, PositionsOk, LayoutKept, OrderKept, PointsWithout;
    var t' := DeleteRanking(t, tournament, r).value;
    if t' != t {
      RankingRemovalIntact(t, tournament, r);
      FewerRankings(t, t');
    }
    SameItemsAndInputs(t, t');
    KeepsLayout(t, t');
  }

  lemma RankingRemovalFrame(t: Tables, tournament: Id, r: Id)
    requires DeleteRanking(t, tournament, r).Ok?
    ensures var t' := DeleteRanking(t, tournament, r).value;
            && t' == t.(rankings := t'.rankings, rankingPoints := t'.rankingPoints)
            && forall x | x in t'.rankings :: x in t.rankings && t'.rankings[x] == t.rankings[x]
  {
    hide PointsWithout;
    OneLess(t.rankings, r);
    var left := t.rankings - {r};
    var t' := DeleteRanking(t, tournament, r).value;
    assert t' == t || t' == t.(rankings := left, rankingPoints := PointsWithout(t.rankingPoints, {r}));
    hide DeleteRanking;
  }

  lemma OneLess(rankings: map<Id, Ranking>, r: Id)
    ensures forall x | x in rankings - {r} :: x in rankings && (rankings - {r})[x] == rankings[x]
  {
  }

  lemma FewerRankingsLocal(t: Tables, t': Tables)
    requires Local(t) && t' == t.(rankings := t'.rankings, rankingPoints := t'.rankingPoints)
    requires forall x | x in t'.rankings :: x in t.rankings && t'.rankings[x] == t.rankings[x]
    ensures Local(t')
  {
    hide Local;
    GroundLocal(t, t');
  }

  lemma RankingRemovalIntact(t: Tables, tournament: Id, r: Id)
    requires Intact(t) && DeleteRanking(t, tournament, r).Ok?
    ensures Intact(DeleteRanking(t, tournament, r).value)
  {
    hide ForeignKeys, UniqueTeams, UniqueSources, Local, MatchesInside, DeleteRanking;
    DeleteRankingKeeps(t, tournament, r);
    RankingRemovalFrame(t, tournament, r);
    SameInside(t, DeleteRanking(t, tournament, r).value);
    FewerRankingsLocal(t, DeleteRanking(t, tournament, r).value);
  }

  /** Fewer rankings, none of them in use. */
  lemma FewerRankings(t: Tables, t': Tables)
    requires ProgressOk(t) && t' == t.(rankings := t'.rankings, rankingPoints := t'.rankingPoints)
    requires forall r | r in t'.rankings :: r in t.rankings && t'.rankings[r] == t.rankings[r]
    requires forall i | i in t.stageItems :: t.stageItems[i].ranking in t'.rankings
    ensures ProgressOk(t')
  {
    forall m | m in t'.matches ensures SetsFit(t', m) { assert SetsFit(t, m) && NumSetsOf(t', m) == NumSetsOf(t, m); }
  }

  lemma MovedIntact(t: Tables, items: set<Id>, r: Id)
    requires Intact(t) && r in t.rankings
    ensures Intact(t.(stageItems := Moved(t.stageItems, items, r)))
  {
    var t' := t.(stageItems := Moved(t.stageItems, items, r));
    assert t'.stageItems.Keys == t.stageItems.Keys;
    hide MatchesRefer, LevelsRefer, StagesRefer, TeamsRefer, PlayersRefer, MembershipsRefer, CourtsRefer, RankingsRefer,
      RankingPointsRefer, UniqueTeams, UniqueSources, Local;
    SameInside(t, t');
    GroundLocal(t, t');
  }

  lemma StageMoveKeepsHealth(t: Tables, tournament: Id, stage: Id, r: Id)
    requires Healthy(t) && SetRankingForStage(t, tournament, stage, r).Ok?
    ensures var t' := SetRankingForStage(t, tournament, stage, r).value; Healthy(t') && OrderKept(t, t')
  {
    hide Intact, ProgressOk, ParityOk, Tenancy, SlotsOk, PositionsOk, LayoutKept, OrderKept, MoveCounts, Resized,
      BreaksCheck, Moved, ItemsOfStage;
    SetRankingForStageKeeps(t, tournament, stage, r);
    var t', n := SetRankingForStage(t, tournament, stage, r).value, t.rankings[r].rules.numSets;
    var counts := MoveCounts(t, tournament, ItemsOfStage(t, stage), r, n);
    MoveCountsKnown(t, tournament, ItemsOfStage(t, stage), r, n);
    ResizedIntact(t, counts, n);
    ResizedFrame(t, counts, n);
    MovedIntact(Resized(t, counts, n), ItemsOfStage(t, stage), r);
    MovedSizes(t.stageItems, ItemsOfStage(t, stage), r);
    SameItemsAndInputs(t, t');
    KeepsLayout(t, t');
  }

  lemma MovedSizes(stageItems: map<Id, StageItem>, items: set<Id>, r: Id)
    ensures forall i | i in Moved(stageItems, items, r) ::
              i in stageItems && Moved(stageItems, items, r)[i].teamCount == stageItems[i].teamCount
  {
  }
}
