/** Deleting stage items, stages and tournaments from a healthy database: it always goes through, and leaves a healthy
    database without exactly those rows. */
module Removals {
  import opened Schema
  import opened MatchSets
  import opened SetResize
  import opened Rankings
  import opened Deletion
  import opened Cascades
  import opened TournamentDeletion
  import opened Layout
  import opened ItemLayout
  import opened Health

  // ---------------------------------------------------------------- deleting items

  /** A match that stays refers to nothing that goes. */
  lemma MatchStays(t: Tables, items: set<Id>, m: Id)
    requires MatchesInside(t) && m in t.matches && m !in MatchesIn(t, items)
    ensures t.matches[m].round in t.rounds && t.matches[m].round !in RoundsIn(t, items)
    ensures !Plays(t.matches[m], InputsIn(t, items)) && !Feeds(t.matches[m], MatchesIn(t, items))
  {
    assert MatchInside(t, t.matches[m]);
  }

  lemma WithoutItemsMatches(t: Tables, items: set<Id>)
    requires Intact(t)
    ensures var t' := WithoutItems(t, items);
            && MatchesRefer(t'.matches, t'.rounds.Keys, t'.inputs.Keys, t'.courts.Keys)
            && MatchSetsRefer(t'.matchSets, t'.matches.Keys)
  {
    hide MatchesIn, InputsIn, RoundsIn, ForeignKeys, IdsBelowSequence, UniqueTeams, MatchesInside;
    IntactRefers(t);
    var t' := WithoutItems(t, items);
    assert t'.matches.Keys == t.matches.Keys - MatchesIn(t, items);
    assert t'.inputs.Keys == t.inputs.Keys - InputsIn(t, items);
    forall m | m in t'.matches
      ensures MatchRefers(t'.matches[m], t'.rounds.Keys, t'.inputs.Keys, t'.matches.Keys, t'.courts.Keys)
    {
      MatchStays(t, items, m);
      assert MatchRefers(t.matches[m], t.rounds.Keys, t.inputs.Keys, t.matches.Keys, t.courts.Keys);
    }
  }

  lemma WithoutItemsOthers(t: Tables, items: set<Id>)
    requires ForeignKeys(t)
    ensures var t' := WithoutItems(t, items);
            && StageItemsRefer(t'.stageItems, t'.stages.Keys, t'.rankings.Keys)
            && RoundsRefer(t'.rounds, t'.stageItems.Keys)
            && InputsRefer(t'.inputs, t'.tournaments, t'.stageItems.Keys, t'.teams.Keys)
  {
    hide MatchesRefer, LevelsRefer, StagesRefer, TeamsRefer, PlayersRefer, MembershipsRefer, CourtsRefer, RankingsRefer,
      RankingPointsRefer, MatchSetsRefer, WithoutReferees, MatchesIn;
  }

  lemma WithoutItemsInside(t: Tables, items: set<Id>)
    requires MatchesInside(t)
    ensures MatchesInside(WithoutItems(t, items))
  {
    var t' := WithoutItems(t, items);
    forall m | m in t'.matches ensures MatchInside(t', t'.matches[m]) { StayingInside(t, items, m); }
  }

  lemma StayingInside(t: Tables, items: set<Id>, m: Id)
    requires MatchesInside(t) && m in WithoutItems(t, items).matches
    ensures var t' := WithoutItems(t, items); MatchInside(t', t'.matches[m])
  {
    hide MatchesInside;
    var t' := WithoutItems(t, items);
    MatchStays(t, items, m);
    assert SameReferences(t.matches[m], t'.matches[m]);
    assert MatchInside(t, t.matches[m]) by { InsideOf(t, m); }
    forall f | f in t.matches && WaitsFor(t.matches[m], f) ensures f in t'.matches && t.matches[f].round in t'.rounds {
      InsideOf(t, f);
    }
  }

  lemma InsideOf(t: Tables, m: Id)
    requires MatchesInside(t) && m in t.matches
    ensures MatchInside(t, t.matches[m])
  {
  }

  lemma WithoutItemsShape(t: Tables, items: set<Id>)
    requires Intact(t)
    ensures Shape(WithoutItems(t, items))
  {
    hide Local, UniqueSources;
    WithoutItemsMatches(t, items);
    WithoutItemsOthers(t, items);
    WithoutItemsInside(t, items);
    WithoutItemsUnique(t, items);
    hide InputsRefer, RoundsRefer, MatchesRefer, MatchSetsRefer, LevelsRefer, StagesRefer, StageItemsRefer, TeamsRefer,
      PlayersRefer, MembershipsRefer, CourtsRefer, RankingsRefer, RankingPointsRefer, MatchesInside, UniqueTeams,
      MatchesIn, InputsIn, RoundsIn;
  }

  lemma WithoutItemsIntact(t: Tables, items: set<Id>)
    requires Intact(t)
    ensures Intact(WithoutItems(t, items))
  {
    hide Shape, Local, UniqueSources, InputsIn, MatchesIn, RoundsIn;
    WithoutItemsShape(t, items);
    WithoutItemsLocal(t, items);
    WithoutItemsSources(t, items);
  }

  lemma HomeStays(t: Tables, items: set<Id>, i: Id)
    requires i !in items
    ensures HomeOf(WithoutItems(t, items), i) == HomeOf(t, i)
  {
    hide MatchesIn, InputsIn, RoundsIn, Detached, WithoutReferees;
  }

  lemma WithoutItemsLocal(t: Tables, items: set<Id>)
    requires Local(t)
    ensures Local(WithoutItems(t, items))
  {
    hide HomeOf, InputLocal, MatchLocal;
    var t' := WithoutItems(t, items);
    forall x | x in t'.inputs ensures InputLocal(t', t'.inputs[x]) { InputStaysLocal(t, items, x); }
    forall m | m in t'.matches ensures MatchLocal(t', t'.matches[m]) { MatchStaysLocal(t, items, m); }
    LevelsStay(t, items);
  }

  lemma InputStaysLocal(t: Tables, items: set<Id>, x: Id)
    requires InputsLocal(t) && x in WithoutItems(t, items).inputs
    ensures var t' := WithoutItems(t, items); InputLocal(t', t'.inputs[x])
  {
    hide HomeOf, MatchesIn, RoundsIn, WithoutReferees;
    assert x in t.inputs && x !in InputsIn(t, items) && InputLocal(t, t.inputs[x]);
    HomeStays(t, items, t.inputs[x].stageItem);
    if t.inputs[x].winnerFrom.Some? && t.inputs[x].winnerFrom.value !in items {
      HomeStays(t, items, t.inputs[x].winnerFrom.value);
    }
  }

  lemma MatchStaysLocal(t: Tables, items: set<Id>, m: Id)
    requires MatchesLocal(t) && m in WithoutItems(t, items).matches
    ensures var t' := WithoutItems(t, items); MatchLocal(t', t'.matches[m])
  {
    hide HomeOf;
    assert m in t.matches && m !in MatchesIn(t, items) && MatchLocal(t, t.matches[m]);
    HomeStays(t, items, t.rounds[t.matches[m].round].stageItem);
  }

  lemma LevelsStay(t: Tables, items: set<Id>)
    requires LevelsLocal(t)
    ensures LevelsLocal(WithoutItems(t, items))
  {
    hide MatchesIn, InputsIn, RoundsIn, Detached, WithoutReferees;
  }

  lemma WithoutItemsSources(t: Tables, items: set<Id>)
    requires UniqueSources(t.inputs)
    ensures UniqueSources(WithoutItems(t, items).inputs)
  {
    hide InputsIn, UniqueSources, MatchesIn, WithoutReferees;
    LoosenedSources(t.inputs, WithoutItems(t, items).inputs);
  }

  lemma WithoutItemsUnique(t: Tables, items: set<Id>)
    requires UniqueTeams(t.inputs)
    ensures UniqueTeams(WithoutItems(t, items).inputs)
  {
    hide InputsIn, UniqueTeams, MatchesIn, WithoutReferees;
    LoosenedUnique(t.inputs, WithoutItems(t, items).inputs);
  }

  lemma WithoutItemsProgress(t: Tables, items: set<Id>)
    requires Intact(t) && ProgressOk(t)
    ensures ProgressOk(WithoutItems(t, items))
  {
    hide InputsIn, Detached, Intact;
    WithoutItemsIntact(t, items);
    var t' := WithoutItems(t, items);
    IntactRefers(t');
    forall m | m in t'.matches ensures SetsFit(t', m) {
      assert SetsFit(t, m);
      FitsFrame(t, t', m);
    }
  }

  lemma WithoutItemsLayout(t: Tables, items: set<Id>)
    requires ForeignKeys(t)
    ensures LayoutKept(t, WithoutItems(t, items))
  {
    hide MatchesIn, WithoutReferees, RoundsIn;
  }

  lemma ItemsRemovalKeepsHealth(t: Tables, items: set<Id>)
    requires Healthy(t)
    ensures Healthy(WithoutItems(t, items)) && OrderKept(t, WithoutItems(t, items))
  {
    hide ForeignKeys, ProgressOk, UniqueTeams, MatchesInside, SlotsOk, PositionsOk, LayoutKept, OrderKept, Detached,
      MatchesIn, InputsIn, RoundsIn, WithoutReferees;
    WithoutItemsIntact(t, items);
    WithoutItemsProgress(t, items);
    WithoutItemsLayout(t, items);
    KeepsLayout(t, WithoutItems(t, items));
  }

  /** A stage item can always be deleted. */
  lemma ItemRemovalKeepsHealth(t: Tables, i: Id)
    requires Healthy(t)
    ensures DeletedItem(t, i) == Ok(WithoutItem(t, i))
    ensures Healthy(WithoutItem(t, i)) && OrderKept(t, WithoutItem(t, i))
  {
    hide Intact, ProgressOk, ParityOk, Tenancy, SlotsOk, PositionsOk, WithoutItem, WithoutItems, Separate, OrderKept,
      Healthy;
    HealthParts(t);
    ItemsAreSeparate(t, i);
    WithoutNone(t);
    WithoutOneMore(t, {}, i);
    assert {} + {i} == {i};
    ItemsRemovalKeepsHealth(t, {i});
  }

  /** Matches inside their items are used only inside them, so any order of deletion will do. */
  lemma UsedInside(t: Tables, order: seq<Id>)
    requires MatchesInside(t)
    ensures UsedForward(t, order)
  {
    hide MatchesInside;
    forall k, m | 0 <= k < |order| && m in t.matches && Uses(t, t.matches[m], order[k])
      ensures m in MatchesIn(t, Group(order[..k + 1]))
    {
      if Feeds(t.matches[m], MatchesOfItem(t, order[k])) {
        FedInside(t, order[k], m);
      } else {
        PlayersInside(t, order[k], m);
      }
      assert order[..k + 1][k] == order[k];
    }
  }

  /** A stage of the tournament can always be deleted, whatever is in it and in whatever order its items are listed. */
  lemma StageRemovalKeepsHealth(t: Tables, tournament: Id, stage: Id, order: seq<Id>)
    requires Healthy(t) && stage in t.stages && t.stages[stage].tournament == tournament
    requires Lists(order, ItemsOfStage(t, stage))
    ensures StageDeleted(t, tournament, stage, order).Ok?
    ensures var t' := StageDeleted(t, tournament, stage, order).value;
            && t' == WithoutItems(t, ItemsOfStage(t, stage)).(stages := t.stages - {stage})
            && Healthy(t') && OrderKept(t, t')
  {
    hide Healthy, StageDeleted, UsedForward, ItemsOfStage, WithoutItems, OrderKept, Lists;
    HealthParts(t);
    UsedInside(t, order);
    StageDeletionWorks(t, tournament, stage, order);
    ItemsRemovalKeepsHealth(t, ItemsOfStage(t, stage));
    EmptiedStage(t, stage);
    var s := WithoutItems(t, ItemsOfStage(t, stage));
    FewerStages(s, stage);
    LaterOrder(t, s, s.(stages := t.stages - {stage}));
  }

  lemma IdsList(ids: set<Id>)
    ensures Lists(Ids(ids), ids)
  {
  }

  lemma FewerStages(t: Tables, stage: Id)
    requires Healthy(t) && forall i | i in t.stageItems :: t.stageItems[i].stage != stage
    ensures Healthy(t.(stages := t.stages - {stage}))
  {
    hide Intact, ProgressOk, SlotsOk, PositionsOk, LayoutKept, OrderKept;
    var t' := t.(stages := t.stages - {stage});
    FewerStagesIntact(t, stage);
    FewerStagesFit(t, stage);
    SameItemsAndInputs(t, t');
    KeepsLayout(t, t');
  }

  lemma FewerStagesIntact(t: Tables, stage: Id)
    requires Intact(t) && forall i | i in t.stageItems :: t.stageItems[i].stage != stage
    ensures Intact(t.(stages := t.stages - {stage}))
  {
    hide Shape, Local, UniqueSources;
    FewerStagesShape(t, stage);
    FewerStagesLocal(t, stage);
  }

  lemma FewerStagesShape(t: Tables, stage: Id)
    requires Shape(t) && forall i | i in t.stageItems :: t.stageItems[i].stage != stage
    ensures Shape(t.(stages := t.stages - {stage}))
  {
    hide InputsRefer, RoundsRefer, MatchesRefer, LevelsRefer, TeamsRefer, PlayersRefer, MembershipsRefer,
      CourtsRefer, RankingsRefer, RankingPointsRefer, MatchSetsRefer, UniqueTeams, MatchesInside;
    SameInside(t, t.(stages := t.stages - {stage}));
  }

  lemma FewerStagesLocal(t: Tables, stage: Id)
    requires Local(t) && forall i | i in t.stageItems :: t.stageItems[i].stage != stage
    ensures Local(t.(stages := t.stages - {stage}))
  {
    var t' := t.(stages := t.stages - {stage});
    assert forall i :: HomeOf(t', i) == HomeOf(t, i);
    hide HomeOf;
    forall x | x in t'.inputs ensures InputLocal(t', t'.inputs[x]) { assert InputLocal(t, t.inputs[x]); }
    forall m | m in t'.matches ensures MatchLocal(t', t'.matches[m]) { assert MatchLocal(t, t.matches[m]); }
  }

  lemma FewerStagesFit(t: Tables, stage: Id)
    requires ProgressOk(t) && forall i | i in t.stageItems :: t.stageItems[i].stage != stage
    ensures ProgressOk(t.(stages := t.stages - {stage}))
  {
    var t' := t.(stages := t.stages - {stage});
    forall m | m in t'.matches ensures SetsFit(t', m) { assert SetsFit(t, m) && NumSetsOf(t', m) == NumSetsOf(t, m); }
  }

  lemma LaterOrder(t: Tables, s: Tables, t': Tables)
    requires OrderKept(t, s) && t'.stageItems == s.stageItems && t'.inputs == s.inputs && t'.nextId == s.nextId
    ensures OrderKept(t, t')
  {
    forall i | i in t'.stageItems && i < t.nextId ensures KeepsOrder(t, t', i) {
      assert KeepsOrder(t, s, i);
      assert InputsOfItem(t', i) == InputsOfItem(s, i);
    }
  }

  // ---------------------------------------------------------------- deleting a tournament

  /** What is left to take from the database once the items of a tournament are gone. */
  function BelongingsTaken(t: Tables, w: Tables, tournament: Id): Tables {
    w.(tournaments := t.tournaments - {tournament}, levels := t.levels - LevelsOf(t, tournament),
       stages := t.stages - StagesOf(t, tournament), teams := t.teams - TeamsOf(t, tournament),
       players := t.players - PlayersOf(t, tournament),
       memberships := MembershipsWithout(t, PlayersOf(t, tournament), TeamsOf(t, tournament)),
       courts := t.courts - CourtsOf(t, tournament), rankings := t.rankings - RankingsOf(t, tournament),
       rankingPoints := PointsWithout(t.rankingPoints, RankingsOf(t, tournament)))
  }

  /** Nobody outside a closed tournament is emptied or loses a referee. */
  lemma ClosedItemsGo(t: Tables, tournament: Id)
    requires Closed(t, tournament)
    ensures WithoutTournament(t, tournament)
         == BelongingsTaken(t, WithoutItems(t, ItemsIn(t, StagesOf(t, tournament))), tournament)
  {
    var items := ItemsIn(t, StagesOf(t, tournament));
    RelationsGone(t, tournament, items);
    MatchesGone(t, tournament, items);
    hide Closed, ItemsIn, InputsIn, RoundsIn, Detached, MembershipsWithout, PointsWithout, LevelsOf, TeamsOf, PlayersOf,
      CourtsOf, RankingsOf, StagesOf;
    QuietInputs(WithoutMatches(t, items), InputsIn(t, items), items);
  }

  /** Rows outside the tournament refer to rows outside it. */
  lemma BelongingsRefer(t: Tables, tournament: Id)
    requires ForeignKeys(t) && Closed(t, tournament)
    ensures var w := WithoutTournament(t, tournament);
            && LevelsRefer(w.levels, w.tournaments) && StagesRefer(w.stages, w.tournaments, w.levels.Keys)
            && TeamsRefer(w.teams, w.tournaments, w.levels.Keys)
            && PlayersRefer(w.players, w.tournaments, w.levels.Keys)
            && MembershipsRefer(w.memberships, w.players.Keys, w.teams.Keys) && CourtsRefer(w.courts, w.tournaments)
            && RankingsRefer(w.rankings, w.tournaments, w.levels.Keys)
            && RankingPointsRefer(w.rankingPoints, w.rankings.Keys)
  {
    hide InputsRefer, RoundsRefer, MatchesRefer, MatchSetsRefer, StageItemsRefer, ItemsIn, InputsIn, RoundsIn,
      MatchesIn;
  }

  lemma OutsideRefers(t: Tables, tournament: Id)
    requires ForeignKeys(t) && Closed(t, tournament)
    ensures var w := WithoutTournament(t, tournament);
            && StageItemsRefer(w.stageItems, w.stages.Keys, w.rankings.Keys)
            && RoundsRefer(w.rounds, w.stageItems.Keys)
            && InputsRefer(w.inputs, w.tournaments, w.stageItems.Keys, w.teams.Keys)
  {
    hide LevelsRefer, StagesRefer, TeamsRefer, PlayersRefer, MembershipsRefer, CourtsRefer, RankingsRefer,
      RankingPointsRefer, MatchesRefer, MatchSetsRefer, MatchesIn, LevelsOf, LevelsStayInside, CourtsOf,
      MembershipsWithout, PointsWithout;
  }

  lemma OutsideMatches(t: Tables, tournament: Id)
    requires Intact(t) && Closed(t, tournament)
    ensures var w := WithoutTournament(t, tournament);
            && MatchesRefer(w.matches, w.rounds.Keys, w.inputs.Keys, w.courts.Keys)
            && MatchSetsRefer(w.matchSets, w.matches.Keys) && MatchesInside(w)
  {
    hide Intact, ForeignKeys, Closed, WithoutItems, ItemsIn, MatchesIn, InputsIn, RoundsIn, StagesOf,
      MembershipsWithout, PointsWithout, MatchesInside;
    var items, w := ItemsIn(t, StagesOf(t, tournament)), WithoutTournament(t, tournament);
    ClosedItemsGo(t, tournament);
    WithoutItemsIntact(t, items);
    IntactRefers(WithoutItems(t, items));
    assert MatchesInside(WithoutItems(t, items)) by { InsideOfIntact(WithoutItems(t, items)); }
    SameInside(WithoutItems(t, items), w);
    forall m | m in w.matches
      ensures MatchRefers(w.matches[m], w.rounds.Keys, w.inputs.Keys, w.matches.Keys, w.courts.Keys)
    {
      var s := WithoutItems(t, items);
      assert MatchRefers(s.matches[m], s.rounds.Keys, s.inputs.Keys, s.matches.Keys, s.courts.Keys);
      OutsideCourts(t, tournament, m);
      CourtsStay(t, items);
    }
  }

  lemma CourtsStay(t: Tables, items: set<Id>)
    ensures WithoutItems(t, items).courts == t.courts
  {
  }

  lemma InsideOfIntact(t: Tables)
    requires Intact(t)
    ensures MatchesInside(t) && t.matchSets.Keys <= t.matches.Keys
  {
  }

  lemma OutsideCourts(t: Tables, tournament: Id, m: Id)
    requires Closed(t, tournament) && m in WithoutTournament(t, tournament).matches
    ensures m in t.matches && !Names(t.matches[m].court, CourtsOf(t, tournament))
    ensures WithoutTournament(t, tournament).matches[m] == t.matches[m]
    ensures WithoutTournament(t, tournament).courts.Keys == t.courts.Keys - CourtsOf(t, tournament)
  {
  }

  lemma WithoutTournamentShape(t: Tables, tournament: Id)
    requires Intact(t) && Closed(t, tournament)
    ensures Shape(WithoutTournament(t, tournament))
  {
    hide Local, UniqueSources;
    BelongingsRefer(t, tournament);
    OutsideRefers(t, tournament);
    OutsideMatches(t, tournament);
    var items := ItemsIn(t, StagesOf(t, tournament));
    LoosenedUnique(t.inputs, t.inputs - InputsIn(t, items));
    hide Closed, ItemsIn, InputsIn, RoundsIn, MatchesIn, InputsRefer, RoundsRefer, MatchesRefer, MatchSetsRefer,
      StageItemsRefer, LevelsRefer, StagesRefer, TeamsRefer, PlayersRefer, MembershipsRefer, CourtsRefer, RankingsRefer,
      RankingPointsRefer, MatchesInside, UniqueTeams, StagesOf, MembershipsWithout, PointsWithout;
  }

  lemma WithoutTournamentIntact(t: Tables, tournament: Id)
    requires Intact(t) && Closed(t, tournament)
    ensures Intact(WithoutTournament(t, tournament))
  {
    hide Shape, Local, UniqueSources, Closed, InputsIn, MatchesIn, RoundsIn, MembershipsWithout, PointsWithout;
    WithoutTournamentShape(t, tournament);
    OutsideLocal(t, tournament);
    LoosenedSources(t.inputs, WithoutTournament(t, tournament).inputs);
  }

  lemma OutsideHome(t: Tables, tournament: Id, i: Id)
    requires HomeOf(t, i).Some? && HomeOf(t, i) != Some(tournament)
    ensures HomeOf(WithoutTournament(t, tournament), i) == HomeOf(t, i)
  {
    hide MatchesIn, InputsIn, RoundsIn, MembershipsWithout, PointsWithout, PlayersOf, TeamsOf, CourtsOf, LevelsOf,
      RankingsOf;
  }

  /** An input outside the tournament's items is of another tournament. */
  lemma OutsideInput(t: Tables, tournament: Id, x: Id)
    requires InputsLocal(t) && x in t.inputs && x !in InputsIn(t, ItemsIn(t, StagesOf(t, tournament)))
    ensures InputLocal(t, t.inputs[x]) && t.inputs[x].tournament != tournament
  {
    assert InputLocal(t, t.inputs[x]);
  }

  lemma OutsideMatch(t: Tables, tournament: Id, m: Id)
    requires MatchesLocal(t) && MatchesInside(t) && RoundsRefer(t.rounds, t.stageItems.Keys)
    requires StageItemsRefer(t.stageItems, t.stages.Keys, t.rankings.Keys)
    requires m in t.matches && m !in MatchesIn(t, ItemsIn(t, StagesOf(t, tournament)))
    ensures MatchLocal(t, t.matches[m])
    ensures var home := HomeOf(t, t.rounds[t.matches[m].round].stageItem); home.Some? && home != Some(tournament)
  {
    assert MatchLocal(t, t.matches[m]);
  }

  lemma OutsideLocal(t: Tables, tournament: Id)
    requires Intact(t) && Closed(t, tournament)
    ensures Local(WithoutTournament(t, tournament))
  {
    hide HomeOf, InputLocal, MatchLocal, Closed, ForeignKeys, MatchesInside, WithoutTournament;
    var w := WithoutTournament(t, tournament);
    forall x | x in w.inputs ensures InputLocal(w, w.inputs[x]) { OutsideInputLocal(t, tournament, x); }
    forall m | m in w.matches ensures MatchLocal(w, w.matches[m]) { OutsideMatchLocal(t, tournament, m); }
    OutsideLevels(t, tournament);
  }

  lemma OutsideInputLocal(t: Tables, tournament: Id, x: Id)
    requires InputsLocal(t) && x in WithoutTournament(t, tournament).inputs
    ensures var w := WithoutTournament(t, tournament); InputLocal(w, w.inputs[x])
  {
    hide HomeOf, InputsIn, ItemsIn, StagesOf, MatchesIn, RoundsIn, MembershipsWithout, PointsWithout, PlayersOf,
      CourtsOf, LevelsOf, RankingsOf;
    OutsideInput(t, tournament, x);
    OutsideHome(t, tournament, t.inputs[x].stageItem);
    if t.inputs[x].winnerFrom.Some? { OutsideHome(t, tournament, t.inputs[x].winnerFrom.value); }
  }

  lemma OutsideMatchLocal(t: Tables, tournament: Id, m: Id)
    requires Intact(t) && m in WithoutTournament(t, tournament).matches
    ensures var w := WithoutTournament(t, tournament); MatchLocal(w, w.matches[m])
  {
    OutsideMatch(t, tournament, m);
    OutsideHome(t, tournament, t.rounds[t.matches[m].round].stageItem);
    StaysInTables(t, tournament, m);
    hide HomeOf, InputsIn, ItemsIn, StagesOf, MatchesIn, RoundsIn, MembershipsWithout, PointsWithout, PlayersOf,
      TeamsOf, LevelsOf, RankingsOf, ForeignKeys, MatchesInside, WithoutTournament;
  }

  lemma StaysInTables(t: Tables, tournament: Id, m: Id)
    requires Local(t) && m in WithoutTournament(t, tournament).matches && t.matches[m].round in t.rounds
    requires var home := HomeOf(t, t.rounds[t.matches[m].round].stageItem); home.Some? && home != Some(tournament)
    ensures var w := WithoutTournament(t, tournament);
            && m in t.matches && w.matches[m] == t.matches[m] && t.matches[m].round in w.rounds
            && w.rounds[t.matches[m].round] == t.rounds[t.matches[m].round]
            && CourtLocal(w, t.matches[m].court, HomeOf(t, t.rounds[t.matches[m].round].stageItem))
            && RefereeLocal(w, t.matches[m].referee, HomeOf(t, t.rounds[t.matches[m].round].stageItem))
  {
    assert MatchLocal(t, t.matches[m]);
    if t.matches[m].referee.Some? {
      RefereeInput(t, m, t.matches[m].referee.value);
      InputOutside(t, tournament, t.matches[m].referee.value);
    }
    hide MembershipsWithout, PointsWithout, PlayersOf, TeamsOf, LevelsOf, RankingsOf, MatchesIn;
  }

  lemma InputOutside(t: Tables, tournament: Id, x: Id)
    requires x in t.inputs && InputLocal(t, t.inputs[x]) && t.inputs[x].tournament != tournament
    ensures x !in InputsIn(t, ItemsIn(t, StagesOf(t, tournament)))
    ensures x in WithoutTournament(t, tournament).inputs && WithoutTournament(t, tournament).inputs[x] == t.inputs[x]
  {
    hide MatchesIn, RoundsIn, MembershipsWithout, PointsWithout, PlayersOf, TeamsOf, CourtsOf, LevelsOf, RankingsOf;
  }

  lemma RefereeInput(t: Tables, m: Id, x: Id)
    requires Local(t) && m in t.matches && t.matches[m].referee == Some(x)
    ensures x in t.inputs && InputLocal(t, t.inputs[x])
  {
    hide LevelsLocal, HomeOf;
    assert MatchLocal(t, t.matches[m]);
    RefereeIn(t, x, HomeOf(t, t.rounds[t.matches[m].round].stageItem));
  }

  lemma RefereeIn(t: Tables, x: Id, home: Option<Id>)
    requires RefereeLocal(t, Some(x), home)
    ensures x in t.inputs
  {
  }

  lemma OutsideLevels(t: Tables, tournament: Id)
    requires LevelsLocal(t)
    ensures LevelsLocal(WithoutTournament(t, tournament))
  {
    hide MatchesIn, InputsIn, RoundsIn, ItemsIn, MembershipsWithout, PointsWithout, CourtsOf;
  }

  lemma OutsideFits(t: Tables, tournament: Id)
    requires ProgressOk(t) && ChainRefers(WithoutTournament(t, tournament))
    ensures ProgressOk(WithoutTournament(t, tournament))
  {
    hide MembershipsWithout, PointsWithout, PlayersOf, TeamsOf, CourtsOf, LevelsOf, InputsIn;
    var w := WithoutTournament(t, tournament);
    forall m | m in w.matches ensures SetsFit(w, m) {
      assert SetsFit(t, m);
      FitsFrame(t, w, m);
    }
  }

  lemma OutsideConfiguration(t: Tables, tournament: Id)
    requires Tenancy(t) && ParityOk(t) && ForeignKeys(WithoutTournament(t, tournament))
    ensures Tenancy(WithoutTournament(t, tournament)) && ParityOk(WithoutTournament(t, tournament))
  {
    hide MembershipsWithout, PointsWithout, PlayersOf, TeamsOf, CourtsOf, LevelsOf, InputsIn, MatchesIn, RoundsIn,
      MatchesRefer, InputsRefer, RoundsRefer;
  }

  lemma OutsideLayout(t: Tables, tournament: Id)
    requires ForeignKeys(t)
    ensures LayoutKept(t, WithoutTournament(t, tournament))
  {
    hide MembershipsWithout, PointsWithout, PlayersOf, TeamsOf, CourtsOf, LevelsOf, MatchesIn, RoundsIn, RankingsOf;
  }

  /** When every row refers inside its tournament, nothing outside a tournament refers into it. */
  lemma LocalCloses(t: Tables, tournament: Id)
    requires Intact(t) && Tenancy(t)
    ensures Closed(t, tournament)
  {
    hide ForeignKeys, UniqueTeams, UniqueSources, InputsIn, MatchesIn, RoundsIn, CourtsOf, TeamsOf, LevelsOf,
      MatchesInside, Local, LevelsStayInside, ItemsIn, StagesOf, RankingsOf;
    var items := ItemsIn(t, StagesOf(t, tournament));
    ClosedRankings(t, tournament);
    ClosedLevels(t, tournament);
    forall m | m in t.matches && m !in MatchesIn(t, items)
      ensures !Plays(t.matches[m], InputsIn(t, items)) && !Names(t.matches[m].referee, InputsIn(t, items))
      ensures !Names(t.matches[m].court, CourtsOf(t, tournament))
    {
      MatchStays(t, items, m);
      MatchApart(t, tournament, m);
    }
    forall x | x in t.inputs && x !in InputsIn(t, items)
      ensures t.inputs[x].tournament != tournament && !Names(t.inputs[x].team, TeamsOf(t, tournament))
      ensures !Names(t.inputs[x].winnerFrom, items)
    {
      InputApart(t, tournament, x);
    }
  }

  lemma ClosedRankings(t: Tables, tournament: Id)
    requires Tenancy(t)
    ensures forall i | i in t.stageItems && i !in ItemsIn(t, StagesOf(t, tournament)) ::
              t.stageItems[i].ranking !in RankingsOf(t, tournament)
  {
  }

  lemma ClosedLevels(t: Tables, tournament: Id)
    requires Local(t)
    ensures forall x | x in t.stages && t.stages[x].tournament != tournament ::
              !Names(t.stages[x].level, LevelsOf(t, tournament))
    ensures forall x | x in t.rankings && t.rankings[x].tournament != tournament ::
              !Names(t.rankings[x].level, LevelsOf(t, tournament))
    ensures LevelsStayInside(t, tournament)
  {
    hide InputsLocal, MatchesLocal;
  }

  lemma MatchApart(t: Tables, tournament: Id, m: Id)
    requires Intact(t) && m in t.matches && m !in MatchesIn(t, ItemsIn(t, StagesOf(t, tournament)))
    ensures !Names(t.matches[m].referee, InputsIn(t, ItemsIn(t, StagesOf(t, tournament))))
    ensures !Names(t.matches[m].court, CourtsOf(t, tournament))
  {
    OutsideMatch(t, tournament, m);
    hide ForeignKeys, MatchesInside, UniqueTeams, UniqueSources, MatchesIn, MatchesLocal, LevelsLocal;
    if t.matches[m].referee.Some? { RefereeInput(t, m, t.matches[m].referee.value); }
  }

  lemma InputApart(t: Tables, tournament: Id, x: Id)
    requires Intact(t) && x in t.inputs && x !in InputsIn(t, ItemsIn(t, StagesOf(t, tournament)))
    ensures t.inputs[x].tournament != tournament && !Names(t.inputs[x].team, TeamsOf(t, tournament))
    ensures !Names(t.inputs[x].winnerFrom, ItemsIn(t, StagesOf(t, tournament)))
  {
    hide ForeignKeys, MatchesInside, UniqueTeams, UniqueSources, MatchesLocal, LevelsLocal, InputsIn;
    OutsideInput(t, tournament, x);
  }

  lemma FeedingInside(t: Tables)
    requires MatchesInside(t)
    ensures forall i, m | m in t.matches && Feeds(t.matches[m], MatchesOfItem(t, i)) :: m in MatchesOfItem(t, i)
  {
    hide MatchesInside;
    forall i, m | m in t.matches && Feeds(t.matches[m], MatchesOfItem(t, i)) ensures m in MatchesOfItem(t, i) {
      FedInside(t, i, m);
    }
  }

  /** From a healthy database, a tournament can always be deleted. */
  lemma TournamentRemovalKeepsHealth(t: Tables, tournament: Id)
    requires Healthy(t)
    ensures DeleteCompletely(t, tournament) == Ok(WithoutTournament(t, tournament))
    ensures Healthy(WithoutTournament(t, tournament)) && OrderKept(t, WithoutTournament(t, tournament))
  {
    hide Intact, ProgressOk, ParityOk, Tenancy, SlotsOk, PositionsOk, WithoutTournament, DeleteCompletely,
      Closed, LayoutKept, OrderKept, ItemOrder, FeedsForward, StagesOf, Healthy, ForeignKeys, ChainRefers;
    HealthParts(t);
    LocalCloses(t, tournament);
    FeedingInside(t);
    FeedingInsideItems(t, ItemOrder(t, Ids(StagesOf(t, tournament))));
    DeleteCompletelyWorks(t, tournament);
    WithoutTournamentIntact(t, tournament);
    IntactRefers(WithoutTournament(t, tournament));
    OutsideFits(t, tournament);
    IntactHasKeys(WithoutTournament(t, tournament));
    OutsideConfiguration(t, tournament);
    OutsideLayout(t, tournament);
    KeepsLayout(t, WithoutTournament(t, tournament));
    IsHealthy(WithoutTournament(t, tournament));
  }

  lemma IntactHasKeys(t: Tables)
    requires Intact(t)
    ensures ForeignKeys(t)
  {
  }
}
