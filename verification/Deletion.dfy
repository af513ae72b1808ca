/** DELETE statements with the schema's rules for references: CASCADE and SET NULL are carried out, any
    other reference to a deleted row makes the statement fail and change nothing. */
module Deletion {
  import opened Schema

  /** Some row outside `ids` is fed by a match in `ids`. */
  predicate FedBy(matches: map<Id, Match>, ids: set<Id>) {
    exists m | m in matches :: m !in ids && Feeds(matches[m], ids)
  }

  predicate Feeds(m: Match, ids: set<Id>) {
    (m.winnerFrom1.Some? && m.winnerFrom1.value in ids) || (m.winnerFrom2.Some? && m.winnerFrom2.value in ids)
  }

  predicate Plays(m: Match, ids: set<Id>) {
    (m.input1.Some? && m.input1.value in ids) || (m.input2.Some? && m.input2.value in ids)
  }

  function DeleteMatches(t: Tables, ids: set<Id>): Result<Tables> {
    if FedBy(t.matches, ids) then Err(ForeignKeyViolation)
    else Ok(t.(matches := t.matches - ids, matchSets := t.matchSets - ids))
  }

  function DeleteRounds(t: Tables, ids: set<Id>): Result<Tables> {
    if exists m | m in t.matches :: t.matches[m].round in ids then Err(ForeignKeyViolation)
    else Ok(t.(rounds := t.rounds - ids))
  }

  /** ON DELETE SET NULL on the referee. */
  function WithoutReferees(matches: map<Id, Match>, ids: set<Id>): map<Id, Match> {
    map m | m in matches ::
      if matches[m].referee.Some? && matches[m].referee.value in ids
      then matches[m].(referee := None) else matches[m]
  }

  predicate PlayedIn(matches: map<Id, Match>, ids: set<Id>) {
    exists m | m in matches :: Plays(matches[m], ids)
  }

  function DeleteInputs(t: Tables, ids: set<Id>): Result<Tables> {
    if PlayedIn(t.matches, ids) then Err(ForeignKeyViolation)
    else Ok(t.(inputs := t.inputs - ids, matches := WithoutReferees(t.matches, ids)))
  }

  /** Inputs that draw their team from an item in `items` become empty slots. */
  function Detached(inputs: map<Id, Input>, items: set<Id>): map<Id, Input> {
    map x | x in inputs ::
      if inputs[x].winnerFrom.Some? && inputs[x].winnerFrom.value in items
      then inputs[x].(team := None, winnerFrom := None, winnerPosition := None) else inputs[x]
  }

  function InputsOfItem(t: Tables, i: Id): set<Id> {
    set x | x in t.inputs && t.inputs[x].stageItem == i
  }

  function RoundsOfItem(t: Tables, i: Id): set<Id> {
    set r | r in t.rounds && t.rounds[r].stageItem == i
  }

  /** Deleting a stage item also deletes its inputs. */
  function DeleteStageItem(t: Tables, i: Id): Result<Tables> {
    var inputs := InputsOfItem(t, i);
    if || (exists r | r in t.rounds :: t.rounds[r].stageItem == i)
       || PlayedIn(t.matches, inputs)
       || exists x | x in t.inputs :: x !in inputs && t.inputs[x].winnerFrom == Some(i)
    then Err(ForeignKeyViolation)
    else Ok(t.(stageItems := t.stageItems - {i}, inputs := t.inputs - inputs,
               matches := WithoutReferees(t.matches, inputs)))
  }

  function DeleteStage(t: Tables, tournament: Id, s: Id): Result<Tables> {
    if s !in t.stages || t.stages[s].tournament != tournament then Ok(t)
    else if exists i | i in t.stageItems :: t.stageItems[i].stage == s then Err(ForeignKeyViolation)
    else Ok(t.(stages := t.stages - {s}))
  }

  function DeleteRanking(t: Tables, tournament: Id, r: Id): Result<Tables> {
    if r !in t.rankings || t.rankings[r].tournament != tournament then Ok(t)
    else if exists i | i in t.stageItems :: t.stageItems[i].ranking == r then Err(ForeignKeyViolation)
    else Ok(t.(rankings := t.rankings - {r}, rankingPoints := PointsWithout(t.rankingPoints, {r})))
  }

  function PointsWithout(points: map<Id, Id>, rankings: set<Id>): map<Id, Id> {
    map x | x in points && points[x] !in rankings :: points[x]
  }

  function MembershipsWithout(t: Tables, players: set<Id>, teams: set<Id>): map<Id, Membership> {
    map x | x in t.memberships && t.memberships[x].player !in players && t.memberships[x].team !in teams
         :: t.memberships[x]
  }

  function PlayersOf(t: Tables, tournament: Id): set<Id> {
    set x | x in t.players && t.players[x].tournament == tournament
  }
  function CourtsOf(t: Tables, tournament: Id): set<Id> {
    set x | x in t.courts && t.courts[x].tournament == tournament
  }
  function TeamsOf(t: Tables, tournament: Id): set<Id> {
    set x | x in t.teams && t.teams[x].tournament == tournament
  }
  function LevelsOf(t: Tables, tournament: Id): set<Id> {
    set x | x in t.levels && t.levels[x].tournament == tournament
  }
  function RankingsOf(t: Tables, tournament: Id): set<Id> {
    set x | x in t.rankings && t.rankings[x].tournament == tournament
  }
  function StagesOf(t: Tables, tournament: Id): set<Id> {
    set x | x in t.stages && t.stages[x].tournament == tournament
  }

  function DeletePlayersOf(t: Tables, tournament: Id): Result<Tables> {
    var ids := PlayersOf(t, tournament);
    Ok(t.(players := t.players - ids, memberships := MembershipsWithout(t, ids, {})))
  }

  predicate Names(ref: Option<Id>, ids: set<Id>) {
    ref.Some? && ref.value in ids
  }

  function DeleteCourtsOf(t: Tables, tournament: Id): Result<Tables> {
    var ids := CourtsOf(t, tournament);
    if exists m | m in t.matches :: Names(t.matches[m].court, ids) then Err(ForeignKeyViolation)
    else Ok(t.(courts := t.courts - ids))
  }

  function DeleteTeamsOf(t: Tables, tournament: Id): Result<Tables> {
    var ids := TeamsOf(t, tournament);
    if exists x | x in t.inputs :: Names(t.inputs[x].team, ids) then Err(ForeignKeyViolation)
    else Ok(t.(teams := t.teams - ids, memberships := MembershipsWithout(t, {}, ids)))
  }

  function DeleteLevelsOf(t: Tables, tournament: Id): Result<Tables> {
    var ids := LevelsOf(t, tournament);
    if || (exists x | x in t.stages :: Names(t.stages[x].level, ids))
       || (exists x | x in t.teams :: Names(t.teams[x].level, ids))
       || (exists x | x in t.players :: Names(t.players[x].level, ids))
       || (exists x | x in t.rankings :: Names(t.rankings[x].level, ids))
    then Err(ForeignKeyViolation)
    else Ok(t.(levels := t.levels - ids))
  }

  function DeleteTournament(t: Tables, tournament: Id): Result<Tables> {
    if || (exists x | x in t.levels :: t.levels[x].tournament == tournament)
       || (exists x | x in t.stages :: t.stages[x].tournament == tournament)
       || (exists x | x in t.inputs :: t.inputs[x].tournament == tournament)
       || (exists x | x in t.teams :: t.teams[x].tournament == tournament)
       || (exists x | x in t.players :: t.players[x].tournament == tournament)
       || (exists x | x in t.courts :: t.courts[x].tournament == tournament)
       || (exists x | x in t.rankings :: t.rankings[x].tournament == tournament)
    then Err(ForeignKeyViolation)
    else Ok(t.(tournaments := t.tournaments - {tournament}))
  }

  /** A ranking goes, with the scoring rows that name it, exactly when no item uses it; one of another tournament
      stays. */
  lemma RankingGoes(t: Tables, tournament: Id, r: Id)
    ensures var result, mine := DeleteRanking(t, tournament, r), r in RankingsOf(t, tournament);
            && (result.Err? <==> mine && exists i | i in t.stageItems :: t.stageItems[i].ranking == r)
            && (result.Err? ==> result.error == ForeignKeyViolation)
            && (result.Ok? ==>
                  var t' := result.value;
                  && t' == t.(rankings := t'.rankings, rankingPoints := t'.rankingPoints)
                  && (forall x :: x in t'.rankings <==> x in t.rankings && (mine ==> x != r))
                  && (forall x | x in t'.rankings :: t'.rankings[x] == t.rankings[x])
                  && (forall x :: x in t'.rankingPoints <==> x in t.rankingPoints && (mine ==> t.rankingPoints[x] != r))
                  && (forall x | x in t'.rankingPoints :: t'.rankingPoints[x] == t.rankingPoints[x]))
  {
  }

  /** Every statement that goes through leaves every foreign key of the schema intact: the checks above
      are exactly the ones the database needs. */
  lemma DeletesKeepForeignKeys(t: Tables, ids: set<Id>, i: Id, tournament: Id)
    requires ForeignKeys(t)
    ensures DeleteMatches(t, ids).Ok? ==> ForeignKeys(DeleteMatches(t, ids).value)
    ensures DeleteRounds(t, ids).Ok? ==> ForeignKeys(DeleteRounds(t, ids).value)
    ensures DeleteInputs(t, ids).Ok? ==> ForeignKeys(DeleteInputs(t, ids).value)
    ensures ForeignKeys(t.(inputs := Detached(t.inputs, {i})))
    ensures DeleteStageItem(t, i).Ok? ==> ForeignKeys(DeleteStageItem(t, i).value)
    ensures DeleteStage(t, tournament, i).Ok? ==> ForeignKeys(DeleteStage(t, tournament, i).value)
    ensures DeleteRanking(t, tournament, i).Ok? ==> ForeignKeys(DeleteRanking(t, tournament, i).value)
    ensures DeletePlayersOf(t, tournament).Ok? ==> ForeignKeys(DeletePlayersOf(t, tournament).value)
    ensures DeleteCourtsOf(t, tournament).Ok? ==> ForeignKeys(DeleteCourtsOf(t, tournament).value)
    ensures DeleteTeamsOf(t, tournament).Ok? ==> ForeignKeys(DeleteTeamsOf(t, tournament).value)
    ensures DeleteLevelsOf(t, tournament).Ok? ==> ForeignKeys(DeleteLevelsOf(t, tournament).value)
    ensures DeleteTournament(t, tournament).Ok? ==> ForeignKeys(DeleteTournament(t, tournament).value)
  {
    hide ForeignKeys;
    DeleteMatchesKeeps(t, ids);
    DeleteRoundsKeeps(t, ids);
    DeleteInputsKeeps(t, ids);
    DetachKeeps(t, i);
    DeleteStageItemKeeps(t, i);
    DeleteStageKeeps(t, tournament, i);
    DeleteRankingKeeps(t, tournament, i);
    DeleteBelongingsKeep(t, tournament);
    DeleteCourtsKeeps(t, tournament);
    DeleteLevelsKeeps(t, tournament);
    DeleteTournamentKeeps(t, tournament);
  }

  lemma DeleteMatchesKeeps(t: Tables, ids: set<Id>)
    requires ForeignKeys(t)
    ensures DeleteMatches(t, ids).Ok? ==> ForeignKeys(DeleteMatches(t, ids).value)
  {
    hide InputsRefer, StageItemsRefer, StagesRefer, RoundsRefer;
    hide LevelsRefer, TeamsRefer, PlayersRefer, MembershipsRefer, CourtsRefer, RankingsRefer, RankingPointsRefer;
    if !FedBy(t.matches, ids) {
      forall m | m in t.matches - ids ensures !Feeds(t.matches[m], ids) {}
    }
  }

  lemma DeleteRoundsKeeps(t: Tables, ids: set<Id>)
    requires ForeignKeys(t)
    ensures DeleteRounds(t, ids).Ok? ==> ForeignKeys(DeleteRounds(t, ids).value)
  {
    hide InputsRefer, StageItemsRefer, StagesRefer, MatchSetsRefer;
    hide LevelsRefer, TeamsRefer, PlayersRefer, MembershipsRefer, CourtsRefer, RankingsRefer, RankingPointsRefer;
  }

  lemma DeleteInputsKeeps(t: Tables, ids: set<Id>)
    requires ForeignKeys(t)
    ensures DeleteInputs(t, ids).Ok? ==> ForeignKeys(DeleteInputs(t, ids).value)
  {
    hide StageItemsRefer, StagesRefer, RoundsRefer;
    hide LevelsRefer, TeamsRefer, PlayersRefer, MembershipsRefer, CourtsRefer, RankingsRefer, RankingPointsRefer;
    if !PlayedIn(t.matches, ids) {
      forall m | m in t.matches ensures !Plays(t.matches[m], ids) {}
    }
  }

  lemma DetachKeeps(t: Tables, i: Id)
    requires ForeignKeys(t)
    ensures ForeignKeys(t.(inputs := Detached(t.inputs, {i})))
  {
    hide StageItemsRefer, StagesRefer, RoundsRefer, MatchSetsRefer;
    hide LevelsRefer, TeamsRefer, PlayersRefer, MembershipsRefer, CourtsRefer, RankingsRefer, RankingPointsRefer;
  }

  lemma DeleteStageItemKeeps(t: Tables, i: Id)
    requires ForeignKeys(t)
    ensures DeleteStageItem(t, i).Ok? ==> ForeignKeys(DeleteStageItem(t, i).value)
  {
    hide StagesRefer, MatchesRefer, PlayedIn, WithoutReferees;
    hide LevelsRefer, TeamsRefer, PlayersRefer, MembershipsRefer, CourtsRefer, RankingsRefer, RankingPointsRefer;
    if DeleteStageItem(t, i).Ok? { UnplayedRefer(t, InputsOfItem(t, i)); }
  }

  lemma UnplayedRefer(t: Tables, ids: set<Id>)
    requires MatchesRefer(t.matches, t.rounds.Keys, t.inputs.Keys, t.courts.Keys) && !PlayedIn(t.matches, ids)
    ensures MatchesRefer(WithoutReferees(t.matches, ids), t.rounds.Keys, (t.inputs - ids).Keys, t.courts.Keys)
    ensures WithoutReferees(t.matches, ids).Keys == t.matches.Keys
  {
    forall m | m in t.matches ensures !Plays(t.matches[m], ids) {}
  }

  lemma DeleteStageKeeps(t: Tables, tournament: Id, s: Id)
    requires ForeignKeys(t)
    ensures DeleteStage(t, tournament, s).Ok? ==> ForeignKeys(DeleteStage(t, tournament, s).value)
  {
    hide InputsRefer, RoundsRefer, MatchesRefer, MatchSetsRefer;
    hide LevelsRefer, TeamsRefer, PlayersRefer, MembershipsRefer, CourtsRefer, RankingsRefer, RankingPointsRefer;
  }

  lemma DeleteRankingKeeps(t: Tables, tournament: Id, r: Id)
    requires ForeignKeys(t)
    ensures DeleteRanking(t, tournament, r).Ok? ==> ForeignKeys(DeleteRanking(t, tournament, r).value)
  {
    hide InputsRefer, RoundsRefer, MatchesRefer, MatchSetsRefer, StagesRefer;
    hide LevelsRefer, TeamsRefer, PlayersRefer, MembershipsRefer, CourtsRefer;
  }

  lemma DeleteBelongingsKeep(t: Tables, tournament: Id)
    requires ForeignKeys(t)
    ensures DeletePlayersOf(t, tournament).Ok? ==> ForeignKeys(DeletePlayersOf(t, tournament).value)
    ensures DeleteTeamsOf(t, tournament).Ok? ==> ForeignKeys(DeleteTeamsOf(t, tournament).value)
  {
    hide RoundsRefer, MatchesRefer, MatchSetsRefer, StagesRefer, StageItemsRefer;
    hide LevelsRefer, CourtsRefer, RankingsRefer, RankingPointsRefer;
  }

  lemma DeleteCourtsKeeps(t: Tables, tournament: Id)
    requires ForeignKeys(t)
    ensures DeleteCourtsOf(t, tournament).Ok? ==> ForeignKeys(DeleteCourtsOf(t, tournament).value)
  {
    hide InputsRefer, RoundsRefer, MatchSetsRefer, StagesRefer, StageItemsRefer;
    hide LevelsRefer, TeamsRefer, PlayersRefer, MembershipsRefer, RankingsRefer, RankingPointsRefer;
  }

  lemma DeleteLevelsKeeps(t: Tables, tournament: Id)
    requires ForeignKeys(t)
    ensures DeleteLevelsOf(t, tournament).Ok? ==> ForeignKeys(DeleteLevelsOf(t, tournament).value)
  {
    hide InputsRefer, RoundsRefer, MatchesRefer, MatchSetsRefer, StageItemsRefer;
    hide MembershipsRefer, CourtsRefer, RankingPointsRefer;
  }

  lemma DeleteTournamentKeeps(t: Tables, tournament: Id)
    requires ForeignKeys(t)
    ensures DeleteTournament(t, tournament).Ok? ==> ForeignKeys(DeleteTournament(t, tournament).value)
  {
    hide RoundsRefer, MatchesRefer, MatchSetsRefer, StageItemsRefer, MembershipsRefer, RankingPointsRefer;
  }
}
