/** Editing a match may give it another round of the tournament, also one of another stage item. Neither its set rows
    nor what it plays with follow. */
module MatchMoves {
  import opened Schema
  import opened Progress
  import opened MatchSets
  import opened Deletion
  import opened Layout
  import opened ItemProgress
  import opened TournamentDeletion
  import opened ApplyPlan

  /** A court that is not named stays; one that is may be none. */
  datatype MoveBody = MoveBody(round: Id, court: Option<Option<Id>>)

  function Placed(t: Tables, m: Id, r: Id, court: Option<Id>): Tables
    requires m in t.matches
  {
    t.(matches := t.matches[m := t.matches[m].(round := r, court := court)])
  }

  predicate CourtKnown(t: Tables, tournament: Id, court: Option<Option<Id>>) {
    court.Some? && court.value.Some? ==> court.value.value in CourtsOf(t, tournament)
  }

  function MatchMoved(t: Tables, tournament: Id, m: Id, body: MoveBody): Result<Tables> {
    if m !in t.matches || !RoundInTournament(t, tournament, t.matches[m].round) then Err(Http(404))
    else if !RoundInTournament(t, tournament, body.round) || !CourtKnown(t, tournament, body.court) then Err(Http(400))
    else Ok(Placed(t, m, body.round, if body.court.Some? then body.court.value else t.matches[m].court))
  }

  method UpdateMatchById(db: Database, tournament: Id, m: Id, body: MoveBody) returns (error: Option<Error>)
    modifies db`matches
    ensures Ended(MatchMoved(old(db.Snapshot()), tournament, m, body), old(db.Snapshot()), db.Snapshot(), error)
  {
    if m !in db.matches || !RoundInTournament(db.Snapshot(), tournament, db.matches[m].round) {
      return Some(Http(404));
    }
    if !RoundInTournament(db.Snapshot(), tournament, body.round) { return Some(Http(400)); }
    if !CourtKnown(db.Snapshot(), tournament, body.court) { return Some(Http(400)); }
    var row := db.matches[m];
    var court := if body.court.Some? then body.court.value else row.court;
    db.matches := db.matches[m := row.(round := body.round, court := court)];
    return None;
  }

  /** A round of the tournament, by way of its item's stage. */
  predicate RoundAtHome(t: Tables, tournament: Id, r: Id) {
    r in t.rounds && HomeOf(t, t.rounds[r].stageItem) == Some(tournament)
  }

  /** An edit goes through exactly when the match and the new round are of the tournament, and so is the court if one
      is named; then the match has that round and the court that was named, none if that was, its own if nothing was,
      and nothing else has changed. */
  lemma MoveStores(t: Tables, tournament: Id, m: Id, body: MoveBody)
    ensures var r := MatchMoved(t, tournament, m, body);
            var mine := m in t.matches && RoundAtHome(t, tournament, t.matches[m].round);
            && (r.Ok? <==>
                  && mine && RoundAtHome(t, tournament, body.round)
                  && (body.court.Some? && body.court.value.Some? ==>
                        var c := body.court.value.value; c in t.courts && t.courts[c].tournament == tournament))
            && (r.Err? ==> r.error == if mine then Http(400) else Http(404))
            && (r.Ok? ==>
                  var t' := r.value;
                  && t' == t.(matches := t'.matches) && t'.matches.Keys == t.matches.Keys
                  && (forall x | x in t.matches && x != m :: t'.matches[x] == t.matches[x])
                  && t'.matches[m] == t.matches[m].(round := body.round, court := t'.matches[m].court)
                  && (body.court.None? ==> t'.matches[m].court == t.matches[m].court)
                  && (body.court.Some? ==> t'.matches[m].court == body.court.value))
  {
  }

  /** The set rows fit afterwards exactly when the new round's ranking asks for as many sets as the old one's. */
  lemma MoveKeepsProgress(t: Tables, tournament: Id, m: Id, body: MoveBody)
    requires ProgressOk(t) && MatchMoved(t, tournament, m, body).Ok?
    ensures ProgressOk(MatchMoved(t, tournament, m, body).value) <==>
              NumSetsForRound(t, body.round) == NumSetsForRound(t, t.matches[m].round)
  {
    var t' := MatchMoved(t, tournament, m, body).value;
    var was, now := NumSetsOf(t, m), NumSetsForRound(t, body.round);
    assert SetsFit(t, m);
    assert NumSetsOf(t', m) == now;
    assert SetsFit(t', m) <==> was == now by {
      if now >= 0 { SameRowsSameCount(RowsOf(t, m), was, now); }
    }
    forall x | x in t.matches && x != m ensures SetsFit(t', x) { FitsFrame(t, t', x); }
  }

  lemma SameRowsSameCount(rows: Rows, n: int, k: int)
    requires RowsAre(rows, n) && n >= 0 && k >= 0
    ensures RowsAre(rows, k) <==> n == k
  {
    if n < k { assert k !in rows; }
    if k < n { assert n in rows; }
  }

  /** Nothing ties the match to its stage item: it has no inputs, waits for no match and no match waits for it (one
      that waits for itself may still go to a bracket). */
  ghost predicate Untied(t: Tables, m: Id, r: Id)
    requires m in t.matches && r in t.rounds
  {
    && t.matches[m].input1.None? && t.matches[m].input2.None?
    && forall x, y | x in t.matches && y in t.matches && WaitsFor(t.matches[x], y) && (x == m || y == m) ::
         && x == y && t.rounds[r].stageItem in t.stageItems
         && t.stageItems[t.rounds[r].stageItem].kind == SingleElimination
  }

  ghost predicate StaysAtHome(t: Tables, m: Id, r: Id)
    requires m in t.matches && r in t.rounds
  {
    (t.matches[m].round in t.rounds && t.rounds[r].stageItem == t.rounds[t.matches[m].round].stageItem)
    || Untied(t, m, r)
  }

  /** And matches stay inside their items exactly when the round is one of the match's own item, or nothing ties
      the match to its item. */
  lemma MoveKeepsShape(t: Tables, tournament: Id, m: Id, body: MoveBody)
    requires Intact(t) && MatchMoved(t, tournament, m, body).Ok?
    ensures Intact(MatchMoved(t, tournament, m, body).value) <==> StaysAtHome(t, m, body.round)
  {
    hide ForeignKeys, IdsBelowSequence, UniqueTeams, UniqueSources, MatchesInside, Local, StaysAtHome, CourtKnown;
    MoveKeepsReferences(t, tournament, m, body);
    MoveKeepsInside(t, tournament, m, body);
    MoveKeepsLocal(t, tournament, m, body);
  }

  /** The round and the court were looked up in the tournament. */
  lemma MoveKeepsLocal(t: Tables, tournament: Id, m: Id, body: MoveBody)
    requires Local(t) && MatchMoved(t, tournament, m, body).Ok?
    ensures Local(MatchMoved(t, tournament, m, body).value)
  {
    hide LevelsLocal;
    var t' := MatchMoved(t, tournament, m, body).value;
    assert MatchLocal(t, t.matches[m]);
    RoundsHome(t, tournament, body.round);
    RoundsHome(t, tournament, t.matches[m].round);
    hide RoundInTournament;
    forall x | x in t'.matches ensures MatchLocal(t', t'.matches[x]) { assert MatchLocal(t, t.matches[x]); }
    forall x | x in t'.inputs ensures InputLocal(t', t'.inputs[x]) { assert InputLocal(t, t.inputs[x]); }
    SameLevels(t, t');
  }

  lemma RoundsHome(t: Tables, tournament: Id, r: Id)
    requires RoundInTournament(t, tournament, r)
    ensures r in t.rounds && HomeOf(t, t.rounds[r].stageItem) == Some(tournament)
  {
  }

  lemma SameLevels(t: Tables, t': Tables)
    requires LevelsLocal(t) && t' == t.(matches := t'.matches)
    ensures LevelsLocal(t')
  {
  }

  lemma MoveKeepsReferences(t: Tables, tournament: Id, m: Id, body: MoveBody)
    requires ForeignKeys(t) && MatchMoved(t, tournament, m, body).Ok?
    ensures ForeignKeys(MatchMoved(t, tournament, m, body).value)
    ensures IdsBelowSequence(t) ==> IdsBelowSequence(MatchMoved(t, tournament, m, body).value)
  {
    hide InputsRefer, StageItemsRefer, RoundsRefer, LevelsRefer, StagesRefer, TeamsRefer, PlayersRefer,
      MembershipsRefer, CourtsRefer, RankingsRefer, RankingPointsRefer;
    var t' := MatchMoved(t, tournament, m, body).value;
    assert t'.matches.Keys == t.matches.Keys;
    assert MatchRefers(t.matches[m], t.rounds.Keys, t.inputs.Keys, t.matches.Keys, t.courts.Keys);
  }

  lemma MoveKeepsInside(t: Tables, tournament: Id, m: Id, body: MoveBody)
    requires MatchesInside(t) && MatchMoved(t, tournament, m, body).Ok?
    ensures MatchesInside(MatchMoved(t, tournament, m, body).value) <==> StaysAtHome(t, m, body.round)
  {
    hide CourtKnown, MatchInside, StaysAtHome;
    var t' := MatchMoved(t, tournament, m, body).value;
    if StaysAtHome(t, m, body.round) {
      forall x | x in t'.matches ensures MatchInside(t', t'.matches[x]) { HomeIsInside(t, tournament, m, body, x); }
    }
    if MatchesInside(t') { InsideIsHome(t, t', m, body.round); }
  }

  lemma HomeIsInside(t: Tables, tournament: Id, m: Id, body: MoveBody, x: Id)
    requires MatchesInside(t) && MatchMoved(t, tournament, m, body).Ok? && x in t.matches
    requires StaysAtHome(t, m, body.round)
    ensures var t' := MatchMoved(t, tournament, m, body).value; MatchInside(t', t'.matches[x])
  {
    assert MatchInside(t, t.matches[x]) && MatchInside(t, t.matches[m]);
    assert t.matches[x].winnerFrom1.Some? ==> WaitsFor(t.matches[x], t.matches[x].winnerFrom1.value);
    assert t.matches[x].winnerFrom2.Some? ==> WaitsFor(t.matches[x], t.matches[x].winnerFrom2.value);
  }

  lemma InsideIsHome(t: Tables, t': Tables, m: Id, r: Id)
    requires MatchesInside(t) && m in t.matches && r in t.rounds
    requires m in t'.matches && t' == Placed(t, m, r, t'.matches[m].court) && MatchesInside(t')
    ensures StaysAtHome(t, m, r)
  {
    assert MatchInside(t, t.matches[m]) && MatchInside(t', t'.matches[m]);
    if t.rounds[r].stageItem != t.rounds[t.matches[m].round].stageItem {
      forall x, y | x in t.matches && y in t.matches && WaitsFor(t.matches[x], y) && (x == m || y == m)
        ensures x == y && t.rounds[r].stageItem in t.stageItems
        ensures t.stageItems[t.rounds[r].stageItem].kind == SingleElimination
      {
        assert MatchInside(t, t.matches[x]) && MatchInside(t', t'.matches[x]);
      }
    }
  }

  const UNMOVED_FINAL := FED_ACROSS.matches[23].(round := 6)

  /** A bracket of four and one of two as the builder makes them. */
  const TWO_BRACKETS := FED_ACROSS.(matches := FED_ACROSS.matches[23 := UNMOVED_FINAL])

  /** How feeding comes to run between items: one edit moves the final of the first bracket into the round of the
      second. */
  lemma FinalMovedAcross()
    ensures MatchesInside(TWO_BRACKETS) && MatchMoved(TWO_BRACKETS, 1, 23, MoveBody(7, None)) == Ok(FED_ACROSS)
    ensures !MatchesInside(FED_ACROSS)
  {
    hide MatchesInside, MatchMoved;
    BracketsAreInside();
    FinalMoves();
    AcrossIsNotInside();
  }

  lemma BracketsAreInside()
    ensures MatchesInside(TWO_BRACKETS)
  {
    forall m | m in TWO_BRACKETS.matches ensures MatchInside(TWO_BRACKETS, TWO_BRACKETS.matches[m]) {}
  }

  lemma FinalMoves()
    ensures MatchMoved(TWO_BRACKETS, 1, 23, MoveBody(7, None)) == Ok(FED_ACROSS)
  {
    assert RoundInTournament(TWO_BRACKETS, 1, 6) && RoundInTournament(TWO_BRACKETS, 1, 7);
    assert TWO_BRACKETS.matches[23 := UNMOVED_FINAL.(round := 7)] == FED_ACROSS.matches;
  }

  lemma AcrossIsNotInside()
    ensures !MatchesInside(FED_ACROSS)
  {
    assert 23 in FED_ACROSS.matches && !MatchInside(FED_ACROSS, FED_ACROSS.matches[23]);
  }

  /** Beside the item of four a Mexicano item of two on the three-set ranking, as the builder makes it. */
  const TWO_MEXICANOS :=
    MEXICANO_OF_FOUR.(
      stageItems := MEXICANO_OF_FOUR.stageItems[15 := StageItem(2, Mexicano, 2, 4, Some(1), 1)],
      inputs := MEXICANO_OF_FOUR.inputs[16 := EMPTY_SLOT.(stageItem := 15)]
                                       [17 := EMPTY_SLOT.(stageItem := 15, slot := 2)],
      rounds := MEXICANO_OF_FOUR.rounds[18 := Round(15, Placeholder)],
      matches := MEXICANO_OF_FOUR.matches[19 := POSITIONS.(round := 18)],
      matchSets := MEXICANO_OF_FOUR.matchSets[19 := map[1 := ZERO, 2 := ZERO, 3 := ZERO]],
      nextId := 20)

  lemma TwoFit()
    ensures AllSetsFit(TWO_MEXICANOS)
  {
    var t := TWO_MEXICANOS;
    forall m | m in t.matches ensures SetsFit(t, m) {
      assert NumSetsOf(t, m) == (if m == 19 then 3 else 1) && RowsAre(RowsOf(t, m), NumSetsOf(t, m));
    }
  }

  lemma TwoRefer()
    ensures ChainRefers(TWO_MEXICANOS)
  {
    hide IdsBelowSequence, StageItemsRefer, RoundsRefer;
    TwoIds();
    TwoItems();
  }

  lemma TwoIds()
    ensures IdsBelowSequence(TWO_MEXICANOS)
  {
    var t, was := TWO_MEXICANOS, MEXICANO_OF_FOUR;
    assert IdsBelowSequence(was) by { FourIds(); }
    forall x | x in t.stageItems ensures x < t.nextId { assert x in was.stageItems || x == 15; }
    forall x | x in t.inputs ensures x < t.nextId { assert x in was.inputs || x == 16 || x == 17; }
    forall x | x in t.rounds ensures x < t.nextId { assert x in was.rounds || x == 18; }
    forall x | x in t.matches ensures x < t.nextId { assert x in was.matches || x == 19; }
  }

  lemma TwoItems()
    ensures StageItemsRefer(TWO_MEXICANOS.stageItems, TWO_MEXICANOS.stages.Keys, TWO_MEXICANOS.rankings.Keys)
    ensures RoundsRefer(TWO_MEXICANOS.rounds, TWO_MEXICANOS.stageItems.Keys)
  {
  }

  lemma TwoMove()
    ensures MatchMoved(TWO_MEXICANOS, 1, 7, MoveBody(18, None)) == Ok(Placed(TWO_MEXICANOS, 7, 18, None))
    ensures NumSetsForRound(TWO_MEXICANOS, 18) == 3
    ensures NumSetsForRound(TWO_MEXICANOS, TWO_MEXICANOS.matches[7].round) == 1
    ensures StaysAtHome(TWO_MEXICANOS, 7, 18)
  {
    assert RoundInTournament(TWO_MEXICANOS, 1, 6) && RoundInTournament(TWO_MEXICANOS, 1, 18);
  }

  /** A placeholder match, which nothing ties to its item, moves to the round of the other: the request goes through,
      and the match has one set row where its new ranking asks for three. */
  lemma MoveLeavesSetsBehind()
    ensures ProgressOk(TWO_MEXICANOS) && StaysAtHome(TWO_MEXICANOS, 7, 18)
    ensures var r := MatchMoved(TWO_MEXICANOS, 1, 7, MoveBody(18, None));
            r.Ok? && !ProgressOk(r.value) && 7 in r.value.matches && NumSetsOf(r.value, 7) == 3 &&
            |RowsOf(r.value, 7)| == 1
  {
    hide ChainRefers, AllSetsFit, MatchMoved, StaysAtHome;
    TwoFit();
    TwoRefer();
    TwoMove();
    MoveKeepsProgress(TWO_MEXICANOS, 1, 7, MoveBody(18, None));
    assert RowsOf(TWO_MEXICANOS, 7) == map[1 := ZERO];
  }
}
