/** The requests of the program, what each does to the database, and when it keeps the database healthy. */
module Requests {
  import opened Schema
  import opened MatchSets
  import opened Rankings
  import opened Deletion
  import opened Cascades
  import opened TournamentDeletion
  import opened ItemMatches
  import opened Layout
  import opened StageItems
  import opened ItemProgress
  import opened ItemLayout
  import opened ItemCompletion
  import opened ItemCreation
  import opened MatchMoves
  import opened Health
  import opened Removals
  import opened Reconciliation

  datatype Request =
    | EditRanking(tournament: Id, ranking: Id, rankingBody: RankingBody, force: bool)
    | AddRanking(tournament: Id, rankingBody: RankingBody)
    | RemoveRanking(tournament: Id, ranking: Id)
    | SetStageRanking(tournament: Id, stage: Id, ranking: Id)
    | AddItem(tournament: Id, newItem: NewItemBody)
    | UpdateItem(tournament: Id, item: Id, body: ItemBody)
    | RemoveItem(tournament: Id, item: Id)
    | RemoveStage(tournament: Id, stage: Id)
    | RemoveTournament(tournament: Id)
    | MoveMatch(tournament: Id, m: Id, moveBody: MoveBody)
    | StartSet(m: Id)
    | EndSet(m: Id)
    | ReopenSet(m: Id)
    | ResetProgress(m: Id)
    | EditSetScore(m: Id, set_: int, score: Score)
    | OtherRequest  // one that writes nothing modelled here, such as a change of a team, before its reconciliation

  function RemovedItem(t: Tables, tournament: Id, i: Id): Result<Tables> {
    if !BelongsTo(t, tournament, i) then Err(Http(400)) else DeletedItem(t, i)
  }

  /** The items go by id; from a healthy database any order gives the same. */
  function RemovedStage(t: Tables, tournament: Id, stage: Id): Result<Tables> {
    if stage !in t.stages || t.stages[stage].tournament != tournament then Err(Http(404))
    else StageDeleted(t, tournament, stage, Ids(ItemsOfStage(t, stage)))
  }

  function Outcome(t: Tables, request: Request, skeletons: Skeletons): Finish
    requires IdsBelowSequence(t)
  {
    match request
    case AddItem(tournament, body) => CreateStageItem(t, tournament, body, skeletons)
    case UpdateItem(tournament, item, body) => Transaction(t, UpdateStageItem(t, tournament, item, body, skeletons))
    case _ => Transaction(t, Simple(t, request))
  }

  /** The requests that build nothing. The deletion of a tournament is no transaction, but from a healthy database it
      does not fail. */
  function Simple(t: Tables, request: Request): Result<Tables>
    requires !request.AddItem? && !request.UpdateItem?
  {
    match request
    case EditRanking(tournament, ranking, body, force) => UpdateRanking(t, tournament, ranking, body, force)
    case AddRanking(tournament, body) => CreateRanking(t, tournament, body)
    case RemoveRanking(tournament, ranking) => DeleteRanking(t, tournament, ranking)
    case SetStageRanking(tournament, stage, ranking) => SetRankingForStage(t, tournament, stage, ranking)
    case RemoveItem(tournament, item) => RemovedItem(t, tournament, item)
    case RemoveStage(tournament, stage) => RemovedStage(t, tournament, stage)
    case RemoveTournament(tournament) => DeleteCompletely(t, tournament)
    case OtherRequest => Ok(t)
    case MoveMatch(tournament, m, body) => MatchMoved(t, tournament, m, body)
    case StartSet(m) => StartMatch(t, m)
    case EndSet(m) => EndMatch(t, m)
    case ReopenSet(m) => ReopenMatch(t, m)
    case ResetProgress(m) => ResetMatch(t, m)
    case EditSetScore(m, k, score) => EditScore(t, m, k, score)
  }

  predicate OnOneMatch(request: Request) {
    request.StartSet? || request.EndSet? || request.ReopenSet? || request.ResetProgress? || request.EditSetScore?
  }

  // ---------------------------------------------------------------- what a caller can check

  /** A new item needs a ranking of the tournament, and one that asks for a set if building the item creates a
      match. */
  ghost predicate HarmlessCreation(t: Tables, tournament: Id, body: NewItemBody, skeletons: Skeletons) {
    CreationRefused(t, tournament, body).None? ==>
      var chosen := ChosenRanking(t, tournament, body);
      && chosen.Some? && RankingIn(t, tournament, chosen.value).Some?
      && (CreatesMatch(body, skeletons) ==> t.rankings[chosen.value].rules.numSets >= 1)
  }

  /** The last step of the update will add matches: a bracket is resized, or a round robin some of whose inputs will
      lack a match. */
  ghost predicate WillAddMatch(t: Tables, i: Id, body: ItemBody)
    requires i in t.stageItems
  {
    && body.teamCount != t.stageItems[i].teamCount
    && match t.stageItems[i].kind
       case RoundRobin => WillLackPair(t, i, body.teamCount)
       case SingleElimination => true
       case _ => false
  }

  /** An update needs a ranking of the tournament; one that adds games must not change the number of sets along with
      them, and one that adds matches at the end needs a ranking that asks for a set. */
  ghost predicate HarmlessUpdate(t: Tables, tournament: Id, i: Id, body: ItemBody, skeletons: Skeletons)
    requires i in t.stageItems
  {
    && RankingIn(t, tournament, body.ranking).Some?
    && var was, now := NumSetsOfItem(t, i), t.rankings[body.ranking].rules.numSets;
       && (GrowthAddsMatch(t, i, body, skeletons) ==> Max(was, 1) == now)
       && (WillAddMatch(t, i, body) ==> now >= 1)
  }

  /** A match may go to a round of its own item, or to another item if nothing ties it to its own, provided that the
      new round's ranking asks for as many sets. */
  ghost predicate HarmlessMove(t: Tables, m: Id, body: MoveBody)
    requires m in t.matches && body.round in t.rounds
  {
    && NumSetsForRound(t, body.round) == NumSetsForRound(t, t.matches[m].round)
    && StaysAtHome(t, m, body.round)
  }

  /** The state before and the request decide. Refused requests are harmless. */
  ghost predicate Harmless(t: Tables, request: Request, skeletons: Skeletons)
    requires IdsBelowSequence(t)
  {
    match request
    case AddItem(tournament, body) => HarmlessCreation(t, tournament, body, skeletons)
    case UpdateItem(tournament, item, body) =>
      UpdateStageItem(t, tournament, item, body, skeletons).Ok? ==>
        item in t.stageItems && HarmlessUpdate(t, tournament, item, body, skeletons)
    case MoveMatch(tournament, m, body) => MatchMoved(t, tournament, m, body).Ok? ==> HarmlessMove(t, m, body)
    case _ => true
  }

  // ---------------------------------------------------------------- one request

  lemma CreationStep(t: Tables, tournament: Id, body: NewItemBody, skeletons: Skeletons)
    requires Healthy(t) && IdsBelowSequence(t)
    ensures var t' := CreateStageItem(t, tournament, body, skeletons).after;
            (Healthy(t') <==> HarmlessCreation(t, tournament, body, skeletons)) && OrderKept(t, t')
  {
    hide ProgressOk, ParityOk, Tenancy, Intact, SlotsOk, PositionsOk, ChosenRanking, CreatesMatch, BuildItem, BareItem,
      OrderKept;
    HasForeignKeys(t);
    CreateStageItemKeeps(t, tournament, body, skeletons);
    CreateKeepsLayout(t, tournament, body, skeletons);
  }

  lemma HasForeignKeys(t: Tables)
    requires Healthy(t)
    ensures ForeignKeys(t) && IdsBelowSequence(t) && Sequenced(t)
  {
  }

  lemma UpdateStep(t: Tables, tournament: Id, i: Id, body: ItemBody, skeletons: Skeletons)
    requires Healthy(t) && Sequenced(t) && UpdateStageItem(t, tournament, i, body, skeletons).Ok?
    ensures i in t.stageItems
    ensures var t' := UpdateStageItem(t, tournament, i, body, skeletons).value;
            (Healthy(t') <==> HarmlessUpdate(t, tournament, i, body, skeletons)) && OrderKept(t, t')
  {
    hide ProgressOk, ParityOk, Tenancy, Intact, SlotsOk, PositionsOk, UpdateStageItem, GrowthAddsMatch, WillLackPair,
      CompletionAddsMatch, HasOldMatch, NumSetsOfItem, Sequenced, OrderKept;
    UpdateStageItemKeeps(t, tournament, i, body, skeletons);
    UpdateStageItemKeepsParity(t, tournament, i, body, skeletons);
    UpdateKeepsLayout(t, tournament, i, body, skeletons);
    CompletionAddsExactly(t, tournament, i, body, skeletons);
  }

  lemma MoveStep(t: Tables, tournament: Id, m: Id, body: MoveBody)
    requires Healthy(t) && MatchMoved(t, tournament, m, body).Ok?
    ensures m in t.matches && body.round in t.rounds
    ensures var t' := MatchMoved(t, tournament, m, body).value;
            (Healthy(t') <==> HarmlessMove(t, m, body)) && OrderKept(t, t')
  {
    hide ProgressOk, ParityOk, Tenancy, Intact, SlotsOk, PositionsOk, StaysAtHome, LayoutKept, OrderKept, CourtKnown;
    var t' := MatchMoved(t, tournament, m, body).value;
    MoveKeepsProgress(t, tournament, m, body);
    MoveKeepsShape(t, tournament, m, body);
    SameTenancy(t, t');
    SameItemsAndInputs(t, t');
    KeepsLayout(t, t');
  }

  lemma SimpleStep(t: Tables, request: Request)
    requires Healthy(t)
    requires !request.AddItem? && !request.UpdateItem? && !request.MoveMatch?
    ensures Simple(t, request).Ok? ==> Healthy(Simple(t, request).value) && OrderKept(t, Simple(t, request).value)
  {
    hide Healthy, UpdateRanking, CreateRanking, DeleteRanking, SetRankingForStage, DeletedItem, WithoutItem,
      StageDeleted, DeleteCompletely, StartMatch, EndMatch, ReopenMatch, ResetMatch, EditScore, OrderKept,
      WithoutTournament, WithoutItems;
    if OnOneMatch(request) {
      ProgressStep(t, request);
    } else if Simple(t, request).Ok? {
      match request
      case EditRanking(tournament, ranking, body, force) => EditKeepsHealth(t, tournament, ranking, body, force);
      case AddRanking(tournament, body) => CreationKeepsHealth(t, tournament, body);
      case RemoveRanking(tournament, ranking) => RankingRemovalKeepsHealth(t, tournament, ranking);
      case SetStageRanking(tournament, stage, ranking) => StageMoveKeepsHealth(t, tournament, stage, ranking);
      case RemoveItem(tournament, item) => ItemRemovalKeepsHealth(t, item);
      case RemoveStage(tournament, stage) => StageStep(t, tournament, stage);
      case RemoveTournament(tournament) => TournamentRemovalKeepsHealth(t, tournament);
      case OtherRequest => OtherStep(t);
    }
  }

  lemma StageStep(t: Tables, tournament: Id, stage: Id)
    requires Healthy(t)
    ensures stage in t.stages && t.stages[stage].tournament == tournament <==> RemovedStage(t, tournament, stage).Ok?
    ensures RemovedStage(t, tournament, stage).Ok? ==>
              var t' := RemovedStage(t, tournament, stage).value; Healthy(t') && OrderKept(t, t')
  {
    hide Healthy, StageDeleted, ItemsOfStage, OrderKept, Lists, WithoutItems;
    IdsList(ItemsOfStage(t, stage));
    if stage in t.stages && t.stages[stage].tournament == tournament {
      StageRemovalKeepsHealth(t, tournament, stage, Ids(ItemsOfStage(t, stage)));
    }
  }

  lemma OtherStep(t: Tables)
    requires Healthy(t)
    ensures OrderKept(t, t)
  {
    HasForeignKeys(t);
    NothingMoves(t);
  }

  lemma ProgressStep(t: Tables, request: Request)
    requires Healthy(t) && OnOneMatch(request)
    ensures Simple(t, request).Ok? ==> Healthy(Simple(t, request).value) && OrderKept(t, Simple(t, request).value)
  {
    hide Healthy, StartMatch, EndMatch, ReopenMatch, ResetMatch, EditScore, OrderKept;
    match request
    case StartSet(m) => StepsKeepHealth(t, m, 0, ZERO);
    case EndSet(m) => StepsKeepHealth(t, m, 0, ZERO);
    case ReopenSet(m) => StepsKeepHealth(t, m, 0, ZERO);
    case ResetProgress(m) => StepsKeepHealth(t, m, 0, ZERO);
    case EditSetScore(m, k, score) => StepsKeepHealth(t, m, k, score);
    case _ =>
  }

  /** One request leaves a healthy database healthy exactly when it is harmless; whatever it does, inputs that stay
      keep their order. */
  lemma RequestKeepsHealth(t: Tables, request: Request, skeletons: Skeletons)
    requires Healthy(t) && IdsBelowSequence(t)
    ensures Healthy(Outcome(t, request, skeletons).after) <==> Harmless(t, request, skeletons)
    ensures OrderKept(t, Outcome(t, request, skeletons).after)
  {
    hide Healthy, CreateStageItem, UpdateStageItem, Simple, HarmlessCreation, HarmlessUpdate, HarmlessMove, OrderKept,
      IdsBelowSequence, Sequenced;
    HasForeignKeys(t);
    NothingMoves(t);
    match request
    case AddItem(tournament, body) => CreationStep(t, tournament, body, skeletons);
    case UpdateItem(tournament, item, body) =>
      if UpdateStageItem(t, tournament, item, body, skeletons).Ok? {
        UpdateStep(t, tournament, item, body, skeletons);
      }
    case MoveMatch(tournament, m, body) => MovedStep(t, request, skeletons);
    case _ => SimpleStep(t, request);
  }

  lemma MovedStep(t: Tables, request: Request, skeletons: Skeletons)
    requires Healthy(t) && IdsBelowSequence(t) && request.MoveMatch? && OrderKept(t, t)
    ensures Healthy(Outcome(t, request, skeletons).after) <==> Harmless(t, request, skeletons)
    ensures OrderKept(t, Outcome(t, request, skeletons).after)
  {
    hide Healthy, MatchMoved, HarmlessMove, OrderKept, IdsBelowSequence;
    if MatchMoved(t, request.tournament, request.m, request.moveBody).Ok? {
      MoveStep(t, request.tournament, request.m, request.moveBody);
    }
  }

  /** A tournament with one stage and a one-set ranking is a place to start from. */
  lemma EmptyStageIsHealthy()
    ensures Healthy(EMPTY_STAGE)
  {
    EmptyStageIsIntact();
  }

  /** What is of the tournament can always be deleted from a healthy database, with exactly what is below it, and
      updates never end in a failure of the program. */
  lemma HealthyNeverStuck(t: Tables, request: Request, skeletons: Skeletons)
    requires Healthy(t) && IdsBelowSequence(t)
    ensures request.RemoveItem? ==>
              Outcome(t, request, skeletons)
              == if BelongsTo(t, request.tournament, request.item) then Finish(WithoutItem(t, request.item), None)
                 else Finish(t, Some(Http(400)))
    ensures request.RemoveStage? ==>
              Outcome(t, request, skeletons)
              == if request.stage in t.stages && t.stages[request.stage].tournament == request.tournament
                 then Finish(WithoutItems(t, ItemsOfStage(t, request.stage))
                               .(stages := t.stages - {request.stage}), None)
                 else Finish(t, Some(Http(404)))
    ensures request.RemoveTournament? ==>
              Outcome(t, request, skeletons) == Finish(WithoutTournament(t, request.tournament), None)
    ensures request.UpdateItem? ==> Outcome(t, request, skeletons).error != Some(Http(500))
  {
    hide Healthy, Intact, SlotsOk, PositionsOk, UpdateStageItem, DeletedItem, WithoutItem, StageDeleted,
      DeleteCompletely, WithoutTournament, WithoutItems, OrderKept, Sequenced, IdsBelowSequence,
      CreateStageItem;
    HealthParts(t);
    HasForeignKeys(t);
    match request
    case RemoveItem(tournament, item) => ItemRemovalKeepsHealth(t, item);
    case RemoveStage(tournament, stage) =>
      if stage in t.stages && t.stages[stage].tournament == tournament {
        IdsList(ItemsOfStage(t, stage));
        StageRemovalKeepsHealth(t, tournament, stage, Ids(ItemsOfStage(t, stage)));
      }
    case RemoveTournament(tournament) => TournamentRemovalKeepsHealth(t, tournament);
    case UpdateItem(tournament, item, body) => UpdateNeverCrashes(t, tournament, item, body, skeletons);
    case _ =>
  }

  // ---------------------------------------------------------------- the program

  method DeleteStageItem(db: Database, tournament: Id, i: Id) returns (error: Option<Error>)
    requires ForeignKeys(db.Snapshot())
    modifies db
    ensures Ended(RemovedItem(old(db.Snapshot()), tournament, i), old(db.Snapshot()), db.Snapshot(), error)
  {
    hide ForeignKeys, DeletedItem;
    if !BelongsTo(db.Snapshot(), tournament, i) { return Some(Http(400)); }
    error := SqlDeleteStageItemWithForeignKeys(db, i);
  }

  method DeleteStage(db: Database, tournament: Id, stage: Id) returns (error: Option<Error>)
    requires ForeignKeys(db.Snapshot())
    modifies db
    ensures Ended(RemovedStage(old(db.Snapshot()), tournament, stage), old(db.Snapshot()), db.Snapshot(), error)
  {
    hide ForeignKeys, StageDeleted, ItemsOfStage, Lists;
    if stage !in db.stages || db.stages[stage].tournament != tournament { return Some(Http(404)); }
    IdsList(ItemsOfStage(db.Snapshot(), stage));
    error := SqlDeleteStage(db, tournament, stage, Ids(ItemsOfStage(db.Snapshot(), stage)));
  }

  method DeleteTournament(db: Database, tournament: Id) returns (error: Option<Error>)
    requires Healthy(db.Snapshot())
    modifies db
    ensures Ended(DeleteCompletely(old(db.Snapshot()), tournament), old(db.Snapshot()), db.Snapshot(), error)
  {
    hide Healthy, ForeignKeys, DeleteCompletely, WithoutTournament, OrderKept;
    HasForeignKeys(db.Snapshot());
    TournamentRemovalKeepsHealth(db.Snapshot(), tournament);
    error := SqlDeleteTournamentCompletely(db, tournament);
  }

  method HandleProgress(db: Database, request: Request) returns (error: Option<Error>)
    requires OnOneMatch(request)
    modifies db
    ensures Ended(Simple(old(db.Snapshot()), request), old(db.Snapshot()), db.Snapshot(), error)
  {
    hide StartMatch, EndMatch, ReopenMatch, ResetMatch, EditScore;
    if request.StartSet? {
      error := SqlStartMatch(db, request.m);
    } else if request.EndSet? {
      error := SqlEndMatch(db, request.m);
    } else if request.ReopenSet? {
      error := SqlReopenMatch(db, request.m);
    } else if request.ResetProgress? {
      error := SqlResetMatch(db, request.m);
    } else {
      error := SqlScoreEditMatchSet(db, request.m, request.set_, request.score);
    }
  }

  method HandleSimple(db: Database, request: Request) returns (error: Option<Error>)
    requires Healthy(db.Snapshot())
    requires !request.AddItem? && !request.UpdateItem?
    modifies db
    ensures Ended(Simple(old(db.Snapshot()), request), old(db.Snapshot()), db.Snapshot(), error)
  {
    hide Healthy, ForeignKeys, UpdateRanking, CreateRanking, DeleteRanking, SetRankingForStage, RemovedItem,
      RemovedStage, DeleteCompletely, MatchMoved, StartMatch, EndMatch, ReopenMatch, ResetMatch,
      EditScore;
    if OnOneMatch(request) {
      error := HandleProgress(db, request);
      return;
    }
    HasForeignKeys(db.Snapshot());
    match request {
      case EditRanking(tournament, r, body, force) => error := UpdateRankingById(db, tournament, r, body, force);
      case AddRanking(tournament, body) => error := CreateRankingIn(db, tournament, body);
      case RemoveRanking(tournament, r) => error := SqlDeleteRanking(db, tournament, r);
      case SetStageRanking(tournament, stage, r) => error := SetRankingForStageItems(db, tournament, stage, r);
      case RemoveItem(tournament, item) => error := DeleteStageItem(db, tournament, item);
      case RemoveStage(tournament, stage) => error := DeleteStage(db, tournament, stage);
      case RemoveTournament(tournament) => error := DeleteTournament(db, tournament);
      case OtherRequest => error := None;
      case MoveMatch(tournament, m, body) => error := UpdateMatchById(db, tournament, m, body);
    }
  }

  /** The program behind one request. */
  method Handle(db: Database, request: Request, skeletons: Skeletons) returns (error: Option<Error>)
    requires Healthy(db.Snapshot()) && IdsBelowSequence(db.Snapshot())
    modifies db
    ensures Finish(db.Snapshot(), error) == Outcome(old(db.Snapshot()), request, skeletons)
  {
    hide Healthy, ForeignKeys, IdsBelowSequence, Sequenced, UpdateStageItem, CreateStageItem, Simple;
    HasForeignKeys(db.Snapshot());
    match request {
      case AddItem(tournament, body) => error := CreateStageItemIn(db, tournament, body, skeletons);
      case UpdateItem(tournament, item, body) => error := UpdateStageItemById(db, tournament, item, body, skeletons);
      case _ => error := HandleSimple(db, request);
    }
  }
}
