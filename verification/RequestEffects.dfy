/** Every request from a healthy database: with which error it ends, and what it leaves behind if it ends with none. */
module RequestEffects {
  import opened Schema
  import opened Progress
  import opened MatchSets
  import opened SetResize
  import opened Rankings
  import opened Deletion
  import opened Cascades
  import opened TournamentDeletion
  import opened Layout
  import opened StageItems
  import opened MatchMoves
  import opened ItemOutcome
  import opened Health
  import opened Requests

  // ---------------------------------------------------------------- errors

  ghost predicate OfTournament(t: Tables, tournament: Id, stage: Id) {
    stage in t.stages && t.stages[stage].tournament == tournament
  }

  ghost predicate MayMove(t: Tables, tournament: Id, body: MoveBody) {
    && RoundAtHome(t, tournament, body.round)
    && (body.court.Some? && body.court.value.Some? ==>
          body.court.value.value in t.courts && t.courts[body.court.value.value].tournament == tournament)
  }

  /** A step of a match fails if there is no such match, or if the match is in no state for it. */
  ghost function StepFails(t: Tables, m: Id, possible: bool): Option<Error> {
    if m !in t.matches then Some(NotFound) else if !possible then Some(IllegalTransition) else None
  }

  /** With which error a request ends. */
  ghost function WhyFails(t: Tables, request: Request, skeletons: Skeletons): Option<Error> {
    match request
    case EditRanking(tournament, ranking, body, force) => EditRefused(t, tournament, ranking, body, force)
    case AddRanking(tournament, body) =>
      if !body.rules.playAllSets && body.rules.numSets > 1 && body.rules.numSets % 2 == 0 then Some(Http(422))
      else if tournament !in t.tournaments then Some(ForeignKeyViolation) else None
    case RemoveRanking(tournament, ranking) =>
      if ranking in RankingsOf(t, tournament) && exists i | i in t.stageItems :: t.stageItems[i].ranking == ranking
      then Some(ForeignKeyViolation) else None
    case SetStageRanking(tournament, stage, ranking) => MoveRefused(t, tournament, stage, ranking)
    case AddItem(tournament, body) => WhyNotCreated(t, tournament, body)
    case UpdateItem(tournament, item, body) => WhyRefused(t, tournament, item, body, skeletons)
    case RemoveItem(tournament, item) => if HomeOf(t, item) != Some(tournament) then Some(Http(400)) else None
    case RemoveStage(tournament, stage) => if !OfTournament(t, tournament, stage) then Some(Http(404)) else None
    case RemoveTournament(tournament) => None
    case MoveMatch(tournament, m, body) =>
      if m !in t.matches || !RoundAtHome(t, tournament, t.matches[m].round) then Some(Http(404))
      else if !MayMove(t, tournament, body) then Some(Http(400)) else None
    case StartSet(m) =>
      StepFails(t, m, m in t.matches && RowsOf(t, m) != map[] && !HasSet(t, m, InProgress)
                      && StateOfMatch(t, m) != Completed)
    case EndSet(m) => StepFails(t, m, m in t.matches && HasSet(t, m, InProgress))
    case ReopenSet(m) => StepFails(t, m, m in t.matches && HasSet(t, m, Completed))
    case ResetProgress(m) => if m !in t.matches then Some(NotFound) else None
    case EditSetScore(m, k, score) => if m !in t.matches || k !in RowsOf(t, m) then Some(NotFound) else None
    case OtherRequest => None
  }

  lemma StepErrors(t: Tables, request: Request, skeletons: Skeletons)
    requires ProgressOk(t) && OnOneMatch(request)
    ensures match WhyFails(t, request, skeletons)
            case Some(e) => Simple(t, request) == Err(e)
            case None => Simple(t, request).Ok?
  {
    hide ProgressOk, StateOfMatch, HasSet, StartMatch, EndMatch, ReopenMatch, ResetMatch, EditScore;
    match request
    case StartSet(m) => StartsExactly(t, m);
    case EndSet(m) => EndsExactly(t, m);
    case ReopenSet(m) => EndsExactly(t, m);
    case ResetProgress(m) => StepsTouchOneMatch(t, m); ResetError(t, m);
    case EditSetScore(m, k, score) => EditsOneScore(t, m, k, score);
  }

  lemma ResetError(t: Tables, m: Id)
    ensures ResetMatch(t, m).Err? ==> ResetMatch(t, m).error == NotFound
  {
  }

  lemma RankingErrors(t: Tables, request: Request, skeletons: Skeletons)
    requires ProgressOk(t) && Tenancy(t) && t.nextId !in t.rankings
    requires request.EditRanking? || request.AddRanking? || request.RemoveRanking? || request.SetStageRanking?
    ensures match WhyFails(t, request, skeletons)
            case Some(e) => Simple(t, request) == Err(e)
            case None => Simple(t, request).Ok?
  {
    hide ProgressOk, Tenancy, UpdateRanking, DeleteRanking, SetRankingForStage, EditRefused, MoveRefused, RankingsOf,
      NextPosition;
    match request
    case EditRanking(tournament, r, body, force) => EditGoesThrough(t, tournament, r, body, force);
    case AddRanking(tournament, body) => NormalStores(body.rules);
    case RemoveRanking(tournament, r) => RankingGoes(t, tournament, r);
    case SetStageRanking(tournament, stage, r) => SetRankingForStageStores(t, tournament, stage, r);
  }

  lemma ItemErrors(t: Tables, request: Request, skeletons: Skeletons)
    requires Healthy(t) && IdsBelowSequence(t) && (request.AddItem? || request.UpdateItem?)
    ensures Outcome(t, request, skeletons).error == WhyFails(t, request, skeletons)
  {
    hide Intact, ProgressOk, Tenancy, ParityOk, SlotsOk, PositionsOk, IdsBelowSequence, Sequenced, CreateStageItem,
      UpdateStageItem, WhyNotCreated, WhyRefused;
    HasForeignKeys(t);
    match request
    case AddItem(tournament, body) => CreationOutcome(t, tournament, body, skeletons);
    case UpdateItem(tournament, item, body) => UpdateOutcome(t, tournament, item, body, skeletons);
  }

  lemma RemovalErrors(t: Tables, request: Request, skeletons: Skeletons)
    requires Healthy(t) && IdsBelowSequence(t)
    requires request.RemoveItem? || request.RemoveStage? || request.RemoveTournament?
    ensures Outcome(t, request, skeletons).error == WhyFails(t, request, skeletons)
  {
    hide Healthy, IdsBelowSequence, Outcome;
    HealthyNeverStuck(t, request, skeletons);
  }

  /** From a healthy database every request ends with exactly the error its inputs and the state deserve, or with
      none. */
  lemma RequestFails(t: Tables, request: Request, skeletons: Skeletons)
    requires Healthy(t) && IdsBelowSequence(t)
    ensures Outcome(t, request, skeletons).error == WhyFails(t, request, skeletons)
  {
    hide Healthy, IdsBelowSequence, Simple, WhyFails;
    HealthParts(t);
    RankingIdsBelow(t);
    match request
    case AddItem(_, _) => ItemErrors(t, request, skeletons);
    case UpdateItem(_, _, _) => ItemErrors(t, request, skeletons);
    case RemoveItem(_, _) => RemovalErrors(t, request, skeletons);
    case RemoveStage(_, _) => RemovalErrors(t, request, skeletons);
    case RemoveTournament(_) => RemovalErrors(t, request, skeletons);
    case EditRanking(_, _, _, _) => RankingErrors(t, request, skeletons);
    case AddRanking(_, _) => RankingErrors(t, request, skeletons);
    case RemoveRanking(_, _) => RankingErrors(t, request, skeletons);
    case SetStageRanking(_, _, _) => RankingErrors(t, request, skeletons);
    case MoveMatch(_, _, _) => MoveErrors(t, request, skeletons);
    case OtherRequest => NothingFails(t, skeletons);
    case _ => StepErrors(t, request, skeletons);
  }

  lemma RankingIdsBelow(t: Tables)
    requires IdsBelowSequence(t)
    ensures t.nextId !in t.rankings
  {
  }

  lemma NothingFails(t: Tables, skeletons: Skeletons)
    ensures Simple(t, OtherRequest) == Ok(t) && WhyFails(t, OtherRequest, skeletons).None?
  {
  }

  lemma MoveErrors(t: Tables, request: Request, skeletons: Skeletons)
    requires request.MoveMatch?
    ensures match WhyFails(t, request, skeletons)
            case Some(e) => Simple(t, request) == Err(e)
            case None => Simple(t, request).Ok?
  {
    hide MatchMoved, RoundAtHome;
    MoveStores(t, request.tournament, request.m, request.moveBody);
  }

  // ---------------------------------------------------------------- effects

  /** Only the progress pointer of match `m` changes. */
  ghost predicate OnlyPointer(t: Tables, t': Tables, m: Id) {
    && m in t.matches && m in t'.matches
    && t' == t.(matches := t.matches[m := t.matches[m].(progress := t'.matches[m].progress)])
  }

  /** What a request leaves behind when it goes through. */
  ghost predicate Leaves(t: Tables, t': Tables, request: Request) {
    match request
    case EditRanking(tournament, ranking, body, force) =>
      && ranking in t.rankings && ranking in t'.rankings && StoresBody(t.rankings[ranking], t'.rankings[ranking], body)
      && forall m | m in MatchesOfRanking(t, ranking) :: m in t.matches && MatchResized(t, t', m, body.rules.numSets)
    case AddRanking(tournament, body) =>
      t.nextId in t'.rankings && StoresRules(t'.rankings[t.nextId].rules, body.rules)
    case RemoveRanking(tournament, ranking) => ranking in RankingsOf(t, tournament) ==> ranking !in t'.rankings
    case SetStageRanking(tournament, stage, ranking) => StageReassigned(t, t', stage, ranking)
    case AddItem(tournament, body) => ItemStored(t, t', tournament, body)
    case UpdateItem(tournament, item, body) =>
      && item in t'.stageItems && t'.stageItems[item].ranking == body.ranking
      && t'.stageItems[item].teamCount == body.teamCount && t'.stageItems[item].name == body.name
    case RemoveItem(tournament, item) => t' == WithoutItem(t, item)
    case RemoveStage(tournament, stage) =>
      t' == WithoutItems(t, ItemsOfStage(t, stage)).(stages := t.stages - {stage})
    case RemoveTournament(tournament) => t' == WithoutTournament(t, tournament)
    case MoveMatch(tournament, m, body) =>
      && m in t'.matches && t'.matches[m].round == body.round
      && (body.court.Some? ==> t'.matches[m].court == body.court.value)
    case StartSet(m) =>
      OnlyPointer(t, t', m) && HasSet(t', m, InProgress) && (HasSet(t', m, Completed) <==> HasSet(t, m, Completed))
    case EndSet(m) => OnlyPointer(t, t', m) && !HasSet(t', m, InProgress) && HasSet(t', m, Completed)
    case ReopenSet(m) => OnlyPointer(t, t', m) && HasSet(t', m, InProgress)
    case ResetProgress(m) => m in t'.matches && StateOfMatch(t', m) == NotStarted && t'.matches[m].completedAt.None?
    case EditSetScore(m, k, score) => k in RowsOf(t', m) && RowsOf(t', m)[k] == score
    case OtherRequest => t' == t
  }

  lemma StepLeaves(t: Tables, request: Request)
    requires ProgressOk(t) && OnOneMatch(request) && Simple(t, request).Ok?
    ensures Leaves(t, Simple(t, request).value, request)
  {
    hide ProgressOk, StateOfMatch, HasSet, StartMatch, EndMatch, ReopenMatch, ResetMatch, EditScore;
    match request
    case StartSet(m) => StartLeaves(t, m);
    case EndSet(m) => EndLeaves(t, m);
    case ReopenSet(m) => ReopenLeaves(t, m);
    case ResetProgress(m) => StepsTouchOneMatch(t, m); ResetStartsOver(t, m);
    case EditSetScore(m, k, score) => EditsOneScore(t, m, k, score);
  }

  lemma StepKeepsOk(t: Tables, m: Id)
    requires ProgressOk(t)
    ensures StartMatch(t, m).Ok? ==> ProgressOk(StartMatch(t, m).value)
    ensures EndMatch(t, m).Ok? ==> ProgressOk(EndMatch(t, m).value)
    ensures ReopenMatch(t, m).Ok? ==> ProgressOk(ReopenMatch(t, m).value)
  {
    hide ProgressOk, StartMatch, EndMatch, ReopenMatch;
    StepsKeepProgressOk(t, m, 1, ZERO);
  }

  lemma StartLeaves(t: Tables, m: Id)
    requires ProgressOk(t) && StartMatch(t, m).Ok?
    ensures var t' := StartMatch(t, m).value;
            && OnlyPointer(t, t', m) && HasSet(t', m, InProgress)
            && (HasSet(t', m, Completed) <==> HasSet(t, m, Completed))
  {
    hide ProgressOk, IsDecided, HasSet;
    StepKeepsOk(t, m);
    StatesOnScreen(t, m);
    StatesOnScreen(StartMatch(t, m).value, m);
  }

  lemma EndLeaves(t: Tables, m: Id)
    requires ProgressOk(t) && EndMatch(t, m).Ok?
    ensures var t' := EndMatch(t, m).value;
            OnlyPointer(t, t', m) && !HasSet(t', m, InProgress) && HasSet(t', m, Completed)
  {
    hide ProgressOk, HasSet;
    StepKeepsOk(t, m);
    StatesOnScreen(t, m);
    StatesOnScreen(EndMatch(t, m).value, m);
  }

  lemma ReopenLeaves(t: Tables, m: Id)
    requires ProgressOk(t) && ReopenMatch(t, m).Ok?
    ensures var t' := ReopenMatch(t, m).value; OnlyPointer(t, t', m) && HasSet(t', m, InProgress)
  {
    hide ProgressOk, HasSet;
    StepKeepsOk(t, m);
    StatesOnScreen(ReopenMatch(t, m).value, m);
  }

  lemma RankingLeaves(t: Tables, request: Request)
    requires ProgressOk(t) && Tenancy(t) && t.nextId !in t.rankings
    requires request.EditRanking? || request.AddRanking? || request.RemoveRanking? || request.SetStageRanking?
    requires Simple(t, request).Ok?
    ensures Leaves(t, Simple(t, request).value, request)
  {
    hide ProgressOk, Tenancy, UpdateRanking, CreateRanking, DeleteRanking, SetRankingForStage, RankingsOf,
      StoresBody, StoresRules, StageReassigned, MatchResized, MatchesOfRanking;
    match request
    case EditRanking(tournament, r, body, force) =>
      EditStores(t, tournament, r, body, force);
      MatchesBelowExist(t, r);
    case AddRanking(tournament, body) => CreateRankingStores(t, tournament, body);
    case RemoveRanking(tournament, r) => RankingGoes(t, tournament, r);
    case SetStageRanking(tournament, stage, r) => SetRankingForStageStores(t, tournament, stage, r);
  }

  lemma MatchesBelowExist(t: Tables, r: Id)
    ensures forall m | m in MatchesOfRanking(t, r) :: m in t.matches
  {
  }

  lemma ItemLeaves(t: Tables, request: Request, skeletons: Skeletons)
    requires Healthy(t) && IdsBelowSequence(t) && (request.AddItem? || request.UpdateItem?)
    requires Outcome(t, request, skeletons).error.None?
    ensures Leaves(t, Outcome(t, request, skeletons).after, request)
  {
    hide Intact, ProgressOk, Tenancy, ParityOk, SlotsOk, PositionsOk, IdsBelowSequence, Sequenced, CreateStageItem,
      UpdateStageItem, ItemStored;
    HasForeignKeys(t);
    match request
    case AddItem(tournament, body) =>
      CreationStores(t, tournament, body, skeletons);
      NotRefused(t, tournament, body, skeletons);
    case UpdateItem(tournament, item, body) => UpdateFrame(t, tournament, item, body, skeletons);
  }

  lemma NotRefused(t: Tables, tournament: Id, body: NewItemBody, skeletons: Skeletons)
    requires IdsBelowSequence(t) && CreateStageItem(t, tournament, body, skeletons).error.None?
    ensures CreationRefused(t, tournament, body).None?
  {
    hide BareItem, BuildItem, CreationRefused, IdsBelowSequence;
  }

  lemma RemovalLeaves(t: Tables, request: Request, skeletons: Skeletons)
    requires Healthy(t) && IdsBelowSequence(t)
    requires request.RemoveItem? || request.RemoveStage? || request.RemoveTournament?
    requires Outcome(t, request, skeletons).error.None?
    ensures Leaves(t, Outcome(t, request, skeletons).after, request)
  {
    hide Healthy, IdsBelowSequence, Outcome, WithoutItem, WithoutItems, WithoutTournament;
    HealthyNeverStuck(t, request, skeletons);
  }

  /** And what goes through has done what it is for; what fails has changed nothing, but for the creation of a bracket
      of a size the program does not know. */
  lemma RequestLeaves(t: Tables, request: Request, skeletons: Skeletons)
    requires Healthy(t) && IdsBelowSequence(t)
    ensures var f := Outcome(t, request, skeletons);
            && (f.error.None? ==> Leaves(t, f.after, request))
            && (f.error.Some? && !request.AddItem? ==> f.after == t)
  {
    hide Healthy, IdsBelowSequence, Simple, Leaves, CreateStageItem, UpdateStageItem;
    HealthParts(t);
    RankingIdsBelow(t);
    if Outcome(t, request, skeletons).error.None? {
      match request
      case AddItem(_, _) => ItemLeaves(t, request, skeletons);
      case UpdateItem(_, _, _) => ItemLeaves(t, request, skeletons);
      case RemoveItem(_, _) => RemovalLeaves(t, request, skeletons);
      case RemoveStage(_, _) => RemovalLeaves(t, request, skeletons);
      case RemoveTournament(_) => RemovalLeaves(t, request, skeletons);
      case EditRanking(_, _, _, _) => RankingLeaves(t, request);
      case AddRanking(_, _) => RankingLeaves(t, request);
      case RemoveRanking(_, _) => RankingLeaves(t, request);
      case SetStageRanking(_, _, _) => RankingLeaves(t, request);
      case MoveMatch(_, _, _) => MoveLeaves(t, request);
      case OtherRequest => NothingLeft(t);
      case _ => StepLeaves(t, request);
    }
  }

  lemma NothingLeft(t: Tables)
    ensures Simple(t, OtherRequest) == Ok(t) && Leaves(t, t, OtherRequest)
  {
  }

  lemma MoveLeaves(t: Tables, request: Request)
    requires request.MoveMatch? && Simple(t, request).Ok?
    ensures Leaves(t, Simple(t, request).value, request)
  {
    hide MatchMoved, RoundAtHome;
    MoveStores(t, request.tournament, request.m, request.moveBody);
  }
}
