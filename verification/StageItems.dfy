/** Creating and updating a stage item: the requests that combine a change of ranking, of the number of
    games per player and of the team count. The builders of round structures for standings-resolved items are
    a parameter; those of round-robin items and brackets are not. */
module StageItems {
  import opened Schema
  import opened Progress
  import opened MatchSets
  import opened SetResize
  import opened Rankings
  import opened Deletion
  import opened Cascades
  import opened StageItemResize
  import opened ItemMatches
  import opened RoundRobin
  import opened Elimination
  import opened EliminationResize

  /** One round as a skeleton builder lays it out: matches between positions, and who sits out. */
  datatype RoundSkeleton = RoundSkeleton(matches: seq<(int, int)>, byeSlot: Option<int>)

  /** Round structure for a kind, a team count and a number of games per player. */
  type Skeletons = (StageKind, int, int) -> seq<RoundSkeleton>

  /** Request bodies with other team counts are refused before any of this. */
  type TeamCount = n: int | 2 <= n <= 64 witness 2

  datatype ItemBody = ItemBody(ranking: Id, teamCount: TeamCount, gamesPerPlayer: Option<int>, name: int)
  datatype NewItemBody =
    NewItemBody(stage: Id, kind: StageKind, teamCount: TeamCount, ranking: Option<Id>, gamesPerPlayer: Option<int>,
                name: int)

  /** How a request that is no transaction ended: it may fail and yet leave something behind. */
  datatype Finish = Finish(after: Tables, error: Option<Error>)

  predicate StandingsResolved(kind: StageKind) {
    kind == Swiss || kind == Mexicano
  }

  // ---------------------------------------------------------------- games per player

  function SkeletonMatch(round: Id, slots: (int, int), bye: Option<int>): Match {
    Match(round, None, None, None, None, None, None, None, None, Some(slots.0), Some(slots.1), bye, RESET)
  }

  function SkeletonMatches(t: Tables, round: Id, matches: seq<(int, int)>, bye: Option<int>): (t': Tables)
    ensures t' == t.(matches := t'.matches, matchSets := t'.matchSets, nextId := t.nextId + |matches|)
  {
    if matches == [] then t else
      var n := |matches| - 1;
      WithMatch(SkeletonMatches(t, round, matches[..n], bye), SkeletonMatch(round, matches[n], bye))
  }

  function SkeletonRounds(t: Tables, i: Id, rounds: seq<RoundSkeleton>): (t': Tables)
    ensures t' == t.(rounds := t'.rounds, matches := t'.matches, matchSets := t'.matchSets, nextId := t'.nextId)
    ensures t.nextId <= t'.nextId
  {
    if rounds == [] then t else
      var n := |rounds| - 1;
      var t1 := SkeletonRounds(t, i, rounds[..n]);
      SkeletonMatches(WithRound(t1, i, Placeholder), t1.nextId, rounds[n].matches, rounds[n].byeSlot)
  }

  /** The rounds after the first `keep`, oldest first. */
  function TrailingRounds(seen: Tables, i: Id, keep: nat): seq<Id> {
    var rounds := Ids(RoundsOfItem(seen, i));
    rounds[Min(keep, |rounds|)..]
  }

  predicate AllIdle(seen: Tables, rounds: set<Id>) {
    forall m | m in MatchesOfRounds(seen, rounds) :: StateOfMatch(seen, m) == NotStarted
  }

  /** Deleting rounds one by one, each after its matches. */
  function RoundsDeleted(t: Tables, seen: Tables, rounds: seq<Id>): Result<Tables> {
    if rounds == [] then Ok(t) else
      var r := rounds[|rounds| - 1];
      match RoundsDeleted(t, seen, rounds[..|rounds| - 1])
      case Err(e) => Err(e)
      case Ok(s) =>
        match DeletedOneByOne(s, Ids(MatchesOfRounds(seen, {r})))
        case Err(e) => Err(e)
        case Ok(s') => DeleteRounds(s', {r})
  }

  function AdjustGames(t: Tables, seen: Tables, i: Id, games: int, skeletons: Skeletons): Result<Tables>
    requires i in seen.stageItems
  {
    var item := seen.stageItems[i];
    if !StandingsResolved(item.kind) || item.gamesPerPlayer.None? || item.gamesPerPlayer.value == games then Ok(t) else
      var was := skeletons(item.kind, item.teamCount, item.gamesPerPlayer.value);
      var now := skeletons(item.kind, item.teamCount, games);
      if |now| > |was| then Ok(SkeletonRounds(t, i, now[|was|..]))
      else if |now| < |was| then
        var rounds := TrailingRounds(seen, i, |now|);
        if !AllIdle(seen, Group(rounds)) then Err(Http(400)) else RoundsDeleted(t, seen, rounds)
      else Ok(t)
  }

  // ---------------------------------------------------------------- the item's own row

  function ItemUpdated(was: StageItem, body: ItemBody): StageItem {
    was.(ranking := body.ranking, teamCount := body.teamCount, name := body.name,
         gamesPerPlayer := if body.gamesPerPlayer.Some? then body.gamesPerPlayer else was.gamesPerPlayer)
  }

  function UpdateRow(t: Tables, i: Id, body: ItemBody): Result<Tables> {
    if i !in t.stageItems then Ok(t)
    else if body.ranking !in t.rankings then Err(ForeignKeyViolation)
    else Ok(t.(stageItems := t.stageItems[i := ItemUpdated(t.stageItems[i], body)]))
  }

  // ---------------------------------------------------------------- the update

  predicate BelongsTo(t: Tables, tournament: Id, i: Id) {
    i in t.stageItems && t.stageItems[i].stage in t.stages && t.stages[t.stageItems[i].stage].tournament == tournament
  }

  /** First step of the transaction: resize existing matches to the new ranking's number of sets. */
  function ResizeForRanking(t: Tables, tournament: Id, i: Id, ranking: Id): Result<Tables>
    requires i in t.stageItems
  {
    var now := RankingIn(t, tournament, ranking);
    var was := SetsOr(RankingIn(t, tournament, t.stageItems[i].ranking), 1);
    if ranking == t.stageItems[i].ranking || now.None? || now.value.rules.numSets == was then Ok(t)
    else TryResize(t, Uniform(MatchesOfItem(t, i), was), now.value.rules.numSets)
  }

  function AdjustIfAsked(t: Tables, seen: Tables, i: Id, body: ItemBody, skeletons: Skeletons): Result<Tables>
    requires i in seen.stageItems
  {
    if body.gamesPerPlayer.None? then Ok(t) else AdjustGames(t, seen, i, body.gamesPerPlayer.value, skeletons)
  }

  function ResizeIfNeeded(t: Tables, seen: Tables, tournament: Id, i: Id, count: int): Result<Tables>
    requires i in seen.stageItems
  {
    if count == seen.stageItems[i].teamCount then Ok(t)
    else if seen.stageItems[i].kind == SingleElimination then ResizeBracket(t, seen, tournament, i, count)
    else Resize(t, seen, tournament, i, count)
  }

  /** The sequence is ahead of rounds and matches. */
  ghost predicate Sequenced(t: Tables) {
    (forall r | r in t.rounds :: r < t.nextId) && forall m | m in t.matches :: m < t.nextId
  }

  /** Last step: a resized round-robin item gets the matches it lacks, a resized bracket is built. Listing an
      input that does not exist is an IndexError. */
  function Complete(t: Tables, seen: Tables, i: Id, count: int): Result<Tables>
    requires i in seen.stageItems && Sequenced(t)
  {
    if count == seen.stageItems[i].teamCount then Ok(t) else
      match seen.stageItems[i].kind
      case RoundRobin => if |InputsOfItem(t, i)| < count then Err(Http(500)) else Ok(AddMissing(t, i, count))
      case SingleElimination => BuildBracket(t, i, count)
      case _ => Ok(t)
  }

  lemma {:induction false} SkeletonMatchesSequenced(t: Tables, round: Id, matches: seq<(int, int)>, bye: Option<int>)
    requires Sequenced(t)
    ensures Sequenced(SkeletonMatches(t, round, matches, bye))
  {
    if matches != [] { SkeletonMatchesSequenced(t, round, matches[..|matches| - 1], bye); }
  }

  lemma {:induction false} SkeletonRoundsSequenced(t: Tables, i: Id, rounds: seq<RoundSkeleton>)
    requires Sequenced(t)
    ensures Sequenced(SkeletonRounds(t, i, rounds))
  {
    hide SkeletonMatches;
    if rounds != [] {
      var n := |rounds| - 1;
      SkeletonRoundsSequenced(t, i, rounds[..n]);
      var t1 := SkeletonRounds(t, i, rounds[..n]);
      SkeletonMatchesSequenced(WithRound(t1, i, Placeholder), t1.nextId, rounds[n].matches, rounds[n].byeSlot);
    }
  }

  /** Nothing but rounds, inputs, matches and set rows differs, and rounds and matches only go. */
  ghost predicate OnlyLoses(t: Tables, t': Tables) {
    && t' == t.(inputs := t'.inputs, rounds := t'.rounds, matches := t'.matches, matchSets := t'.matchSets,
                nextId := t'.nextId)
    && t.nextId <= t'.nextId
    && (forall r | r in t'.rounds :: r in t.rounds && t'.rounds[r] == t.rounds[r])
    && (forall m | m in t'.matches :: m in t.matches)
  }

  lemma {:induction false} OneByOneFrame(t: Tables, ids: seq<Id>)
    requires DeletedOneByOne(t, ids).Ok?
    ensures var t' := DeletedOneByOne(t, ids).value; OnlyLoses(t, t') && t'.inputs == t.inputs && t'.rounds == t.rounds
    ensures DeletedOneByOne(t, ids).value.nextId == t.nextId
  {
    hide FedBy;
    if ids != [] { OneByOneFrame(t, ids[..|ids| - 1]); }
  }

  lemma {:induction false} RoundsDeletedFrame(t: Tables, seen: Tables, rounds: seq<Id>)
    requires RoundsDeleted(t, seen, rounds).Ok?
    ensures var t' := RoundsDeleted(t, seen, rounds).value;
            OnlyLoses(t, t') && t'.inputs == t.inputs && t'.nextId == t.nextId
  {
    if rounds != [] {
      var n := |rounds| - 1;
      RoundsDeletedFrame(t, seen, rounds[..n]);
      var s := RoundsDeleted(t, seen, rounds[..n]).value;
      OneByOneFrame(s, Ids(MatchesOfRounds(seen, {rounds[n]})));
      hide DeletedOneByOne, MatchesOfRounds;
    }
  }

  lemma ResizeForRankingFrame(t: Tables, tournament: Id, i: Id, ranking: Id)
    requires i in t.stageItems && ResizeForRanking(t, tournament, i, ranking).Ok?
    ensures var t1 := ResizeForRanking(t, tournament, i, ranking).value;
            t1 == t.(matches := t1.matches, matchSets := t1.matchSets) && t1.matches.Keys == t.matches.Keys
  {
    hide BreaksCheck, ResizedSets;
  }

  lemma AdjustFrame(t: Tables, seen: Tables, i: Id, body: ItemBody, skeletons: Skeletons)
    requires i in seen.stageItems && AdjustIfAsked(t, seen, i, body, skeletons).Ok?
    ensures var t' := AdjustIfAsked(t, seen, i, body, skeletons).value;
            && t' == t.(rounds := t'.rounds, matches := t'.matches, matchSets := t'.matchSets, nextId := t'.nextId)
            && t.nextId <= t'.nextId && (Sequenced(t) ==> Sequenced(t'))
  {
    hide SkeletonRounds, RoundsDeleted, AllIdle, TrailingRounds;
    if body.gamesPerPlayer.Some? && seen.stageItems[i].gamesPerPlayer.Some? {
      var item, games := seen.stageItems[i], body.gamesPerPlayer.value;
      var was := skeletons(item.kind, item.teamCount, item.gamesPerPlayer.value);
      var now := skeletons(item.kind, item.teamCount, games);
      if |now| > |was| {
        if Sequenced(t) { SkeletonRoundsSequenced(t, i, now[|was|..]); }
      } else if RoundsDeleted(t, seen, TrailingRounds(seen, i, |now|)).Ok? {
        RoundsDeletedFrame(t, seen, TrailingRounds(seen, i, |now|));
      }
    }
  }

  lemma ResizeFrame(t: Tables, seen: Tables, tournament: Id, i: Id, count: int)
    requires i in seen.stageItems && Resize(t, seen, tournament, i, count).Ok?
    ensures OnlyLoses(t, Resize(t, seen, tournament, i, count).value)
  {
    hide EmptyInputs, BlockingSlots, RemovedInputs, Shrunk, Appended;
    var was := seen.stageItems[i].teamCount;
    if count > was {
      AppendedFrame(t, tournament, i, was + 1, count - was);
    } else {
      ShrunkFrame(t, seen, i, RemovedInputs(seen, i, was - count), count);
    }
  }

  lemma ShrunkFrame(t: Tables, seen: Tables, i: Id, removed: set<Id>, count: int)
    requires Shrunk(t, seen, i, removed, count).Ok?
    ensures OnlyLoses(t, Shrunk(t, seen, i, removed, count).value)
  {
    hide RemovableMatches, DeletedOneByOne, Renumbered, PositionsCleared, BySlot, PlayedIn, InputsOfItem, Without;
    OneByOneFrame(t, RemovableMatches(seen, i, removed));
  }

  lemma {:induction false} AppendedFrame(t: Tables, tournament: Id, i: Id, first: int, k: nat)
    ensures Appended(t, tournament, i, first, k).nextId == t.nextId + k
  {
    if k > 0 { AppendedFrame(t, tournament, i, first, k - 1); }
  }

  lemma ResizeBracketFrame(t: Tables, seen: Tables, tournament: Id, i: Id, count: int)
    requires i in seen.stageItems && ResizeBracket(t, seen, tournament, i, count).Ok?
    ensures OnlyLoses(t, ResizeBracket(t, seen, tournament, i, count).value)
  {
    hide Reslotted, FedBy, PositionsCleared, StartedMatches, MatchesOfItem, RoundsOfItem, BracketRounds;
    ReslottedFrame(t, seen, tournament, i, count);
  }

  lemma ReslottedFrame(t: Tables, seen: Tables, tournament: Id, i: Id, count: int)
    requires i in seen.stageItems && Reslotted(t, seen, tournament, i, count).Ok?
    ensures OnlyLoses(t, Reslotted(t, seen, tournament, i, count).value)
  {
    hide Appended, ShrunkBracket, OnlyLoses;
    var was := seen.stageItems[i].teamCount;
    if count < was {
      ShrunkBracketFrame(t, seen, i, was - count);
    } else if count == was {
      NothingLost(t);
    } else {
      AppendedLosesNothing(t, tournament, i, was + 1, count - was);
    }
  }

  lemma NothingLost(t: Tables)
    ensures OnlyLoses(t, t)
  {
  }

  lemma AppendedLosesNothing(t: Tables, tournament: Id, i: Id, first: int, k: nat)
    ensures OnlyLoses(t, Appended(t, tournament, i, first, k))
  {
    AppendedFrame(t, tournament, i, first, k);
  }

  lemma ShrunkBracketFrame(t: Tables, seen: Tables, i: Id, k: nat)
    requires ShrunkBracket(t, seen, i, k).Ok?
    ensures OnlyLoses(t, ShrunkBracket(t, seen, i, k).value)
  {
    hide EmptyInputs, BlockingSlots, RemovedInputs, Renumbered, BySlot, PlayedIn, InputsOfItem, Without,
      WithoutReferees;
    RefereesAside(t.matches, InputsOfItem(t, i) * RemovedInputs(seen, i, k));
  }

  lemma ResizeIfNeededFrame(t: Tables, seen: Tables, tournament: Id, i: Id, count: int)
    requires i in seen.stageItems && ResizeIfNeeded(t, seen, tournament, i, count).Ok?
    ensures OnlyLoses(t, ResizeIfNeeded(t, seen, tournament, i, count).value)
  {
    hide Resize, ResizeBracket;
    if count != seen.stageItems[i].teamCount {
      if seen.stageItems[i].kind == SingleElimination {
        ResizeBracketFrame(t, seen, tournament, i, count);
      } else {
        ResizeFrame(t, seen, tournament, i, count);
      }
    }
  }

  /** The steps before the last, in the order of the transaction. */
  function BeforeComplete(t: Tables, tournament: Id, i: Id, body: ItemBody, skeletons: Skeletons): Result<Tables>
    requires i in t.stageItems
  {
    match ResizeForRanking(t, tournament, i, body.ranking)
    case Err(e) => Err(e)
    case Ok(t1) =>
      match AdjustIfAsked(t1, t, i, body, skeletons)
      case Err(e) => Err(e)
      case Ok(t2) =>
        match ResizeIfNeeded(t2, t, tournament, i, body.teamCount)
        case Err(e) => Err(e)
        case Ok(t3) => UpdateRow(t3, i, body)
  }

  lemma BeforeCompleteFrame(t: Tables, tournament: Id, i: Id, body: ItemBody, skeletons: Skeletons)
    requires i in t.stageItems && BeforeComplete(t, tournament, i, body, skeletons).Ok?
    ensures var t4 := BeforeComplete(t, tournament, i, body, skeletons).value;
            && t4 == t.(stageItems := t4.stageItems, inputs := t4.inputs, rounds := t4.rounds, matches := t4.matches,
                        matchSets := t4.matchSets, nextId := t4.nextId)
            && t.nextId <= t4.nextId && (Sequenced(t) ==> Sequenced(t4))
            && body.ranking in t.rankings && t4.stageItems.Keys == t.stageItems.Keys
            && (forall x | x in t.stageItems && x != i :: t4.stageItems[x] == t.stageItems[x])
            && t4.stageItems[i] == ItemUpdated(t.stageItems[i], body)
  {
    hide ResizeForRanking, AdjustIfAsked, ResizeIfNeeded;
    var t1 := ResizeForRanking(t, tournament, i, body.ranking).value;
    ResizeForRankingFrame(t, tournament, i, body.ranking);
    AdjustFrame(t1, t, i, body, skeletons);
    ResizeIfNeededFrame(AdjustIfAsked(t1, t, i, body, skeletons).value, t, tournament, i, body.teamCount);
  }

  /** The whole transaction. */
  function UpdateTransaction(t: Tables, tournament: Id, i: Id, body: ItemBody, skeletons: Skeletons): Result<Tables>
    requires Sequenced(t) && i in t.stageItems
  {
    match BeforeComplete(t, tournament, i, body, skeletons)
    case Err(e) => Err(e)
    case Ok(t4) =>
      BeforeCompleteFrame(t, tournament, i, body, skeletons);
      Complete(t4, t, i, body.teamCount)
  }

  /** Why an update is refused before its transaction. */
  function UpdateRefused(t: Tables, tournament: Id, i: Id, body: ItemBody): Option<Error> {
    if !BelongsTo(t, tournament, i) then Some(Http(400)) else
      var item, ranking := t.stageItems[i], RankingIn(t, tournament, body.ranking);
      if item.kind == SingleElimination && body.ranking != item.ranking && ranking.Some?
         && ranking.value.rules.numSets % 2 == 0
      then Some(Http(422)) else None
  }

  function UpdateStageItem(t: Tables, tournament: Id, i: Id, body: ItemBody, skeletons: Skeletons): Result<Tables>
    requires Sequenced(t)
  {
    var refused := UpdateRefused(t, tournament, i, body);
    if refused.Some? then Err(refused.value) else UpdateTransaction(t, tournament, i, body, skeletons)
  }

  lemma CompleteFrame(t: Tables, seen: Tables, i: Id, count: int)
    requires i in seen.stageItems && Sequenced(t) && Complete(t, seen, i, count).Ok?
    ensures var t' := Complete(t, seen, i, count).value;
            t' == t.(rounds := t'.rounds, matches := t'.matches, matchSets := t'.matchSets, nextId := t'.nextId)
  {
    hide AddMissing, InputsOfItem, BuildBracket;
    if count != seen.stageItems[i].teamCount && seen.stageItems[i].kind == SingleElimination {
      BuildBracketFrame(t, i, count);
    }
  }

  /** What an update does to configuration: only the item's own row changes, its kind and stage never. */
  lemma UpdateFrame(t: Tables, tournament: Id, i: Id, body: ItemBody, skeletons: Skeletons)
    requires Sequenced(t) && UpdateStageItem(t, tournament, i, body, skeletons).Ok?
    ensures BelongsTo(t, tournament, i) && body.ranking in t.rankings
    ensures var t' := UpdateStageItem(t, tournament, i, body, skeletons).value;
            && t'.rankings == t.rankings && t'.stages == t.stages && t'.stageItems.Keys == t.stageItems.Keys
            && (forall x | x in t.stageItems && x != i :: t'.stageItems[x] == t.stageItems[x])
            && t'.stageItems[i].ranking == body.ranking && t'.stageItems[i].kind == t.stageItems[i].kind
            && t'.stageItems[i].stage == t.stageItems[i].stage && t'.stageItems[i].teamCount == body.teamCount
            && t'.stageItems[i].name == body.name && t'.stageItems[i].gamesPerPlayer
               == if body.gamesPerPlayer.Some? then body.gamesPerPlayer else t.stageItems[i].gamesPerPlayer
  {
    hide BeforeComplete, Complete;
    BeforeCompleteFrame(t, tournament, i, body, skeletons);
    CompleteFrame(BeforeComplete(t, tournament, i, body, skeletons).value, t, i, body.teamCount);
  }

  // ---------------------------------------------------------------- creating an item

  function DefaultRanking(t: Tables, tournament: Id): (r: Option<Id>)
    ensures r.None? <==> RankingsOf(t, tournament) == {}
    ensures r.Some? ==> RankingIn(t, tournament, r.value).Some?
    ensures r.Some? ==> forall x | x in RankingsOf(t, tournament) ::
              t.rankings[r.value].position <= t.rankings[x].position
  {
    var order := SortedBy(RankingsOf(t, tournament), map x | x in t.rankings :: t.rankings[x].position);
    EmptyOrHasMember(RankingsOf(t, tournament));
    HasMember(order);
    if order == [] then None else
      assert order[0] in order;
      assert forall k | 0 <= k < |order| :: t.rankings[order[0]].position <= t.rankings[order[k]].position;
      Some(order[0])
  }

  function WithItem(t: Tables, row: StageItem): Tables {
    t.(stageItems := t.stageItems[t.nextId := row], nextId := t.nextId + 1)
  }

  lemma NewItemHasInputs(t: Tables, tournament: Id, row: StageItem, count: nat)
    requires IdsBelowSequence(t)
    ensures var t1 := Appended(WithItem(t, row), tournament, t.nextId, 1, count);
            count <= |InputsOfItem(t1, t.nextId)| && Sequenced(t1) && t1.stageItems == WithItem(t, row).stageItems
  {
    hide Appended, InputsOfItem, GrownBy, Added;
    var s := WithItem(t, row);
    AppendedForm(s, tournament, t.nextId, 1, count);
    AddedCount(s, tournament, t.nextId, 1, count);
    AppendedFrame(s, tournament, t.nextId, 1, count);
    AddedAreItems(s, Appended(s, tournament, t.nextId, 1, count), tournament, t.nextId, 1, count);
    var mine := InputsOfItem(Appended(s, tournament, t.nextId, 1, count), t.nextId);
    DifferenceCounts(Added(s, Appended(s, tournament, t.nextId, 1, count)), mine);
  }

  lemma AddedAreItems(t: Tables, g: Tables, tournament: Id, i: Id, first: int, k: nat)
    requires GrownBy(t, g, tournament, i, first, k)
    ensures Added(t, g) <= InputsOfItem(g, i)
  {
    forall x | x in Added(t, g) ensures x in InputsOfItem(g, i) { assert x in g.inputs && x !in t.inputs; }
  }

  /** The rounds and matches of a new item. For round-robin items the builder does what a top-up does. */
  function BuildItem(t: Tables, i: Id, kind: StageKind, count: int, games: Option<int>, skeletons: Skeletons)
    : Result<Tables>
    requires count <= |InputsOfItem(t, i)| && Sequenced(t)
  {
    match kind
    case RoundRobin => Ok(AddMissing(t, i, count))
    case SingleElimination => BuildBracket(t, i, count)
    case _ => if games.None? then Ok(t) else Ok(SkeletonRounds(t, i, skeletons(kind, count, games.value)))
  }

  function ChosenRanking(t: Tables, tournament: Id, body: NewItemBody): Option<Id> {
    if body.ranking.Some? then body.ranking else DefaultRanking(t, tournament)
  }

  /** The item with its empty inputs, before anything is built. */
  function BareItem(t: Tables, tournament: Id, body: NewItemBody): Tables
    requires ChosenRanking(t, tournament, body).Some?
  {
    var row := StageItem(body.stage, body.kind, body.teamCount, ChosenRanking(t, tournament, body).value,
                         body.gamesPerPlayer, body.name);
    Appended(WithItem(t, row), tournament, t.nextId, 1, body.teamCount)
  }

  /** Why a creation is refused before it writes anything. */
  function CreationRefused(t: Tables, tournament: Id, body: NewItemBody): Option<Error> {
    var chosen := ChosenRanking(t, tournament, body);
    if body.stage !in t.stages || t.stages[body.stage].tournament != tournament then Some(Http(400))
    else if chosen.None? then Some(Http(500))
    else if body.kind == SingleElimination && RankingIn(t, tournament, chosen.value).Some?
            && RankingIn(t, tournament, chosen.value).value.rules.numSets % 2 == 0 then Some(Http(422))
    else if chosen.value !in t.rankings then Some(ForeignKeyViolation)
    else None
  }

  /** The creation is no transaction: a bracket of a size the program does not know is refused only after the
      item and its inputs are there. */
  function CreateStageItem(t: Tables, tournament: Id, body: NewItemBody, skeletons: Skeletons): Finish
    requires IdsBelowSequence(t)
  {
    var refused := CreationRefused(t, tournament, body);
    if refused.Some? then Finish(t, refused) else
      var bare := BareItem(t, tournament, body);
      BareItemHasInputs(t, tournament, body);
      match BuildItem(bare, t.nextId, body.kind, body.teamCount, body.gamesPerPlayer, skeletons)
      case Ok(t') => Finish(t', None)
      case Err(e) => Finish(bare, Some(e))
  }

  lemma BareItemHasInputs(t: Tables, tournament: Id, body: NewItemBody)
    requires IdsBelowSequence(t) && ChosenRanking(t, tournament, body).Some?
    ensures var bare := BareItem(t, tournament, body);
            body.teamCount <= |InputsOfItem(bare, t.nextId)| && Sequenced(bare) && t.nextId in bare.stageItems
  {
    hide Appended, InputsOfItem, ChosenRanking;
    NewItemHasInputs(t, tournament, StageItem(body.stage, body.kind, body.teamCount,
      ChosenRanking(t, tournament, body).value, body.gamesPerPlayer, body.name), body.teamCount);
  }

  /** Nothing of the item exists before it. */
  lemma BareItemIsBare(t: Tables, tournament: Id, body: NewItemBody)
    requires ForeignKeys(t) && IdsBelowSequence(t) && ChosenRanking(t, tournament, body).Some?
    ensures var bare, i := BareItem(t, tournament, body), t.nextId;
            && SlotsAre(bare, i, body.teamCount) && |InputsOfItem(bare, i)| == body.teamCount
            && RoundsOfItem(bare, i) == {} && MatchesOfItem(bare, i) == {} && i !in t.stageItems
            && (forall m | m in bare.matches :: m < bare.nextId && bare.matches[m].round in bare.rounds)
            && bare == t.(stageItems := bare.stageItems, inputs := bare.inputs, nextId := bare.nextId)
            && t.nextId <= bare.nextId
  {
    hide Appended, SlotsAre, InputsOfItem, ChosenRanking, ForeignKeys, IdsBelowSequence;
    var row := StageItem(body.stage, body.kind, body.teamCount, ChosenRanking(t, tournament, body).value,
                         body.gamesPerPlayer, body.name);
    var s := WithItem(t, row);
    NothingOfItem(t, row);
    AppendedSlots(s, tournament, t.nextId, 0, body.teamCount);
    AppendedFrame(s, tournament, t.nextId, 1, body.teamCount);
    SlotsCount(BareItem(t, tournament, body), t.nextId, body.teamCount);
    SameRounds(s, BareItem(t, tournament, body), t.nextId);
  }

  lemma NothingOfItem(t: Tables, row: StageItem)
    requires ForeignKeys(t) && IdsBelowSequence(t)
    ensures var s := WithItem(t, row);
            && SlotsAre(s, t.nextId, 0) && RoundsOfItem(s, t.nextId) == {} && MatchesOfItem(s, t.nextId) == {}
            && t.nextId !in t.stageItems && (forall x | x in s.inputs :: x < s.nextId)
            && (forall m | m in t.matches :: m < t.nextId && t.matches[m].round in t.rounds)
  {
    hide LevelsRefer, StagesRefer, StageItemsRefer, MatchSetsRefer, TeamsRefer, PlayersRefer, MembershipsRefer,
      CourtsRefer, RankingsRefer, RankingPointsRefer;
    var s := WithItem(t, row);
    EmptyOrHasMember(InputsOfItem(s, t.nextId));
    EmptyOrHasMember(RoundsOfItem(s, t.nextId));
    EmptyOrHasMember(MatchesOfItem(s, t.nextId));
    assert InputsOfItem(s, t.nextId) == {};
  }

  lemma SameRounds(t: Tables, t': Tables, i: Id)
    requires t'.rounds == t.rounds && t'.matches == t.matches
    ensures RoundsOfItem(t', i) == RoundsOfItem(t, i) && MatchesOfItem(t', i) == MatchesOfItem(t, i)
  {
  }

  // ---------------------------------------------------------------- the program

  method CreateSkeletonMatches(db: Database, round: Id, matches: seq<(int, int)>, bye: Option<int>)
    requires round in db.rounds
    modifies db`matches, db`matchSets, db`nextId
    ensures db.Snapshot() == SkeletonMatches(old(db.Snapshot()), round, matches, bye)
  {
    ghost var before := db.Snapshot();
    for k := 0 to |matches|
      invariant db.Snapshot() == SkeletonMatches(before, round, matches[..k], bye)
    {
      assert matches[..k + 1][..k] == matches[..k];
      hide WithMatch;
      var id, error := SqlCreateMatch(db, SkeletonMatch(round, matches[k], bye));
    }
    assert matches[..|matches|] == matches;
  }

  method CreateSkeletonRounds(db: Database, i: Id, rounds: seq<RoundSkeleton>)
    requires i in db.stageItems
    modifies db`rounds, db`matches, db`matchSets, db`nextId
    ensures db.Snapshot() == SkeletonRounds(old(db.Snapshot()), i, rounds)
  {
    ghost var before := db.Snapshot();
    for k := 0 to |rounds|
      invariant db.Snapshot() == SkeletonRounds(before, i, rounds[..k])
    {
      assert rounds[..k + 1][..k] == rounds[..k];
      hide SkeletonMatches;
      var r, failed := SqlCreateRound(db, i, Placeholder);
      CreateSkeletonMatches(db, r, rounds[k].matches, rounds[k].byeSlot);
    }
    assert rounds[..|rounds|] == rounds;
  }

  lemma {:induction false} RoundErrorStays(t: Tables, seen: Tables, rounds: seq<Id>, k: nat)
    requires k <= |rounds| && RoundsDeleted(t, seen, rounds[..k]).Err?
    ensures RoundsDeleted(t, seen, rounds) == RoundsDeleted(t, seen, rounds[..k])
  {
    if k == |rounds| {
      assert rounds[..k] == rounds;
    } else {
      var n := |rounds| - 1;
      assert rounds[..n][..k] == rounds[..k];
      RoundErrorStays(t, seen, rounds[..n], k);
    }
  }

  lemma RoundsOneMore(t: Tables, seen: Tables, rounds: seq<Id>, k: nat)
    requires k < |rounds| && RoundsDeleted(t, seen, rounds[..k]).Ok?
    ensures RoundsDeleted(t, seen, rounds[..k + 1])
         == match DeletedOneByOne(RoundsDeleted(t, seen, rounds[..k]).value, Ids(MatchesOfRounds(seen, {rounds[k]})))
            case Err(e) => Err(e)
            case Ok(s) => DeleteRounds(s, {rounds[k]})
  {
    hide DeletedOneByOne, DeleteRounds, MatchesOfRounds;
    assert rounds[..k + 1][..k] == rounds[..k];
  }

  method DeleteTrailingRounds(db: Database, seen: Tables, rounds: seq<Id>) returns (error: Option<Error>)
    modifies db`rounds, db`matches, db`matchSets
    ensures Tried(RoundsDeleted(old(db.Snapshot()), seen, rounds), db.Snapshot(), error)
  {
    ghost var before := db.Snapshot();
    for k := 0 to |rounds|
      invariant RoundsDeleted(before, seen, rounds[..k]) == Ok(db.Snapshot())
    {
      hide DeletedOneByOne, DeleteRounds, RoundsDeleted, MatchesOfRounds;
      RoundsOneMore(before, seen, rounds, k);
      if RoundsDeleted(before, seen, rounds[..k + 1]).Err? { RoundErrorStays(before, seen, rounds, k + 1); }
      error := SqlDeleteMatchList(db, Ids(MatchesOfRounds(seen, {rounds[k]})));
      if error.Some? { return; }
      error := SqlDeleteRounds(db, {rounds[k]});
      if error.Some? { return; }
    }
    assert rounds[..|rounds|] == rounds;
    return None;
  }

  method AdjustGamesPerPlayer(db: Database, seen: Tables, i: Id, games: int, skeletons: Skeletons)
    returns (error: Option<Error>)
    requires i in seen.stageItems && i in db.stageItems
    modifies db`rounds, db`matches, db`matchSets, db`nextId
    ensures Tried(AdjustGames(old(db.Snapshot()), seen, i, games, skeletons), db.Snapshot(), error)
  {
    hide SkeletonRounds, RoundsDeleted, AllIdle, TrailingRounds;
    var item := seen.stageItems[i];
    if !StandingsResolved(item.kind) || item.gamesPerPlayer.None? || item.gamesPerPlayer.value == games { return None; }
    var was := skeletons(item.kind, item.teamCount, item.gamesPerPlayer.value);
    var now := skeletons(item.kind, item.teamCount, games);
    if |now| > |was| {
      CreateSkeletonRounds(db, i, now[|was|..]);
    } else if |now| < |was| {
      var rounds := TrailingRounds(seen, i, |now|);
      if !AllIdle(seen, Group(rounds)) { return Some(Http(400)); }
      error := DeleteTrailingRounds(db, seen, rounds);
      return;
    }
    return None;
  }

  method UpdateStageItemRow(db: Database, i: Id, body: ItemBody) returns (error: Option<Error>)
    modifies db`stageItems
    ensures Ended(UpdateRow(old(db.Snapshot()), i, body), old(db.Snapshot()), db.Snapshot(), error)
  {
    if i !in db.stageItems { return None; }
    if body.ranking !in db.rankings { return Some(ForeignKeyViolation); }
    db.stageItems := db.stageItems[i := ItemUpdated(db.stageItems[i], body)];
    return None;
  }

  method ResizeMatchesForRanking(db: Database, tournament: Id, i: Id, ranking: Id) returns (error: Option<Error>)
    requires i in db.stageItems
    modifies db`matches, db`matchSets
    ensures Tried(ResizeForRanking(old(db.Snapshot()), tournament, i, ranking), db.Snapshot(), error)
  {
    hide TryResize;
    var now := RankingIn(db.Snapshot(), tournament, ranking);
    if ranking == db.stageItems[i].ranking || now.None? { return None; }
    var was := SetsOr(RankingIn(db.Snapshot(), tournament, db.stageItems[i].ranking), 1);
    error := SqlResizeSetsForStageItem(db, i, was, now.value.rules.numSets);
  }

  method ResizeStageItemIfNeeded(db: Database, seen: Tables, tournament: Id, i: Id, count: int)
    returns (error: Option<Error>)
    requires i in seen.stageItems
    modifies db`inputs, db`rounds, db`matches, db`matchSets, db`nextId
    ensures Tried(ResizeIfNeeded(old(db.Snapshot()), seen, tournament, i, count), db.Snapshot(), error)
  {
    hide Resize, ResizeBracket;
    if count == seen.stageItems[i].teamCount { return None; }
    if seen.stageItems[i].kind == SingleElimination {
      error := ResizeSingleEliminationStageItem(db, seen, tournament, i, count);
    } else {
      error := ResizeNonEliminationStageItem(db, seen, tournament, i, count);
    }
  }

  method UpdateBeforeComplete(db: Database, seen: Tables, tournament: Id, i: Id, body: ItemBody, skeletons: Skeletons)
    returns (error: Option<Error>)
    requires db.Snapshot() == seen && i in seen.stageItems
    modifies db`stageItems, db`inputs, db`rounds, db`matches, db`matchSets, db`nextId
    ensures Tried(BeforeComplete(seen, tournament, i, body, skeletons), db.Snapshot(), error)
  {
    hide ResizeForRanking, AdjustGames, ResizeIfNeeded, UpdateRow;
    if ResizeForRanking(seen, tournament, i, body.ranking).Ok? {
      ResizeForRankingFrame(seen, tournament, i, body.ranking);
    }
    error := ResizeMatchesForRanking(db, tournament, i, body.ranking);
    if error.Some? { return; }
    if body.gamesPerPlayer.Some? {
      error := AdjustGamesPerPlayer(db, seen, i, body.gamesPerPlayer.value, skeletons);
      if error.Some? { return; }
    }
    error := ResizeStageItemIfNeeded(db, seen, tournament, i, body.teamCount);
    if error.Some? { return; }
    error := UpdateStageItemRow(db, i, body);
  }

  method UpdateInTransaction(db: Database, tournament: Id, i: Id, body: ItemBody, skeletons: Skeletons)
    returns (error: Option<Error>)
    requires Sequenced(db.Snapshot()) && i in db.stageItems
    modifies db`stageItems, db`inputs, db`rounds, db`matches, db`matchSets, db`nextId
    ensures Tried(UpdateTransaction(old(db.Snapshot()), tournament, i, body, skeletons), db.Snapshot(), error)
  {
    hide BeforeComplete, Complete, Sequenced, ItemUpdated;
    var seen := db.Snapshot();
    error := UpdateBeforeComplete(db, seen, tournament, i, body, skeletons);
    if error.Some? { return; }
    BeforeCompleteFrame(seen, tournament, i, body, skeletons);
    error := CompleteItem(db, seen, i, body.teamCount);
  }

  method UpdateStageItemById(db: Database, tournament: Id, i: Id, body: ItemBody, skeletons: Skeletons)
    returns (error: Option<Error>)
    requires Sequenced(db.Snapshot())
    modifies db
    ensures Ended(UpdateStageItem(old(db.Snapshot()), tournament, i, body, skeletons),
                  old(db.Snapshot()), db.Snapshot(), error)
  {
    hide UpdateTransaction, Sequenced;
    var seen := db.Snapshot();
    if !BelongsTo(seen, tournament, i) { return Some(Http(400)); }
    var ranking := RankingIn(seen, tournament, body.ranking);
    if seen.stageItems[i].kind == SingleElimination && body.ranking != seen.stageItems[i].ranking {
      if ranking.Some? && ranking.value.rules.numSets % 2 == 0 { return Some(Http(422)); }
    }
    error := UpdateInTransaction(db, tournament, i, body, skeletons);
    if error.Some? { db.Restore(seen); }
  }

  method CompleteItem(db: Database, seen: Tables, i: Id, count: int) returns (error: Option<Error>)
    requires i in seen.stageItems && i in db.stageItems && Sequenced(db.Snapshot())
    modifies db`rounds, db`matches, db`matchSets, db`nextId
    ensures Tried(Complete(old(db.Snapshot()), seen, i, count), db.Snapshot(), error)
  {
    hide AddMissing, InputsOfItem, BuildBracket;
    error := None;
    if count != seen.stageItems[i].teamCount {
      if seen.stageItems[i].kind == StageKind.RoundRobin {
        if |InputsOfItem(db.Snapshot(), i)| < count { return Some(Http(500)); }
        AddMissingRoundRobinMatches(db, i, count);
      } else if seen.stageItems[i].kind == SingleElimination {
        error := BuildEliminationMatches(db, i, count);
      }
    }
  }

  /** The item's row, its inputs slot by slot, its rounds, its matches. */
  method CreateStageItemIn(db: Database, tournament: Id, body: NewItemBody, skeletons: Skeletons)
    returns (error: Option<Error>)
    requires ForeignKeys(db.Snapshot()) && IdsBelowSequence(db.Snapshot())
    modifies db`stageItems, db`inputs, db`rounds, db`matches, db`matchSets, db`nextId
    ensures Finish(db.Snapshot(), error) == CreateStageItem(old(db.Snapshot()), tournament, body, skeletons)
  {
    hide DefaultRanking, Appended, ForeignKeys, IdsBelowSequence, BuildItem, SlotsAre, InputsOfItem, RoundsOfItem,
      MatchesOfItem, Sequenced;
    ghost var before := db.Snapshot();
    if body.stage !in db.stages || db.stages[body.stage].tournament != tournament { return Some(Http(400)); }
    var chosen := if body.ranking.Some? then body.ranking else DefaultRanking(db.Snapshot(), tournament);
    if chosen.None? { return Some(Http(500)); }
    var ranking := RankingIn(db.Snapshot(), tournament, chosen.value);
    if body.kind == SingleElimination && ranking.Some? && ranking.value.rules.numSets % 2 == 0 {
      return Some(Http(422));
    }
    if chosen.value !in db.rankings { return Some(ForeignKeyViolation); }
    var i := db.nextId;
    StageTournamentExists(before, body.stage);
    BareItemIsBare(before, tournament, body);
    BareItemHasInputs(before, tournament, body);
    var row := StageItem(body.stage, body.kind, body.teamCount, chosen.value, body.gamesPerPlayer, body.name);
    db.stageItems, db.nextId := db.stageItems[i := row], i + 1;
    CreateEmptyInputs(db, tournament, i, body.teamCount);
    error := BuildMatchesForStageItem(db, i, body.kind, body.teamCount, body.gamesPerPlayer, skeletons);
  }

  lemma StageTournamentExists(t: Tables, stage: Id)
    requires ForeignKeys(t) && stage in t.stages
    ensures t.stages[stage].tournament in t.tournaments
  {
  }

  method CreateEmptyInputs(db: Database, tournament: Id, i: Id, count: nat)
    requires tournament in db.tournaments && i in db.stageItems
    modifies db`inputs, db`nextId
    ensures db.Snapshot() == Appended(old(db.Snapshot()), tournament, i, 1, count)
  {
    ghost var before := db.Snapshot();
    for k := 0 to count
      invariant db.Snapshot() == Appended(before, tournament, i, 1, k)
    {
      db.inputs, db.nextId := db.inputs[db.nextId := NewInput(tournament, i, k + 1)], db.nextId + 1;
    }
  }

  /** Building a new item: it fails only on a bracket of another size, and then before it writes anything. */
  method BuildMatchesForStageItem(db: Database, i: Id, kind: StageKind, count: TeamCount, games: Option<int>,
    skeletons: Skeletons) returns (error: Option<Error>)
    requires i in db.stageItems && Sequenced(db.Snapshot()) && |InputsOfItem(db.Snapshot(), i)| == count
    requires RoundsOfItem(db.Snapshot(), i) == {} && MatchesOfItem(db.Snapshot(), i) == {}
    requires forall m | m in db.matches :: db.matches[m].round in db.rounds
    modifies db`rounds, db`matches, db`matchSets, db`nextId
    ensures Ended(BuildItem(old(db.Snapshot()), i, kind, count, games, skeletons),
                  old(db.Snapshot()), db.Snapshot(), error)
  {
    hide AddMissing, BuildBracket, SkeletonRounds, InputsOfItem, RoundsOfItem, MatchesOfItem, Combinations, BuiltTable,
      WithRounds, BySlot, BracketOver, BracketRounds;
    ghost var before := db.Snapshot();
    error := None;
    if kind == StageKind.RoundRobin {
      NewItemIsTopUp(before, i, count);
      CreateRounds(db, i, if count % 2 == 0 then count - 1 else count);
      BuildRoundRobinStageItem(db, i, count);
    } else if kind == SingleElimination {
      BuildBracketForm(before, i, count);
      error := BuildEliminationMatches(db, i, count);
    } else if games.Some? {
      CreateSkeletonRounds(db, i, skeletons(kind, count, games.value));
    }
  }
}
