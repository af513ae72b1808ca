/** What creating a stage item does to the shape of a tournament, and why a bracket, once created, cannot shrink. */
module ItemCreation {
  import opened Schema
  import opened Progress
  import opened MatchSets
  import opened SetResize
  import opened Rankings
  import opened Deletion
  import opened StageItemResize
  import opened ItemMatches
  import opened RoundRobin
  import opened RoundRobinRounds
  import opened Layout
  import opened Elimination
  import opened EliminationResize
  import opened StageItems
  import opened SkeletonBuilders
  import opened ItemProgress
  import opened ItemLayout

  // ---------------------------------------------------------------- creating an item

  lemma ItemIntact(t: Tables, row: StageItem)
    requires Intact(t) && row.stage in t.stages && row.ranking in t.rankings
    ensures Intact(WithItem(t, row)) && t.nextId !in t.stageItems
  {
    hide LevelsRefer, StagesRefer, TeamsRefer, PlayersRefer, MatchSetsRefer, MembershipsRefer, CourtsRefer,
      RankingsRefer, RankingPointsRefer, MatchesRefer, UniqueTeams, InputInside, UniqueSources, Local;
    var t' := WithItem(t, row);
    ItemsBelowSequence(t);
    GroundLocal(t, t');
    assert t'.stageItems.Keys == t.stageItems.Keys + {t.nextId};
    forall m | m in t'.matches ensures MatchInside(t', t'.matches[m]) {
      assert MatchInside(t, t.matches[m]);
      ItemAddedInside(t, row, t.matches[m]);
    }
  }

  lemma ItemsBelowSequence(t: Tables)
    requires IdsBelowSequence(t)
    ensures t.nextId !in t.stageItems
  {
  }

  lemma ItemAddedInside(t: Tables, row: StageItem, m: Match)
    requires MatchInside(t, m) && t.nextId !in t.stageItems
    ensures MatchInside(WithItem(t, row), m)
  {
  }

  lemma BareItemIntact(t: Tables, tournament: Id, body: NewItemBody)
    requires Intact(t) && CreationRefused(t, tournament, body).None?
    ensures Intact(BareItem(t, tournament, body))
  {
    hide Intact, Appended, ChosenRanking;
    var row := StageItem(body.stage, body.kind, body.teamCount, ChosenRanking(t, tournament, body).value,
                         body.gamesPerPlayer, body.name);
    IntactForeignKeys(t);
    StageTournamentExists(t, body.stage);
    ItemIntact(t, row);
    AppendedIntact(WithItem(t, row), tournament, t.nextId, 1, body.teamCount);
  }

  lemma IntactForeignKeys(t: Tables)
    requires Intact(t)
    ensures ForeignKeys(t) && IdsBelowSequence(t)
  {
  }

  lemma BuildItemIntact(t: Tables, i: Id, kind: StageKind, count: int, games: Option<int>, skeletons: Skeletons)
    requires Intact(t) && Sequenced(t) && i in t.stageItems && t.stageItems[i].kind == kind
    requires count <= |InputsOfItem(t, i)| && BuildItem(t, i, kind, count, games, skeletons).Ok?
    ensures Intact(BuildItem(t, i, kind, count, games, skeletons).value)
  {
    hide Intact, AddMissing, BuildBracket, SkeletonRounds, InputsOfItem;
    match kind {
      case RoundRobin => AddMissingIntact(t, i, count);
      case SingleElimination => BuildBracketIntact(t, i, count);
      case _ => if games.Some? { SkeletonRoundsIntact(t, i, skeletons(kind, count, games.value)); }
    }
  }

  /** What a creation adds to the inputs: those of the new item. */
  lemma BareItemInputs(t: Tables, tournament: Id, body: NewItemBody)
    requires ForeignKeys(t) && IdsBelowSequence(t) && CreationRefused(t, tournament, body).None?
    ensures var bare := BareItem(t, tournament, body);
            && OthersKept(t, bare, t.nextId) && TracksLess(t, bare)
            && (forall x | x in bare.inputs && x !in t.inputs :: t.nextId < x)
            && (forall x | x in t.inputs :: x in bare.inputs && bare.inputs[x] == t.inputs[x])
            && PositionsWithin(bare, t.nextId, body.teamCount)
            && EmptyInputs(bare, t.nextId) == InputsOfItem(bare, t.nextId)
  {
    hide Appended, ChosenRanking, ForeignKeys, GrownBy, IdsBelowSequence, OthersKept, TracksLess, PositionsWithin,
      EmptyInputs, InputsOfItem;
    var s := WithItem(t, StageItem(body.stage, body.kind, body.teamCount, ChosenRanking(t, tournament, body).value,
                                   body.gamesPerPlayer, body.name));
    InputsKnown(t);
    AppendedForm(s, tournament, t.nextId, 1, body.teamCount);
    GrownOnlyItem(t, s, BareItem(t, tournament, body), tournament, body.teamCount);
  }

  lemma InputsKnown(t: Tables)
    requires ForeignKeys(t) && IdsBelowSequence(t)
    ensures forall x | x in t.inputs ::
              x < t.nextId && t.inputs[x].stageItem < t.nextId
              && (t.inputs[x].winnerFrom.Some? ==> t.inputs[x].winnerFrom.value < t.nextId)
  {
    hide LevelsRefer, StagesRefer, StageItemsRefer, RoundsRefer, TeamsRefer, PlayersRefer, MatchSetsRefer,
      MembershipsRefer, CourtsRefer, RankingsRefer, RankingPointsRefer, MatchesRefer;
  }

  lemma GrownOnlyItem(t: Tables, s: Tables, bare: Tables, tournament: Id, count: int)
    requires s.inputs == t.inputs && s.nextId == t.nextId + 1 && count >= 0
    requires GrownBy(s, bare, tournament, t.nextId, 1, count)
    requires forall x | x in t.inputs ::
              x < t.nextId && t.inputs[x].stageItem < t.nextId
              && (t.inputs[x].winnerFrom.Some? ==> t.inputs[x].winnerFrom.value < t.nextId)
    ensures OthersKept(t, bare, t.nextId) && TracksLess(t, bare) && PositionsWithin(bare, t.nextId, count)
    ensures forall x | x in bare.inputs && x !in t.inputs :: t.nextId < x
    ensures forall x | x in t.inputs :: x in bare.inputs && bare.inputs[x] == t.inputs[x]
    ensures EmptyInputs(bare, t.nextId) == InputsOfItem(bare, t.nextId)
  {
    forall x ensures x in EmptyInputs(bare, t.nextId) <==> x in InputsOfItem(bare, t.nextId) {}
  }

  /** A creation, also one that fails half way, keeps references, slots and positions everywhere. */
  lemma CreateKeepsLayout(t: Tables, tournament: Id, body: NewItemBody, skeletons: Skeletons)
    requires Intact(t) && SlotsOk(t) && PositionsOk(t)
    ensures IdsBelowSequence(t)
    ensures var t' := CreateStageItem(t, tournament, body, skeletons).after;
            Intact(t') && SlotsOk(t') && PositionsOk(t') && OrderKept(t, t')
  {
    hide Intact, BuildItem, SlotsAre, PositionsWithin, ChosenRanking, Extended, OthersKept, TracksLess, ForeignKeys,
      IdsBelowSequence, BareItem, OrderKept;
    IntactForeignKeys(t);
    if CreationRefused(t, tournament, body).None? {
      var bare, i := BareItem(t, tournament, body), t.nextId;
      BareItemIntact(t, tournament, body);
      BareItemIsBare(t, tournament, body);
      BareItemHasInputs(t, tournament, body);
      BareItemInputs(t, tournament, body);
      IntactIsSequenced(bare);
      BareRow(t, tournament, body);
      BuildItemExtends(bare, i, body, skeletons);
      var t' := CreateStageItem(t, tournament, body, skeletons).after;
      NothingExtends(bare, i);
      if t' != bare { BuildItemIntact(bare, i, body.kind, body.teamCount, body.gamesPerPlayer, skeletons); }
      CreatedSlots(t, bare, i, body.teamCount);
      SameInputsLaid(bare, t', i);
      CreatedOrder(t, bare, t');
    } else {
      NothingMoves(t);
    }
  }

  lemma CreatedSlots(t: Tables, bare: Tables, i: Id, count: int)
    requires SlotsOk(t) && PositionsOk(t) && OthersKept(t, bare, i) && TracksLess(t, bare) && i !in t.stageItems
    requires i in bare.stageItems && bare.stageItems == t.stageItems[i := bare.stageItems[i]]
    requires bare.stageItems[i].teamCount == count && SlotsAre(bare, i, count) && PositionsWithin(bare, i, count)
    ensures SlotsOk(bare) && PositionsOk(bare)
  {
    hide SlotsAre, PositionsWithin, OthersKept, TracksLess;
    forall j | j in bare.stageItems
      ensures SlotsAre(bare, j, bare.stageItems[j].teamCount) && PositionsWithin(bare, j, bare.stageItems[j].teamCount)
    {
      if j != i {
        OthersSlots(t, bare, i, j, t.stageItems[j].teamCount);
        LessIsWithin(t, bare, j, t.stageItems[j].teamCount);
      }
    }
  }

  lemma SameInputsLaid(t: Tables, t': Tables, i: Id)
    requires Extended(t, t', i) && SlotsOk(t) && PositionsOk(t)
    ensures SlotsOk(t') && PositionsOk(t')
  {
    hide SlotsAre, PositionsWithin, RowsAre, NumSetsOfItem, MatchesOfItem;
    forall j | j in t'.stageItems
      ensures SlotsAre(t', j, t'.stageItems[j].teamCount) && PositionsWithin(t', j, t'.stageItems[j].teamCount)
    {
      SlotsFrame(t, t', j, t.stageItems[j].teamCount);
      PositionsFrame(t, t', j, t.stageItems[j].teamCount);
    }
  }

  lemma NothingMoves(t: Tables)
    requires IdsBelowSequence(t)
    ensures OrderKept(t, t)
  {
  }

  /** Inputs that were there are as they were, and the others have new ids. */
  lemma CreatedOrder(t: Tables, bare: Tables, t': Tables)
    requires (forall x | x in bare.inputs && x !in t.inputs :: t.nextId < x) && t.nextId <= bare.nextId
    requires forall x | x in t.inputs :: x in bare.inputs && bare.inputs[x] == t.inputs[x]
    requires bare.stageItems.Keys == t.stageItems.Keys + {t.nextId} && Extended(bare, t', t.nextId)
    ensures OrderKept(t, t')
  {
    hide RowsAre, NumSetsOfItem, MatchesOfItem;
    forall j | j in t'.stageItems && j < t.nextId ensures j in t.stageItems && KeepsOrder(t, t', j) {
      assert j in bare.stageItems.Keys;
    }
  }

  /** A new round robin: every two inputs have exactly one match. */
  lemma CreatedRoundRobin(t: Tables, tournament: Id, body: NewItemBody, skeletons: Skeletons)
    requires Intact(t) && IdsBelowSequence(t) && body.kind == StageKind.RoundRobin
    requires CreationRefused(t, tournament, body).None?
    ensures var t', i := CreateStageItem(t, tournament, body, skeletons).after, t.nextId;
            && |InputsOfItem(t', i)| == body.teamCount
            && forall x, y | x in InputsOfItem(t', i) && y in InputsOfItem(t', i) && x != y ::
                 |MatchesOfPair(t', i, {x, y})| == 1
  {
    hide Intact, AddMissing, SlotsAre, ChosenRanking, ForeignKeys, IdsBelowSequence, BareItem, InputsOfItem,
      MatchesOfPair;
    IntactForeignKeys(t);
    var bare, i := BareItem(t, tournament, body), t.nextId;
    BareItemIntact(t, tournament, body);
    BareItemIsBare(t, tournament, body);
    BareItemHasInputs(t, tournament, body);
    IntactIsSequenced(bare);
    AddMissingCompletes(bare, i, body.teamCount);
    NoPairsYet(bare, i);
    SameInputsSameSlots(bare, AddMissing(bare, i, body.teamCount), i);
  }

  /** And its rounds are as many as it takes, none with the same input twice, each match as the table pairs it. */
  lemma CreatedRoundRobinRounds(t: Tables, tournament: Id, body: NewItemBody, skeletons: Skeletons)
    requires ForeignKeys(t) && IdsBelowSequence(t) && body.kind == StageKind.RoundRobin
    requires CreationRefused(t, tournament, body).None?
    ensures var t' := CreateStageItem(t, tournament, body, skeletons).after;
            && Scheduled(t, t', t.nextId, body.teamCount)
            && |RoundsOfItem(t', t.nextId)| == RoundsNeeded(body.teamCount)
            && MatchesOfItem(t', t.nextId) * t.matches.Keys == {}
  {
    hide AddMissing, SlotsAre, ChosenRanking, ForeignKeys, IdsBelowSequence, BareItem, InputsOfItem, Scheduled,
      RoundsOfItem, MatchesOfItem;
    var bare, i := BareItem(t, tournament, body), t.nextId;
    BareItemIsBare(t, tournament, body);
    BareItemHasInputs(t, tournament, body);
    AddMissingSchedules(bare, i, body.teamCount);
    SameScheduled(t, bare, AddMissing(bare, i, body.teamCount), i, body.teamCount);
    RoundsScheduled(bare, AddMissing(bare, i, body.teamCount), i, body.teamCount);
    OldMatchesElsewhere(bare, i, body.teamCount);
  }

  lemma RoundsScheduled(t: Tables, t': Tables, i: Id, n: int)
    requires Scheduled(t, t', i, n) && RoundsOfItem(t, i) == {} && n >= 0
    ensures |RoundsOfItem(t', i)| == RoundsNeeded(n)
  {
  }

  lemma OldMatchesElsewhere(t: Tables, i: Id, n: int)
    requires MatchesOfItem(t, i) == {} && n <= |InputsOfItem(t, i)|
    requires (forall r | r in t.rounds :: r < t.nextId) && forall m | m in t.matches :: m < t.nextId
    requires forall m | m in t.matches :: t.matches[m].round in t.rounds
    ensures MatchesOfItem(AddMissing(t, i, n), i) * t.matches.Keys == {}
  {
    hide AddMissing, InputsOfItem, NumSetsOfItem;
    AddMissingExtends(t, i, n);
    forall m | m in t.matches ensures m !in MatchesOfItem(AddMissing(t, i, n), i) {
      assert m !in MatchesOfItem(t, i);
    }
  }

  lemma NoPairsYet(t: Tables, i: Id)
    requires MatchesOfItem(t, i) == {}
    ensures PairsOf(t, i) == {}
  {
  }

  // ---------------------------------------------------------------- a new bracket cannot shrink

  /** The database after the creation of a bracket: its inputs are all empty and all play, and nothing has started. */
  lemma CreatedBracketIsFull(t: Tables, tournament: Id, body: NewItemBody, skeletons: Skeletons)
    requires Intact(t) && IdsBelowSequence(t) && body.kind == SingleElimination && BracketRounds(body.teamCount).Some?
    requires CreationRefused(t, tournament, body).None?
    ensures var f, i := CreateStageItem(t, tournament, body, skeletons), t.nextId;
            && f.error.None? && StartedMatches(f.after, i) == {} && |EmptyInputs(f.after, i)| == body.teamCount
            && (forall x | x in InputsOfItem(f.after, i) :: PlayedIn(f.after.matches, {x}))
            && f.after.stageItems == BareItem(t, tournament, body).stageItems && f.after.stages == t.stages
  {
    hide Intact, BuildBracket, SlotsAre, ChosenRanking, ForeignKeys, IdsBelowSequence, BareItem, InputsOfItem,
      BracketRounds, EmptyInputs, PlayedIn, BySlot, BracketOver, RoundsOfItem, WithRounds, OthersKept, TracksLess,
      PositionsWithin, StartedMatches, MatchesOfItem, Extended;
    IntactForeignKeys(t);
    var bare, i := BareItem(t, tournament, body), t.nextId;
    BareItemIntact(t, tournament, body);
    BareItemIsBare(t, tournament, body);
    BareItemHasInputs(t, tournament, body);
    BareItemInputs(t, tournament, body);
    IntactIsSequenced(bare);
    BuildBracketForm(bare, i, body.teamCount);
    BuildBracketExtends(bare, i, body.teamCount);
    BuildBracketFrame(bare, i, body.teamCount);
    var t1, t' := WithRounds(bare, i, BracketRounds(body.teamCount).value), BuildBracket(bare, i, body.teamCount).value;
    BuiltBracketIsFull(bare, t1, t', i, Ids(RoundsOfItem(t1, i)));
    SameInputsSameSlots(bare, t', i);
    SameEmpties(bare, t', i);
  }

  lemma SameEmpties(t: Tables, t': Tables, i: Id)
    requires t'.inputs == t.inputs
    ensures EmptyInputs(t', i) == EmptyInputs(t, i)
  {
  }

  lemma ResizedPlays(t: Tables, tournament: Id, i: Id, ranking: Id, x: Id)
    requires i in t.stageItems && ResizeForRanking(t, tournament, i, ranking).Ok? && PlayedIn(t.matches, {x})
    ensures PlayedIn(ResizeForRanking(t, tournament, i, ranking).value.matches, {x})
  {
    hide BreaksCheck, ResizedSets, MatchesOfItem;
    var t1 := ResizeForRanking(t, tournament, i, ranking).value;
    var m :| m in t.matches && Plays(t.matches[m], {x});
    assert m in t1.matches && Plays(t1.matches[m], {x});
  }

  /** So the first thing one may want to do with a new bracket fails: an update to any smaller legal size, with all
      slots empty and nothing started, ends in an error; unless the ranking changes as well, in a foreign key
      violation. */
  lemma CreatedBracketNeverShrinks(t: Tables, tournament: Id, body: NewItemBody, skeletons: Skeletons, change: ItemBody)
    requires Intact(t) && IdsBelowSequence(t) && body.kind == SingleElimination && BracketRounds(body.teamCount).Some?
    requires CreationRefused(t, tournament, body).None?
    requires BracketRounds(change.teamCount).Some? && change.teamCount < body.teamCount
    ensures var f := CreateStageItem(t, tournament, body, skeletons);
            && f.error.None? && Sequenced(f.after)
            && var r := UpdateStageItem(f.after, tournament, t.nextId, change, skeletons);
               r.Err? && (ChosenRanking(t, tournament, body) == Some(change.ranking) ==> r.error == ForeignKeyViolation)
  {
    hide Intact, CreateStageItem, ChosenRanking, IdsBelowSequence, BareItem, InputsOfItem, BracketRounds, EmptyInputs,
      PlayedIn, StartedMatches, ResizeBracket, Sequenced, BracketApart, Complete, SlotsOk, PositionsOk, TryResize;
    var t', i := CreateStageItem(t, tournament, body, skeletons).after, t.nextId;
    CreatedBracketIsFull(t, tournament, body, skeletons);
    BareRow(t, tournament, body);
    CreatedIntact(t, tournament, body, skeletons);
    IntactIsSequenced(t');
    if ResizeForRanking(t', tournament, i, change.ranking).Ok? {
      var t1 := ResizeForRanking(t', tournament, i, change.ranking).value;
      FullBracketStays(t', tournament, i, change);
      BracketsHaveNoGames(t1, t', i, change, skeletons);
    }
    hide AdjustIfAsked;
  }

  lemma FullBracketStays(t: Tables, tournament: Id, i: Id, change: ItemBody)
    requires Intact(t) && i in t.stageItems && ResizeForRanking(t, tournament, i, change.ranking).Ok?
    requires BracketRounds(change.teamCount).Some? && change.teamCount < t.stageItems[i].teamCount
    requires StartedMatches(t, i) == {} && t.stageItems[i].teamCount - change.teamCount <= |EmptyInputs(t, i)|
    requires forall x | x in InputsOfItem(t, i) :: PlayedIn(t.matches, {x})
    ensures ResizeBracket(ResizeForRanking(t, tournament, i, change.ranking).value, t, tournament, i, change.teamCount)
         == Err(ForeignKeyViolation)
  {
    hide Intact, ResizeForRanking, InputsOfItem, BracketRounds, EmptyInputs, PlayedIn, StartedMatches, ResizeBracket,
      BracketApart;
    var t1 := ResizeForRanking(t, tournament, i, change.ranking).value;
    ResizeForRankingIntact(t, tournament, i, change.ranking);
    ResizeForRankingFrame(t, tournament, i, change.ranking);
    IntactParts(t1);
    ApartInside(t1, i);
    forall x | x in InputsOfItem(t, i) ensures PlayedIn(t1.matches, {x}) {
      ResizedPlays(t, tournament, i, change.ranking, x);
    }
    FullBracketNeverShrinks(t1, t, tournament, i, change.teamCount);
  }

  lemma CreatedIntact(t: Tables, tournament: Id, body: NewItemBody, skeletons: Skeletons)
    requires Intact(t) && IdsBelowSequence(t) && body.kind == SingleElimination && BracketRounds(body.teamCount).Some?
    requires CreationRefused(t, tournament, body).None?
    ensures Intact(CreateStageItem(t, tournament, body, skeletons).after)
  {
    hide Intact, BuildBracket, SlotsAre, ChosenRanking, ForeignKeys, IdsBelowSequence, BareItem, InputsOfItem,
      BracketRounds, RoundsOfItem, MatchesOfItem, BracketOver, WithRounds, BySlot;
    IntactForeignKeys(t);
    var bare, i := BareItem(t, tournament, body), t.nextId;
    BareItemIntact(t, tournament, body);
    BareItemIsBare(t, tournament, body);
    BareItemHasInputs(t, tournament, body);
    BareRow(t, tournament, body);
    IntactIsSequenced(bare);
    BuildBracketForm(bare, i, body.teamCount);
    BuildBracketIntact(bare, i, body.teamCount);
  }

  /** A tournament with one stage and a one-set ranking. */
  const EMPTY_STAGE :=
    Tables({1}, map[], map[2 := Stage(1, None)], map[], map[], map[], map[], map[], map[], map[], map[], map[],
           map[3 := Ranking(1, None, 0, ONE_SET)], map[], 4)

  const BRACKET_OF_FOUR := NewItemBody(2, SingleElimination, 4, Some(3), None, 0)

  /** A bracket of four as the program builds it, from an empty stage: it cannot be cut to two. */
  lemma BracketOfFourNeverShrinks()
    ensures Intact(EMPTY_STAGE) && IdsBelowSequence(EMPTY_STAGE)
    ensures var f := CreateStageItem(EMPTY_STAGE, 1, BRACKET_OF_FOUR, MEXICANO);
            && f.error.None? && Sequenced(f.after)
            && UpdateStageItem(f.after, 1, 4, ItemBody(3, 2, None, 0), MEXICANO) == Err(ForeignKeyViolation)
  {
    EmptyStageIsIntact();
    hide Intact, CreateStageItem, UpdateStageItem, DefaultRanking;
    CreatedBracketNeverShrinks(EMPTY_STAGE, 1, BRACKET_OF_FOUR, MEXICANO, ItemBody(3, 2, None, 0));
  }

  lemma EmptyStageIsIntact()
    ensures Intact(EMPTY_STAGE) && IdsBelowSequence(EMPTY_STAGE)
  {
    hide ForeignKeys, Local;
    EmptyStageRefers();
    EmptyStageIsLocal();
  }

  lemma EmptyStageRefers()
    ensures ForeignKeys(EMPTY_STAGE)
  {
  }

  lemma EmptyStageIsLocal()
    ensures Local(EMPTY_STAGE)
  {
  }

  const BRACKET_OF_SIX := NewItemBody(2, SingleElimination, 6, Some(3), None, 0)

  /** A bracket of six, which the builder does not know: the creation is refused with 400, and yet the item is there
      afterwards, with six inputs and no match. */
  lemma BracketOfSixStays()
    ensures var f := CreateStageItem(EMPTY_STAGE, 1, BRACKET_OF_SIX, MEXICANO);
            && f.error == Some(Http(400)) && 4 in f.after.stageItems && f.after.stageItems[4].teamCount == 6
            && |InputsOfItem(f.after, 4)| == 6 && MatchesOfItem(f.after, 4) == {} && RoundsOfItem(f.after, 4) == {}
  {
    EmptyStageIsIntact();
    assert CreationRefused(EMPTY_STAGE, 1, BRACKET_OF_SIX).None?;
    assert BracketRounds(6).None?;
    hide Intact, DefaultRanking, BareItem, InputsOfItem, MatchesOfItem, RoundsOfItem, CreationRefused, BracketRounds;
    IntactForeignKeys(EMPTY_STAGE);
    BareItemIsBare(EMPTY_STAGE, 1, BRACKET_OF_SIX);
    BareItemHasInputs(EMPTY_STAGE, 1, BRACKET_OF_SIX);
    BareRow(EMPTY_STAGE, 1, BRACKET_OF_SIX);
  }
}
