/** The shape of a tournament: every reference resolves, a match plays inside its own stage item, slots are
    1..team_count, and nobody tracks a position that does not exist; and what each statement does to it. */
module Layout {
  import opened Schema
  import opened MatchSets
  import opened SetResize
  import opened Deletion
  import opened Cascades
  import opened ItemMatches
  import opened StageItemResize

  // ---------------------------------------------------------------- matches inside their item

  ghost predicate InputInside(t: Tables, x: Option<Id>, i: Id) {
    x.Some? ==> x.value in t.inputs && t.inputs[x.value].stageItem == i
  }

  /** Only brackets feed matches. */
  ghost predicate FeederInside(t: Tables, f: Option<Id>, i: Id) {
    f.Some? ==>
      && f.value in t.matches && t.matches[f.value].round in t.rounds
      && t.rounds[t.matches[f.value].round].stageItem == i
      && i in t.stageItems && t.stageItems[i].kind == SingleElimination
  }

  /** The match plays with inputs of its own item and waits for matches of its own item. */
  ghost predicate MatchInside(t: Tables, m: Match) {
    && m.round in t.rounds
    && var i := t.rounds[m.round].stageItem;
       && InputInside(t, m.input1, i) && InputInside(t, m.input2, i)
       && FeederInside(t, m.winnerFrom1, i) && FeederInside(t, m.winnerFrom2, i)
  }

  ghost predicate MatchesInside(t: Tables) {
    forall m | m in t.matches :: MatchInside(t, t.matches[m])
  }

  // ---------------------------------------------------------------- rows inside their tournament

  /** The tournament of a stage item. */
  function HomeOf(t: Tables, i: Id): Option<Id> {
    if i in t.stageItems && t.stageItems[i].stage in t.stages then Some(t.stages[t.stageItems[i].stage].tournament)
    else None
  }

  /** An input's own tournament column agrees with its item, and its team and the item it draws from are of that
      tournament. */
  ghost predicate InputLocal(t: Tables, x: Input) {
    && HomeOf(t, x.stageItem) == Some(x.tournament)
    && (x.team.Some? ==> x.team.value in t.teams && t.teams[x.team.value].tournament == x.tournament)
    && (x.winnerFrom.Some? ==> HomeOf(t, x.winnerFrom.value) == Some(x.tournament))
  }

  ghost predicate InputsLocal(t: Tables) {
    forall x | x in t.inputs :: InputLocal(t, t.inputs[x])
  }

  ghost predicate CourtLocal(t: Tables, court: Option<Id>, home: Option<Id>) {
    court.Some? ==> court.value in t.courts && home == Some(t.courts[court.value].tournament)
  }

  ghost predicate RefereeLocal(t: Tables, referee: Option<Id>, home: Option<Id>) {
    referee.Some? ==> referee.value in t.inputs && home == Some(t.inputs[referee.value].tournament)
  }

  /** A match's court and referee are of the tournament of its item. */
  ghost predicate MatchLocal(t: Tables, m: Match) {
    && m.round in t.rounds
    && CourtLocal(t, m.court, HomeOf(t, t.rounds[m.round].stageItem))
    && RefereeLocal(t, m.referee, HomeOf(t, t.rounds[m.round].stageItem))
  }

  ghost predicate MatchesLocal(t: Tables) {
    forall m | m in t.matches :: MatchLocal(t, t.matches[m])
  }

  predicate LevelLocal(t: Tables, level: Option<Id>, tournament: Id) {
    level.Some? ==> level.value in t.levels && t.levels[level.value].tournament == tournament
  }

  ghost predicate LevelsLocal(t: Tables) {
    && (forall s | s in t.stages :: LevelLocal(t, t.stages[s].level, t.stages[s].tournament))
    && (forall x | x in t.teams :: LevelLocal(t, t.teams[x].level, t.teams[x].tournament))
    && (forall x | x in t.players :: LevelLocal(t, t.players[x].level, t.players[x].tournament))
    && (forall r | r in t.rankings :: LevelLocal(t, t.rankings[r].level, t.rankings[r].tournament))
  }

  /** No row refers into another tournament. Rankings of items are left to `Tenancy`. */
  ghost predicate Local(t: Tables) {
    InputsLocal(t) && MatchesLocal(t) && LevelsLocal(t)
  }

  /** UNIQUE(stage_item_id, winner_from_stage_item_id, winner_position); a NULL in either never collides. */
  ghost predicate UniqueSources(inputs: map<Id, Input>) {
    forall x, y | x in inputs && y in inputs && x != y && SameSource(inputs[x], inputs[y]) ::
      inputs[x].stageItem != inputs[y].stageItem
  }

  predicate SameSource(x: Input, y: Input) {
    && x.winnerFrom.Some? && x.winnerPosition.Some?
    && x.winnerFrom == y.winnerFrom && x.winnerPosition == y.winnerPosition
  }

  /** What the schema enforces, that matches stay inside their items, and rows inside their tournament. */
  ghost predicate Intact(t: Tables) {
    Shape(t) && UniqueSources(t.inputs) && Local(t)
  }

  ghost predicate Shape(t: Tables) {
    ForeignKeys(t) && IdsBelowSequence(t) && UniqueTeams(t.inputs) && MatchesInside(t)
  }

  ghost predicate SlotsOk(t: Tables) {
    forall i | i in t.stageItems :: SlotsAre(t, i, t.stageItems[i].teamCount)
  }

  ghost predicate PositionsOk(t: Tables) {
    forall i | i in t.stageItems :: PositionsWithin(t, i, t.stageItems[i].teamCount)
  }

  // ---------------------------------------------------------------- consequences

  lemma IntactRefers(t: Tables)
    requires Intact(t)
    ensures ChainRefers(t)
    ensures forall m | m in t.matches ::
              t.matches[m].round in t.rounds && m < t.nextId
              && MatchRefers(t.matches[m], t.rounds.Keys, t.inputs.Keys, t.matches.Keys, t.courts.Keys)
    ensures (forall x | x in t.inputs :: x < t.nextId) && forall r | r in t.rounds :: r < t.nextId
  {
    hide InputsRefer, LevelsRefer, StagesRefer, TeamsRefer, PlayersRefer, MembershipsRefer, CourtsRefer,
      RankingsRefer, RankingPointsRefer, MatchesInside, UniqueTeams, UniqueSources, Local;
  }

  /** Only the item's own matches play with its inputs. */
  lemma PlayersInside(t: Tables, i: Id, m: Id)
    requires MatchesInside(t) && m in t.matches && Plays(t.matches[m], InputsOfItem(t, i))
    ensures m in MatchesOfItem(t, i)
  {
    assert MatchInside(t, t.matches[m]);
  }

  /** Only the item's own matches wait for its matches, and only in a bracket. */
  lemma FedInside(t: Tables, i: Id, m: Id)
    requires MatchesInside(t) && m in t.matches && Feeds(t.matches[m], MatchesOfItem(t, i))
    ensures m in MatchesOfItem(t, i) && i in t.stageItems && t.stageItems[i].kind == SingleElimination
  {
    assert MatchInside(t, t.matches[m]);
  }

  /** So a stage item can always be deleted. */
  lemma ItemsAreSeparate(t: Tables, i: Id)
    requires MatchesInside(t)
    ensures Separate(t, i)
  {
    forall m | m in t.matches && m !in MatchesOfItem(t, i)
      ensures !Feeds(t.matches[m], MatchesOfItem(t, i)) && !Plays(t.matches[m], InputsOfItem(t, i))
    {
      if Feeds(t.matches[m], MatchesOfItem(t, i)) { FedInside(t, i, m); }
      if Plays(t.matches[m], InputsOfItem(t, i)) { PlayersInside(t, i, m); }
    }
  }

  /** And shrinking an item that is no bracket may start from the state as read. */
  lemma CarriedAtOnce(t: Tables, i: Id)
    requires MatchesInside(t) && i in t.stageItems && t.stageItems[i].kind != SingleElimination
    ensures Carried(t, t, i)
  {
    forall m | m in t.matches
      ensures !Feeds(t.matches[m], MatchesOfItem(t, i))
      ensures Plays(t.matches[m], InputsOfItem(t, i)) ==> m in MatchesOfItem(t, i)
    {
      if Feeds(t.matches[m], MatchesOfItem(t, i)) { FedInside(t, i, m); }
      if Plays(t.matches[m], InputsOfItem(t, i)) { PlayersInside(t, i, m); }
    }
  }

  // ---------------------------------------------------------------- what leaves the shape intact

  predicate WaitsFor(m: Match, f: Id) {
    m.winnerFrom1 == Some(f) || m.winnerFrom2 == Some(f)
  }

  /** A match stays inside its item when everything it refers to stays in that item. */
  lemma StaysInside(t: Tables, t': Tables, m: Match)
    requires MatchInside(t, m) && m.round in t'.rounds
    requires t'.rounds[m.round].stageItem == t.rounds[m.round].stageItem
    requires forall x | x in t.inputs && PlaysIn(m, x) ::
               x in t'.inputs && t'.inputs[x].stageItem == t.inputs[x].stageItem
    requires forall f | f in t.matches && WaitsFor(m, f) ::
               && f in t'.matches && t'.matches[f].round == t.matches[f].round && t.matches[f].round in t.rounds
               && t.matches[f].round in t'.rounds
               && t'.rounds[t.matches[f].round].stageItem == t.rounds[t.matches[f].round].stageItem
    requires forall i | i in t.stageItems && t.stageItems[i].kind == SingleElimination ::
               i in t'.stageItems && t'.stageItems[i].kind == SingleElimination
    ensures MatchInside(t', m)
  {
    assert m.input1.Some? ==> PlaysIn(m, m.input1.value);
    assert m.input2.Some? ==> PlaysIn(m, m.input2.value);
    assert m.winnerFrom1.Some? ==> WaitsFor(m, m.winnerFrom1.value);
    assert m.winnerFrom2.Some? ==> WaitsFor(m, m.winnerFrom2.value);
  }

  /** Levels, stages, teams, players and courts stay, items stay in their stage, and rankings in their level. */
  ghost predicate GroundKept(t: Tables, t': Tables) {
    && t'.levels == t.levels && t'.stages == t.stages && t'.teams == t.teams && t'.players == t.players
    && t'.courts == t.courts
    && (forall i | i in t.stageItems :: i in t'.stageItems && t'.stageItems[i].stage == t.stageItems[i].stage)
    && (forall r | r in t'.rankings ::
          t'.rankings[r].level.None? || (r in t.rankings && SameLevel(t.rankings[r], t'.rankings[r])))
  }

  predicate SameLevel(r: Ranking, r': Ranking) {
    r'.level == r.level && r'.tournament == r.tournament
  }

  /** An input as it was, or with a team or source less; a new one of the item's tournament with neither. */
  ghost predicate InputKept(t: Tables, t': Tables, x: Id)
    requires x in t'.inputs
  {
    var row := t'.inputs[x];
    || (row.team.None? && row.winnerFrom.None? && HomeOf(t', row.stageItem) == Some(row.tournament))
    || (x in t.inputs
        && row.tournament == t.inputs[x].tournament && row.stageItem == t.inputs[x].stageItem
        && (row.team.Some? ==> row.team == t.inputs[x].team)
        && (row.winnerFrom.Some? ==> row.winnerFrom == t.inputs[x].winnerFrom))
  }

  ghost predicate InputsKept(t: Tables, t': Tables) {
    forall x | x in t'.inputs :: InputKept(t, t', x)
  }

  /** A match as it was, in a round of the same item, perhaps without its referee; a new one with neither court nor
      referee. */
  ghost predicate MatchKept(t: Tables, t': Tables, m: Id)
    requires m in t'.matches
  {
    var row := t'.matches[m];
    && row.round in t'.rounds
    && (|| (row.court.None? && row.referee.None?)
        || (m in t.matches && row.round == t.matches[m].round && row.court == t.matches[m].court
            && row.round in t.rounds && t'.rounds[row.round].stageItem == t.rounds[row.round].stageItem
            && (row.referee.Some? ==> row.referee == t.matches[m].referee && RefereeStays(t, t', row.referee.value))))
  }

  predicate RefereeStays(t: Tables, t': Tables, x: Id) {
    x in t.inputs && x in t'.inputs && t'.inputs[x].tournament == t.inputs[x].tournament
  }

  ghost predicate MatchesKept(t: Tables, t': Tables) {
    forall m | m in t'.matches :: MatchKept(t, t', m)
  }

  lemma HomesStay(t: Tables, t': Tables, i: Id)
    requires GroundKept(t, t')
    ensures HomeOf(t, i).Some? ==> HomeOf(t', i) == HomeOf(t, i)
  {
  }

  /** Rows that come from rows inside their tournament, or refer to nothing, are inside it. */
  lemma KeptLocal(t: Tables, t': Tables)
    requires Local(t) && GroundKept(t, t') && InputsKept(t, t') && MatchesKept(t, t')
    ensures Local(t')
  {
    hide HomeOf, GroundKept, LevelsLocal;
    forall x | x in t'.inputs ensures InputLocal(t', t'.inputs[x]) { KeptInput(t, t', x); }
    forall m | m in t'.matches ensures MatchLocal(t', t'.matches[m]) { KeptMatchLocal(t, t', m); }
    KeptLevels(t, t');
  }

  lemma KeptLevels(t: Tables, t': Tables)
    requires LevelsLocal(t) && GroundKept(t, t')
    ensures LevelsLocal(t')
  {
  }

  lemma KeptInput(t: Tables, t': Tables, x: Id)
    requires InputsLocal(t) && GroundKept(t, t') && x in t'.inputs && InputKept(t, t', x)
    ensures InputLocal(t', t'.inputs[x])
  {
    HomesStay(t, t', t'.inputs[x].stageItem);
    if t'.inputs[x].winnerFrom.Some? { HomesStay(t, t', t'.inputs[x].winnerFrom.value); }
    assert x in t.inputs ==> InputLocal(t, t.inputs[x]);
    hide HomeOf;
  }

  lemma KeptMatchLocal(t: Tables, t': Tables, m: Id)
    requires MatchesLocal(t) && GroundKept(t, t') && m in t'.matches && MatchKept(t, t', m)
    ensures MatchLocal(t', t'.matches[m])
  {
    HomesStay(t, t', t'.rounds[t'.matches[m].round].stageItem);
    assert m in t.matches ==> MatchLocal(t, t.matches[m]);
    hide HomeOf;
  }

  lemma UntouchedInputs(t: Tables, t': Tables)
    requires t'.inputs == t.inputs
    ensures InputsKept(t, t')
  {
  }

  /** Rounds that stay, stay in their item. */
  lemma UntouchedMatches(t: Tables, t': Tables)
    requires Local(t) && t'.matches == t.matches
    requires forall r | r in t.rounds :: r in t'.rounds && t'.rounds[r].stageItem == t.rounds[r].stageItem
    requires forall x | x in t.inputs :: x in t'.inputs && t'.inputs[x].tournament == t.inputs[x].tournament
    ensures MatchesKept(t, t')
  {
    forall m | m in t'.matches ensures MatchKept(t, t', m) { assert MatchLocal(t, t.matches[m]); }
  }

  /** And inside their items, as long as brackets stay brackets. */
  lemma SameInside(t: Tables, t': Tables)
    requires MatchesInside(t) && t'.matches == t.matches && t'.rounds == t.rounds && t'.inputs == t.inputs
    requires forall i | i in t.stageItems && t.stageItems[i].kind == SingleElimination ::
               i in t'.stageItems && t'.stageItems[i].kind == SingleElimination
    ensures MatchesInside(t')
  {
    forall m | m in t'.matches ensures MatchInside(t', t'.matches[m]) {
      assert MatchInside(t, t.matches[m]);
      forall f | f in t.matches && WaitsFor(t.matches[m], f) ensures t.matches[f].round in t.rounds {
        assert MatchInside(t, t.matches[f]);
      }
      StaysInside(t, t', t.matches[m]);
    }
  }

  /** Changes of items and rankings that keep the ground leave every row inside its tournament. */
  lemma GroundLocal(t: Tables, t': Tables)
    requires Local(t) && GroundKept(t, t') && t'.inputs == t.inputs && t'.matches == t.matches && t'.rounds == t.rounds
    ensures Local(t')
  {
    hide Local, GroundKept, InputsKept, MatchesKept;
    UntouchedInputs(t, t');
    UntouchedMatches(t, t');
    KeptLocal(t, t');
  }

  /** Only rows of matches and their sets differ: some may be gone, if no other waits for them; the rest keep
      what they refer to, up to referees that are taken away. */
  ghost predicate MatchesThinned(t: Tables, t': Tables) {
    && t' == t.(matches := t'.matches, matchSets := t'.matchSets)
    && t'.matchSets.Keys <= t'.matches.Keys <= t.matches.Keys
    && forall m | m in t'.matches ::
         && m in t.matches && SameReferences(t.matches[m], t'.matches[m])
         && Refers(t'.matches[m].winnerFrom1, t'.matches.Keys) && Refers(t'.matches[m].winnerFrom2, t'.matches.Keys)
  }

  predicate SameReferences(m: Match, m': Match) {
    && m'.round == m.round && m'.input1 == m.input1 && m'.input2 == m.input2
    && m'.winnerFrom1 == m.winnerFrom1 && m'.winnerFrom2 == m.winnerFrom2 && m'.court == m.court
    && (m'.referee == m.referee || m'.referee.None?)
  }

  lemma MatchesThinnedShape(t: Tables, t': Tables)
    requires Shape(t) && MatchesThinned(t, t')
    ensures Shape(t')
  {
    hide InputsRefer, StageItemsRefer, RoundsRefer, LevelsRefer, StagesRefer, TeamsRefer, PlayersRefer,
      MembershipsRefer, CourtsRefer, RankingsRefer, RankingPointsRefer, UniqueTeams;
    forall m | m in t'.matches
      ensures MatchRefers(t'.matches[m], t'.rounds.Keys, t'.inputs.Keys, t'.matches.Keys, t'.courts.Keys)
      ensures MatchInside(t', t'.matches[m])
    {
      assert MatchRefers(t.matches[m], t.rounds.Keys, t.inputs.Keys, t.matches.Keys, t.courts.Keys);
      ThinnedInside(t, t', m);
    }
  }

  lemma ThinnedInside(t: Tables, t': Tables, m: Id)
    requires MatchesInside(t) && MatchesThinned(t, t') && m in t'.matches
    ensures MatchInside(t', t'.matches[m])
  {
    assert MatchInside(t, t.matches[m]);
    forall f | f in t.matches && WaitsFor(t.matches[m], f)
      ensures f in t'.matches && t'.matches[f].round == t.matches[f].round && t.matches[f].round in t.rounds
    {
      assert Refers(t'.matches[m].winnerFrom1, t'.matches.Keys) && Refers(t'.matches[m].winnerFrom2, t'.matches.Keys);
      assert f in t'.matches && SameReferences(t.matches[f], t'.matches[f]);
    }
    StaysInside(t, t', t.matches[m]);
  }

  lemma ThinnedKept(t: Tables, t': Tables)
    requires Local(t) && MatchesThinned(t, t')
    ensures MatchesKept(t, t')
  {
    forall m | m in t'.matches ensures MatchKept(t, t', m) {
      assert MatchLocal(t, t.matches[m]) && SameReferences(t.matches[m], t'.matches[m]);
    }
  }

  lemma MatchesThinnedIntact(t: Tables, t': Tables)
    requires Intact(t) && MatchesThinned(t, t')
    ensures Intact(t')
  {
    hide Shape, Local, InputsKept, MatchesKept, UniqueSources;
    MatchesThinnedShape(t, t');
    ThinnedKept(t, t');
    UntouchedInputs(t, t');
    KeptLocal(t, t');
  }

  /** Only rows of inputs differ: their slots, and teams and positions taken away. */
  ghost predicate InputsLoosened(t: Tables, t': Tables) {
    && t' == t.(inputs := t'.inputs) && t'.inputs.Keys == t.inputs.Keys
    && forall x | x in t.inputs ::
         && t'.inputs[x].tournament == t.inputs[x].tournament && t'.inputs[x].stageItem == t.inputs[x].stageItem
         && (t'.inputs[x].team == t.inputs[x].team || t'.inputs[x].team.None?)
         && (t'.inputs[x].winnerFrom.Some? ==> SameTracking(t.inputs[x], t'.inputs[x]))
  }

  predicate SameTracking(x: Input, y: Input) {
    y.winnerFrom == x.winnerFrom && y.winnerPosition == x.winnerPosition
  }

  lemma InputsLoosenedShape(t: Tables, t': Tables)
    requires Shape(t) && InputsLoosened(t, t')
    ensures Shape(t')
  {
    hide StageItemsRefer, RoundsRefer, LevelsRefer, StagesRefer, TeamsRefer, PlayersRefer, MatchesRefer,
      MembershipsRefer, CourtsRefer, RankingsRefer, RankingPointsRefer, MatchSetsRefer;
    forall m | m in t'.matches ensures MatchInside(t', t'.matches[m]) { LoosenedInside(t, t', m); }
    LoosenedUnique(t.inputs, t'.inputs);
    hide UniqueTeams, MatchInside;
  }

  lemma LoosenedInside(t: Tables, t': Tables, m: Id)
    requires MatchesInside(t) && InputsLoosened(t, t') && m in t.matches
    ensures MatchInside(t', t.matches[m])
  {
    assert MatchInside(t, t.matches[m]);
    forall f | f in t.matches && WaitsFor(t.matches[m], f) ensures t.matches[f].round in t.rounds {
      assert MatchInside(t, t.matches[f]);
    }
    StaysInside(t, t', t.matches[m]);
  }

  lemma LoosenedUnique(inputs: map<Id, Input>, inputs': map<Id, Input>)
    requires UniqueTeams(inputs) && inputs'.Keys <= inputs.Keys
    requires forall x | x in inputs' ::
               inputs'[x].stageItem == inputs[x].stageItem
                 && (inputs'[x].team == inputs[x].team || inputs'[x].team.None?)
    ensures UniqueTeams(inputs')
  {
    forall x, y | x in inputs' && y in inputs' && x != y
      ensures inputs'[x].team.Some? && inputs'[x].team == inputs'[y].team ==>
                inputs'[x].stageItem != inputs'[y].stageItem
    {
      assert x in inputs && y in inputs;
    }
  }

  lemma LoosenedSources(inputs: map<Id, Input>, inputs': map<Id, Input>)
    requires UniqueSources(inputs) && inputs'.Keys <= inputs.Keys
    requires forall x | x in inputs' ::
               inputs'[x].stageItem == inputs[x].stageItem
               && (inputs'[x].winnerFrom.Some? ==> SameTracking(inputs[x], inputs'[x]))
    ensures UniqueSources(inputs')
  {
    forall x, y | x in inputs' && y in inputs' && x != y && SameSource(inputs'[x], inputs'[y])
      ensures inputs'[x].stageItem != inputs'[y].stageItem
    {
      assert x in inputs && y in inputs && SameSource(inputs[x], inputs[y]);
    }
  }

  lemma LoosenedKept(t: Tables, t': Tables)
    requires Local(t) && InputsLoosened(t, t')
    ensures InputsKept(t, t') && MatchesKept(t, t')
  {
    forall x | x in t.inputs.Keys ensures x in t'.inputs {}
    UntouchedMatches(t, t');
  }

  lemma InputsLoosenedIntact(t: Tables, t': Tables)
    requires Intact(t) && InputsLoosened(t, t')
    ensures Intact(t')
  {
    hide Shape, Local, InputsKept, MatchesKept, UniqueSources;
    InputsLoosenedShape(t, t');
    LoosenedKept(t, t');
    LoosenedSources(t.inputs, t'.inputs);
    KeptLocal(t, t');
  }

  // ---------------------------------------------------------------- inserts

  lemma RoundShape(t: Tables, i: Id, lifecycle: Lifecycle)
    requires Shape(t) && i in t.stageItems
    ensures Shape(WithRound(t, i, lifecycle)) && t.nextId !in t.rounds
  {
    hide InputsRefer, StageItemsRefer, LevelsRefer, StagesRefer, TeamsRefer, PlayersRefer, MatchSetsRefer,
      MembershipsRefer, CourtsRefer, RankingsRefer, RankingPointsRefer, UniqueTeams;
    var t' := WithRound(t, i, lifecycle);
    forall m | m in t'.matches
      ensures MatchRefers(t'.matches[m], t'.rounds.Keys, t'.inputs.Keys, t'.matches.Keys, t'.courts.Keys)
      ensures MatchInside(t', t'.matches[m])
    {
      assert MatchInside(t, t.matches[m]);
      assert MatchRefers(t.matches[m], t.rounds.Keys, t.inputs.Keys, t.matches.Keys, t.courts.Keys);
    }
  }

  lemma RoundIntact(t: Tables, i: Id, lifecycle: Lifecycle)
    requires Intact(t) && i in t.stageItems
    ensures Intact(WithRound(t, i, lifecycle)) && t.nextId !in t.rounds
  {
    hide Shape, Local, InputsKept, MatchesKept, UniqueSources;
    var t' := WithRound(t, i, lifecycle);
    RoundShape(t, i, lifecycle);
    UntouchedInputs(t, t');
    UntouchedMatches(t, t');
    KeptLocal(t, t');
  }

  lemma {:induction false} RoundsIntact(t: Tables, i: Id, k: nat)
    requires Intact(t) && i in t.stageItems
    ensures Intact(WithRounds(t, i, k))
  {
    hide Intact;
    if k > 0 {
      RoundsIntact(t, i, k - 1);
      RoundIntact(WithRounds(t, i, k - 1), i, Lifecycle.Active);
    }
  }

  lemma MatchShape(t: Tables, row: Match)
    requires Shape(t) && MatchInside(t, row) && Refers(row.court, t.courts.Keys)
    ensures Shape(WithMatch(t, row)) && t.nextId !in t.matches
  {
    hide InputsRefer, StageItemsRefer, RoundsRefer, LevelsRefer, StagesRefer, TeamsRefer, PlayersRefer, MatchInside,
      MembershipsRefer, CourtsRefer, RankingsRefer, RankingPointsRefer, UniqueTeams, NewSets, NumSetsForRound, Max;
    var t' := WithMatch(t, row);
    forall m | m in t'.matches
      ensures MatchRefers(t'.matches[m], t'.rounds.Keys, t'.inputs.Keys, t'.matches.Keys, t'.courts.Keys)
      ensures MatchInside(t', t'.matches[m])
    {
      if m in t.matches {
        assert MatchRefers(t.matches[m], t.rounds.Keys, t.inputs.Keys, t.matches.Keys, t.courts.Keys);
        MoreMatchesInside(t, row, t.matches[m]);
      } else {
        MoreMatchesInside(t, row, row);
        InsertedInside(t', row);
        InsideRefers(t, row);
      }
    }
  }

  lemma InsideRefers(t: Tables, m: Match)
    requires MatchInside(t, m)
    ensures m.round in t.rounds && Refers(m.input1, t.inputs.Keys) && Refers(m.input2, t.inputs.Keys)
    ensures Refers(m.winnerFrom1, t.matches.Keys) && Refers(m.winnerFrom2, t.matches.Keys)
  {
  }

  lemma InsertedInside(t: Tables, row: Match)
    requires MatchInside(t, row)
    ensures MatchInside(t, Inserted(row))
  {
  }

  lemma MoreMatchesInside(t: Tables, row: Match, m: Match)
    requires t.nextId !in t.matches && MatchInside(t, m)
    ensures MatchInside(WithMatch(t, row), m)
  {
    hide NewSets, NumSetsForRound, Max;
    StaysInside(t, WithMatch(t, row), m);
  }

  lemma OneMoreKept(t: Tables, row: Match)
    requires Local(t) && t.nextId !in t.matches && row.round in t.rounds && row.court.None?
    ensures MatchesKept(t, WithMatch(t, row))
  {
    hide NewSets, NumSetsForRound, Max;
    var t' := WithMatch(t, row);
    forall m | m in t'.matches ensures MatchKept(t, t', m) { assert m in t.matches ==> MatchLocal(t, t.matches[m]); }
  }

  lemma MatchIntact(t: Tables, row: Match)
    requires Intact(t) && MatchInside(t, row) && row.court.None?
    ensures Intact(WithMatch(t, row)) && t.nextId !in t.matches
  {
    hide Shape, Local, InputsKept, MatchesKept, UniqueSources, NewSets, NumSetsForRound, Max;
    MatchShape(t, row);
    OneMoreKept(t, row);
    UntouchedInputs(t, WithMatch(t, row));
    KeptLocal(t, WithMatch(t, row));
  }

  lemma InputShape(t: Tables, row: Input)
    requires Shape(t) && row.team.None? && row.winnerFrom.None?
    requires row.tournament in t.tournaments && row.stageItem in t.stageItems
    ensures Shape(t.(inputs := t.inputs[t.nextId := row], nextId := t.nextId + 1)) && t.nextId !in t.inputs
  {
    hide StageItemsRefer, RoundsRefer, LevelsRefer, StagesRefer, TeamsRefer, PlayersRefer, MatchSetsRefer,
      MembershipsRefer, CourtsRefer, RankingsRefer, RankingPointsRefer;
    var t' := t.(inputs := t.inputs[t.nextId := row], nextId := t.nextId + 1);
    OneMoreUnique(t.inputs, t.nextId, row);
    hide UniqueTeams;
    forall m | m in t'.matches
      ensures MatchRefers(t'.matches[m], t'.rounds.Keys, t'.inputs.Keys, t'.matches.Keys, t'.courts.Keys)
      ensures MatchInside(t', t'.matches[m])
    {
      assert MatchInside(t, t.matches[m]);
      assert MatchRefers(t.matches[m], t.rounds.Keys, t.inputs.Keys, t.matches.Keys, t.courts.Keys);
    }
  }

  lemma OneMoreUnique(inputs: map<Id, Input>, x: Id, row: Input)
    requires UniqueTeams(inputs) && row.team.None?
    ensures UniqueTeams(inputs[x := row])
  {
  }

  lemma OneMoreSource(inputs: map<Id, Input>, x: Id, row: Input)
    requires UniqueSources(inputs) && row.winnerFrom.None?
    ensures UniqueSources(inputs[x := row])
  {
  }

  lemma OneMoreInputKept(t: Tables, row: Input)
    requires Local(t) && t.nextId !in t.inputs && row.team.None? && row.winnerFrom.None?
    requires HomeOf(t, row.stageItem) == Some(row.tournament)
    ensures var t' := t.(inputs := t.inputs[t.nextId := row], nextId := t.nextId + 1);
            InputsKept(t, t') && MatchesKept(t, t')
  {
    UntouchedMatches(t, t.(inputs := t.inputs[t.nextId := row], nextId := t.nextId + 1));
  }

  lemma InputIntact(t: Tables, row: Input)
    requires Intact(t) && row.team.None? && row.winnerFrom.None?
    requires row.tournament in t.tournaments && HomeOf(t, row.stageItem) == Some(row.tournament)
    ensures Intact(t.(inputs := t.inputs[t.nextId := row], nextId := t.nextId + 1)) && t.nextId !in t.inputs
  {
    hide Shape, Local, InputsKept, MatchesKept, UniqueSources;
    var t' := t.(inputs := t.inputs[t.nextId := row], nextId := t.nextId + 1);
    InputShape(t, row);
    OneMoreInputKept(t, row);
    OneMoreSource(t.inputs, t.nextId, row);
    KeptLocal(t, t');
  }

  lemma {:induction false} AppendedIntact(t: Tables, tournament: Id, i: Id, first: int, k: nat)
    requires Intact(t) && tournament in t.tournaments && HomeOf(t, i) == Some(tournament)
    ensures Intact(Appended(t, tournament, i, first, k))
    ensures HomeOf(Appended(t, tournament, i, first, k), i) == Some(tournament)
  {
    hide Intact;
    if k > 0 {
      AppendedIntact(t, tournament, i, first, k - 1);
      InputIntact(Appended(t, tournament, i, first, k - 1), NewInput(tournament, i, first + k - 1));
    }
  }

  // ---------------------------------------------------------------- updates and deletes

  lemma ResizedIntact(t: Tables, counts: Counts, n: int)
    requires Intact(t) && counts.Keys <= t.matches.Keys
    ensures Intact(Resized(t, counts, n))
  {
    hide ForeignKeys, IdsBelowSequence, UniqueTeams, MatchesInside, Intact;
    IntactRefers(t);
    hide ResizedRows, Trim;
    ResizedThins(t, counts, n);
    MatchesThinnedIntact(t, Resized(t, counts, n));
  }

  lemma ResizedThins(t: Tables, counts: Counts, n: int)
    requires t.matchSets.Keys <= t.matches.Keys && counts.Keys <= t.matches.Keys
    requires forall m | m in t.matches ::
               MatchRefers(t.matches[m], t.rounds.Keys, t.inputs.Keys, t.matches.Keys, t.courts.Keys)
    ensures MatchesThinned(t, Resized(t, counts, n))
  {
    hide ResizedRows, Trim;
  }

  lemma DeleteMatchesIntact(t: Tables, ids: set<Id>)
    requires Intact(t) && DeleteMatches(t, ids).Ok?
    ensures Intact(DeleteMatches(t, ids).value)
  {
    hide ForeignKeys, IdsBelowSequence, UniqueTeams, MatchesInside, Intact;
    IntactRefers(t);
    DeletionThins(t, ids);
    MatchesThinnedIntact(t, DeleteMatches(t, ids).value);
  }

  lemma DeletionThins(t: Tables, ids: set<Id>)
    requires DeleteMatches(t, ids).Ok? && t.matchSets.Keys <= t.matches.Keys
    requires forall m | m in t.matches ::
               MatchRefers(t.matches[m], t.rounds.Keys, t.inputs.Keys, t.matches.Keys, t.courts.Keys)
    ensures MatchesThinned(t, DeleteMatches(t, ids).value)
  {
    forall m | m in t.matches && m !in ids ensures !Feeds(t.matches[m], ids) {}
    var t' := DeleteMatches(t, ids).value;
    forall m | m in t'.matches
      ensures Refers(t'.matches[m].winnerFrom1, t'.matches.Keys) && Refers(t'.matches[m].winnerFrom2, t'.matches.Keys)
    {
      assert MatchRefers(t.matches[m], t.rounds.Keys, t.inputs.Keys, t.matches.Keys, t.courts.Keys);
    }
    hide FedBy;
  }

  lemma {:induction false} OneByOneIntact(t: Tables, ids: seq<Id>)
    requires Intact(t) && DeletedOneByOne(t, ids).Ok?
    ensures Intact(DeletedOneByOne(t, ids).value)
  {
    hide Intact, DeleteMatches;
    if ids != [] {
      OneByOneIntact(t, ids[..|ids| - 1]);
      DeleteMatchesIntact(DeletedOneByOne(t, ids[..|ids| - 1]).value, {ids[|ids| - 1]});
    }
  }

  lemma DeleteRoundsShape(t: Tables, ids: set<Id>)
    requires Shape(t) && DeleteRounds(t, ids).Ok?
    ensures Shape(DeleteRounds(t, ids).value)
  {
    hide ForeignKeys, UniqueTeams, MatchesInside;
    DeleteRoundsKeeps(t, ids);
    FewerRoundsInside(t, ids);
  }

  lemma FewerRoundsInside(t: Tables, ids: set<Id>)
    requires MatchesInside(t) && DeleteRounds(t, ids).Ok?
    ensures MatchesInside(DeleteRounds(t, ids).value)
  {
    var t' := DeleteRounds(t, ids).value;
    forall m | m in t'.matches ensures MatchInside(t', t'.matches[m]) {
      assert MatchInside(t, t.matches[m]) && t.matches[m].round !in ids;
      forall f | f in t.matches && WaitsFor(t.matches[m], f) ensures t.matches[f].round in t'.rounds {
        assert MatchInside(t, t.matches[f]) && t.matches[f].round !in ids;
      }
      StaysInside(t, t', t.matches[m]);
    }
  }

  lemma FewerRoundsKept(t: Tables, ids: set<Id>)
    requires Local(t) && DeleteRounds(t, ids).Ok?
    ensures MatchesKept(t, DeleteRounds(t, ids).value)
  {
    var t' := DeleteRounds(t, ids).value;
    forall m | m in t'.matches ensures MatchKept(t, t', m) {
      assert MatchLocal(t, t.matches[m]) && t.matches[m].round !in ids;
    }
  }

  lemma DeleteRoundsIntact(t: Tables, ids: set<Id>)
    requires Intact(t) && DeleteRounds(t, ids).Ok?
    ensures Intact(DeleteRounds(t, ids).value)
  {
    hide Shape, Local, InputsKept, MatchesKept, UniqueSources;
    DeleteRoundsShape(t, ids);
    FewerRoundsKept(t, ids);
    UntouchedInputs(t, DeleteRounds(t, ids).value);
    KeptLocal(t, DeleteRounds(t, ids).value);
  }

  lemma DeleteInputsShape(t: Tables, ids: set<Id>)
    requires Shape(t) && DeleteInputs(t, ids).Ok?
    ensures Shape(DeleteInputs(t, ids).value)
  {
    hide ForeignKeys, UniqueTeams, MatchesInside;
    DeleteInputsKeeps(t, ids);
    var t' := DeleteInputs(t, ids).value;
    LoosenedUnique(t.inputs, t'.inputs);
    CutInside(t, ids);
  }

  lemma CutInside(t: Tables, ids: set<Id>)
    requires MatchesInside(t) && DeleteInputs(t, ids).Ok?
    ensures MatchesInside(DeleteInputs(t, ids).value)
  {
    var t' := DeleteInputs(t, ids).value;
    RefereesAside(t.matches, ids);
    hide WithoutReferees;
    forall m | m in t'.matches ensures MatchInside(t', t'.matches[m]) {
      assert MatchInside(t, t.matches[m]) && !Plays(t.matches[m], ids);
      forall f | f in t.matches && WaitsFor(t.matches[m], f)
        ensures t.matches[f].round in t.rounds && t'.matches[f].round == t.matches[f].round
      {
        assert MatchInside(t, t.matches[f]) && t'.matches[f] == t.matches[f].(referee := t'.matches[f].referee);
      }
      StaysInside(t, t', t.matches[m]);
      assert t'.matches[m] == t.matches[m].(referee := t'.matches[m].referee);
    }
  }

  lemma CutKept(t: Tables, ids: set<Id>)
    requires Local(t) && DeleteInputs(t, ids).Ok?
    ensures InputsKept(t, DeleteInputs(t, ids).value) && MatchesKept(t, DeleteInputs(t, ids).value)
  {
    hide PlayedIn;
    var t' := DeleteInputs(t, ids).value;
    forall m | m in t'.matches ensures MatchKept(t, t', m) { assert MatchLocal(t, t.matches[m]); }
  }

  lemma DeleteInputsIntact(t: Tables, ids: set<Id>)
    requires Intact(t) && DeleteInputs(t, ids).Ok?
    ensures Intact(DeleteInputs(t, ids).value)
  {
    hide Shape, Local, InputsKept, MatchesKept, UniqueSources, WithoutReferees, PlayedIn;
    var t' := DeleteInputs(t, ids).value;
    DeleteInputsShape(t, ids);
    CutKept(t, ids);
    LoosenedSources(t.inputs, t'.inputs);
    KeptLocal(t, t');
  }

  lemma RenumberedLoosens(t: Tables, i: Id, order: seq<Id>)
    ensures InputsLoosened(t, t.(inputs := Renumbered(t.inputs, i, order)))
    decreases |order|
  {
    if order != [] { RenumberedLoosens(t, i, order[..|order| - 1]); }
  }

  lemma ClearingLoosens(t: Tables, i: Id, count: int)
    ensures InputsLoosened(t, t.(inputs := PositionsCleared(t.inputs, i, count)))
  {
  }

  lemma ShrunkIntact(t: Tables, seen: Tables, i: Id, removed: set<Id>, count: int)
    requires Intact(t) && Shrunk(t, seen, i, removed, count).Ok?
    ensures Intact(Shrunk(t, seen, i, removed, count).value)
  {
    hide Intact, DeletedOneByOne, RemovableMatches, DeleteInputs, Renumbered, PositionsCleared, InputsLoosened,
      BySlot, Without, InputsOfItem;
    OneByOneIntact(t, RemovableMatches(seen, i, removed));
    var t1 := DeletedOneByOne(t, RemovableMatches(seen, i, removed)).value;
    DeleteInputsIntact(t1, InputsOfItem(t1, i) * removed);
    var t2 := DeleteInputs(t1, InputsOfItem(t1, i) * removed).value;
    RewrittenIntact(t2, i, Without(BySlot(seen, i), removed), count);
  }

  lemma RewrittenIntact(t: Tables, i: Id, order: seq<Id>, count: int)
    requires Intact(t)
    ensures Intact(t.(inputs := PositionsCleared(Renumbered(t.inputs, i, order), i, count)))
    ensures Intact(t.(inputs := Renumbered(t.inputs, i, order)))
    ensures Intact(t.(inputs := PositionsCleared(t.inputs, i, count)))
  {
    hide Intact, Renumbered, PositionsCleared, InputsLoosened;
    var t1 := t.(inputs := Renumbered(t.inputs, i, order));
    RenumberedLoosens(t, i, order);
    InputsLoosenedIntact(t, t1);
    ClearingLoosens(t1, i, count);
    InputsLoosenedIntact(t1, t1.(inputs := PositionsCleared(t1.inputs, i, count)));
    ClearingLoosens(t, i, count);
    InputsLoosenedIntact(t, t.(inputs := PositionsCleared(t.inputs, i, count)));
  }

  /** Changing the team count of an item that is no bracket keeps the shape, whatever else the request did
      before. */
  lemma ResizeIntact(t: Tables, seen: Tables, tournament: Id, i: Id, count: int)
    requires Intact(t) && i in seen.stageItems && Resize(t, seen, tournament, i, count).Ok?
    requires HomeOf(t, i) == Some(tournament)
    ensures Intact(Resize(t, seen, tournament, i, count).value)
  {
    hide Intact, Appended, Shrunk, EmptyInputs, RemovedInputs, BlockingSlots;
    var was := seen.stageItems[i].teamCount;
    if count > was {
      AppendedIntact(t, tournament, i, was + 1, count - was);
    } else {
      ShrunkIntact(t, seen, i, RemovedInputs(seen, i, was - count), count);
    }
  }
}
