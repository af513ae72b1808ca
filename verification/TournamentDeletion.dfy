/** Deleting a whole tournament: matches of every stage item, then rounds and inputs of every item, then
    items and stages, then everything else that belongs to the tournament. The functions follow the
    program statement by statement; the lemmas say in closed form what each phase leaves. */
module TournamentDeletion {
  import opened Schema
  import opened Progress
  import opened MatchSets
  import opened SetResize
  import opened Rankings
  import opened Deletion
  import opened Cascades

  // ---------------------------------------------------------------- the phases, statement by statement

  function NamesOf(t: Tables): map<Id, int> {
    map i | i in t.stageItems :: t.stageItems[i].name
  }

  /** The items of a stage as they are listed, by name. */
  function ItemsByName(t: Tables, stage: Id): (order: seq<Id>)
    ensures forall x :: x in order <==> x in ItemsOfStage(t, stage)
    ensures forall i, j | 0 <= i < j < |order| :: order[i] != order[j]
  {
    var order := SortedBy(ItemsOfStage(t, stage), NamesOf(t));
    assert forall i, j | 0 <= i < j < |order| :: Before(NamesOf(t), order[i], order[j]);
    order
  }

  /** Stage items in the order the nested loops visit them. */
  function ItemOrder(t: Tables, stages: seq<Id>): seq<Id> {
    if stages == [] then []
    else ItemOrder(t, stages[..|stages| - 1]) + ItemsByName(t, stages[|stages| - 1])
  }

  function MatchPhase(t: Tables, order: seq<Id>): Result<Tables> {
    if order == [] then Ok(t) else
      match MatchPhase(t, order[..|order| - 1])
      case Err(e) => Err(e)
      case Ok(s) => DeleteMatches(s, MatchesOfItem(s, order[|order| - 1]))
  }

  function DeleteRelations(t: Tables, i: Id): Result<Tables> {
    match DeleteRounds(t, RoundsOfItem(t, i))
    case Err(e) => Err(e)
    case Ok(s) => DeleteInputs(s.(inputs := Detached(s.inputs, {i})), InputsOfItem(s, i))
  }

  function RelationPhase(t: Tables, order: seq<Id>): Result<Tables> {
    if order == [] then Ok(t) else
      match RelationPhase(t, order[..|order| - 1])
      case Err(e) => Err(e)
      case Ok(s) => DeleteRelations(s, order[|order| - 1])
  }

  function ItemRows(t: Tables, order: seq<Id>): Result<Tables> {
    if order == [] then Ok(t) else
      match ItemRows(t, order[..|order| - 1])
      case Err(e) => Err(e)
      case Ok(s) => DeleteStageItem(s, order[|order| - 1])
  }

  /** `seen` is the database as it was listed before the first deletion. */
  function StagePhase(seen: Tables, t: Tables, tournament: Id, stages: seq<Id>): Result<Tables> {
    if stages == [] then Ok(t) else
      match StagePhase(seen, t, tournament, stages[..|stages| - 1])
      case Err(e) => Err(e)
      case Ok(s) =>
        match ItemRows(s, ItemsByName(seen, stages[|stages| - 1]))
        case Err(e) => Err(e)
        case Ok(u) => DeleteStage(u, tournament, stages[|stages| - 1])
  }

  function RankingPhase(t: Tables, tournament: Id, rankings: seq<Id>): Result<Tables> {
    if rankings == [] then Ok(t) else
      match RankingPhase(t, tournament, rankings[..|rankings| - 1])
      case Err(e) => Err(e)
      case Ok(s) => DeleteRanking(s, tournament, rankings[|rankings| - 1])
  }

  function BelongingsPhase(t: Tables, tournament: Id): Result<Tables> {
    match DeletePlayersOf(t, tournament) case Err(e) => Err(e) case Ok(t1) =>
    match DeleteCourtsOf(t1, tournament) case Err(e) => Err(e) case Ok(t2) =>
    match DeleteTeamsOf(t2, tournament) case Err(e) => Err(e) case Ok(t3) =>
    match DeleteLevelsOf(t3, tournament) case Err(e) => Err(e) case Ok(t4) =>
    DeleteTournament(t4, tournament)
  }

  // ---------------------------------------------------------------- closed forms

  function MatchesIn(t: Tables, items: set<Id>): set<Id> {
    set m | m in t.matches && t.matches[m].round in t.rounds && t.rounds[t.matches[m].round].stageItem in items
  }

  function RoundsIn(t: Tables, items: set<Id>): set<Id> {
    set r | r in t.rounds && t.rounds[r].stageItem in items
  }

  function InputsIn(t: Tables, items: set<Id>): set<Id> {
    set x | x in t.inputs && t.inputs[x].stageItem in items
  }

  function WithoutMatches(t: Tables, items: set<Id>): Tables {
    t.(matches := t.matches - MatchesIn(t, items), matchSets := t.matchSets - MatchesIn(t, items))
  }

  /** Whoever is fed by a match of an item belongs to that item or to one visited before it. */
  ghost predicate FeedsForward(t: Tables, order: seq<Id>) {
    forall k, m | 0 <= k < |order| && m in t.matches && Feeds(t.matches[m], MatchesOfItem(t, order[k])) ::
      m in MatchesIn(t, Group(order[..k + 1]))
  }

  lemma MatchStep(t: Tables, done: set<Id>, i: Id)
    requires i !in done
    ensures var s := WithoutMatches(t, done);
            && MatchesOfItem(s, i) == MatchesOfItem(t, i)
            && (FedBy(s.matches, MatchesOfItem(t, i)) <==>
                  exists m | m in t.matches ::
                      Feeds(t.matches[m], MatchesOfItem(t, i)) && m !in MatchesIn(t, done + {i}))
            && s.(matches := s.matches - MatchesOfItem(t, i), matchSets := s.matchSets - MatchesOfItem(t, i))
               == WithoutMatches(t, done + {i})
  {
    var s := WithoutMatches(t, done);
    assert MatchesOfItem(s, i) == MatchesOfItem(t, i);
    assert MatchesIn(t, done + {i}) == MatchesIn(t, done) + MatchesOfItem(t, i);
    hide MatchesIn, MatchesOfItem;
    assert s.matches - MatchesOfItem(t, i) == t.matches - MatchesIn(t, done + {i});
    assert s.matchSets - MatchesOfItem(t, i) == t.matchSets - MatchesIn(t, done + {i});
  }

  /** The first phase gets through exactly when feeding never runs backwards along the visit order;
      then precisely the matches of the visited items are gone. */
  lemma {:induction false} MatchPhaseForm(t: Tables, order: seq<Id>)
    requires forall x, y | 0 <= x < y < |order| :: order[x] != order[y]
    ensures MatchPhase(t, order).Ok? <==> FeedsForward(t, order)
    ensures MatchPhase(t, order).Ok? ==> MatchPhase(t, order).value == WithoutMatches(t, Group(order))
  {
    if order == [] {
      assert MatchesIn(t, Group([])) == {};
    } else {
      var n := |order| - 1;
      var init, i := order[..n], order[n];
      MatchPhaseForm(t, init);
      GroupOneMore(order, n);
      assert order[..n + 1] == order;
      MatchStep(t, Group(init), i);
      ForwardOneMore(t, order);
      hide MatchesIn, WithoutMatches, MatchesOfItem, FeedsForward, Group;
    }
  }

  lemma ForwardOneMore(t: Tables, order: seq<Id>)
    requires order != []
    ensures var n := |order| - 1;
            FeedsForward(t, order) <==>
              && FeedsForward(t, order[..n])
              && forall m | m in t.matches && Feeds(t.matches[m], MatchesOfItem(t, order[n])) ::
                  m in MatchesIn(t, Group(order))
  {
    var n := |order| - 1;
    hide MatchesIn, MatchesOfItem, Group;
    assert order[..n + 1] == order;
    if FeedsForward(t, order) {
      forall k, m | 0 <= k < n && m in t.matches && Feeds(t.matches[m], MatchesOfItem(t, order[..n][k]))
        ensures m in MatchesIn(t, Group(order[..n][..k + 1]))
      {
        assert order[..n][k] == order[k] && order[..n][..k + 1] == order[..k + 1];
      }
    }
    if FeedsForward(t, order[..n]) {
      forall k, m | 0 <= k < n && m in t.matches && Feeds(t.matches[m], MatchesOfItem(t, order[k]))
        ensures m in MatchesIn(t, Group(order[..k + 1]))
      {
        assert order[..n][k] == order[k] && order[..n][..k + 1] == order[..k + 1];
      }
    }
  }

  // ---------------------------------------------------------------- rounds and inputs

  /** No remaining match uses a round or an input of these items. */
  ghost predicate Quiet(t: Tables, items: set<Id>) {
    forall m | m in t.matches ::
      && t.matches[m].round !in RoundsIn(t, items)
      && !Plays(t.matches[m], InputsIn(t, items))
      && !Names(t.matches[m].referee, InputsIn(t, items))
  }

  function WithoutRelations(t: Tables, items: set<Id>): Tables {
    t.(rounds := t.rounds - RoundsIn(t, items), inputs := Detached(t.inputs, items) - InputsIn(t, items))
  }

  lemma RelationStep(t: Tables, done: set<Id>, i: Id, all: set<Id>)
    requires i !in done && i in all && Quiet(t, all)
    ensures DeleteRelations(WithoutRelations(t, done), i) == Ok(WithoutRelations(t, done + {i}))
  {
    hide InputsIn, InputsOfItem, RoundsIn, RoundsOfItem, Detached, WithoutReferees, PlayedIn, Quiet, DeleteRounds;
    var s := WithoutRelations(t, done);
    RoundStep(t, done, i, all);
    ItemInputs(t, done, i, all);
    InputStep(t.inputs, done, i, InputsIn(t, done), InputsOfItem(t, i));
    QuietInputs(t, InputsOfItem(t, i), all);
    var s1 := s.(rounds := t.rounds - RoundsIn(t, done + {i}));
    SameInputs(s, s1, i);
  }

  lemma ItemInputs(t: Tables, done: set<Id>, i: Id, all: set<Id>)
    requires i !in done && i in all
    ensures InputsOfItem(WithoutRelations(t, done), i) == InputsOfItem(t, i) <= InputsIn(t, all)
    ensures InputsIn(t, done + {i}) == InputsIn(t, done) + InputsOfItem(t, i)
  {
  }

  lemma QuietInputs(t: Tables, ids: set<Id>, all: set<Id>)
    requires Quiet(t, all) && ids <= InputsIn(t, all)
    ensures !PlayedIn(t.matches, ids) && WithoutReferees(t.matches, ids) == t.matches
  {
    NotPlayed(t, ids, InputsIn(t, all));
  }

  lemma RoundStep(t: Tables, done: set<Id>, i: Id, all: set<Id>)
    requires i !in done && i in all && Quiet(t, all)
    ensures var s := WithoutRelations(t, done);
            DeleteRounds(s, RoundsOfItem(s, i)) == Ok(s.(rounds := t.rounds - RoundsIn(t, done + {i})))
  {
    var s := WithoutRelations(t, done);
    assert RoundsOfItem(s, i) <= RoundsIn(t, all);
    assert RoundsIn(t, done + {i}) == RoundsIn(t, done) + RoundsOfItem(s, i);
    forall m | m in t.matches ensures t.matches[m].round !in RoundsOfItem(s, i) {}
    hide InputsIn, Detached, RoundsIn, RoundsOfItem, Quiet;
    assert s.rounds - RoundsOfItem(s, i) == t.rounds - RoundsIn(t, done + {i});
  }

  lemma InputStep(inputs: map<Id, Input>, done: set<Id>, i: Id, gone: set<Id>, mine: set<Id>)
    ensures Detached(Detached(inputs, done) - gone, {i}) - mine == Detached(inputs, done + {i}) - (gone + mine)
  {
  }

  lemma NotPlayed(t: Tables, ids: set<Id>, all: set<Id>)
    requires ids <= all
    requires forall m | m in t.matches :: !Plays(t.matches[m], all) && !Names(t.matches[m].referee, all)
    ensures !PlayedIn(t.matches, ids) && WithoutReferees(t.matches, ids) == t.matches
  {
    forall m | m in t.matches
      ensures !Plays(t.matches[m], ids)
      ensures t.matches[m].referee.None? || t.matches[m].referee.value !in ids
    {
      assert !Plays(t.matches[m], all) && !Names(t.matches[m].referee, all);
    }
  }

  /** The second phase never fails on a quiet database. */
  lemma {:induction false} RelationPhaseForm(t: Tables, order: seq<Id>, all: set<Id>)
    requires Quiet(t, all) && Group(order) <= all
    requires forall x, y | 0 <= x < y < |order| :: order[x] != order[y]
    ensures RelationPhase(t, order) == Ok(WithoutRelations(t, Group(order)))
  {
    hide Quiet, DeleteRelations, WithoutRelations;
    if order == [] {
      NoRelations(t);
    } else {
      var n := |order| - 1;
      GroupOneMore(order, n);
      assert order[..n + 1] == order;
      RelationPhaseForm(t, order[..n], all);
      assert order[n] in Group(order);
      RelationStep(t, Group(order[..n]), order[n], all);
    }
  }

  lemma NoRelations(t: Tables)
    ensures WithoutRelations(t, Group([])) == t
  {
    assert RoundsIn(t, {}) == {} && InputsIn(t, {}) == {};
    assert Detached(t.inputs, {}) == t.inputs;
  }

  // ---------------------------------------------------------------- items and stages

  function ItemsIn(t: Tables, stages: set<Id>): set<Id> {
    set i | i in t.stageItems && t.stageItems[i].stage in stages
  }

  /** Nothing but matches can refer to these items any more. */
  ghost predicate Cleared(rounds: map<Id, Round>, inputs: map<Id, Input>, items: set<Id>) {
    && (forall r | r in rounds :: rounds[r].stageItem !in items)
    && (forall x | x in inputs :: inputs[x].stageItem !in items && !Names(inputs[x].winnerFrom, items))
  }

  lemma ItemRowStep(t: Tables, i: Id, all: set<Id>)
    requires Cleared(t.rounds, t.inputs, all) && i in all
    ensures DeleteStageItem(t, i) == Ok(t.(stageItems := t.stageItems - {i}))
  {
    EmptyOrHasMember(InputsOfItem(t, i));
    forall x | x in t.inputs ensures t.inputs[x].winnerFrom != Some(i) {
      assert !Names(t.inputs[x].winnerFrom, all);
    }
    forall m | m in t.matches ensures !Plays(t.matches[m], {}) {}
    assert WithoutReferees(t.matches, {}) == t.matches;
    assert t.inputs - {} == t.inputs;
  }

  lemma {:induction false} ItemRowsForm(t: Tables, order: seq<Id>, all: set<Id>)
    requires Cleared(t.rounds, t.inputs, all) && Group(order) <= all
    ensures ItemRows(t, order) == Ok(t.(stageItems := t.stageItems - Group(order)))
  {
    if order == [] {
      assert t.stageItems - Group([]) == t.stageItems;
    } else {
      var n := |order| - 1;
      assert order == order[..n] + [order[n]] && order[n] in Group(order);
      assert Group(order) == Group(order[..n]) + {order[n]};
      ItemRowsForm(t, order[..n], all);
      var s := t.(stageItems := t.stageItems - Group(order[..n]));
      ItemRowStep(s, order[n], all);
      assert s.stageItems - {order[n]} == t.stageItems - Group(order);
      hide Cleared, Group, DeleteStageItem;
    }
  }

  function WithoutStages(t: Tables, stages: set<Id>): Tables {
    t.(stageItems := t.stageItems - ItemsIn(t, stages), stages := t.stages - stages)
  }

  lemma StageRows(t: Tables, done: set<Id>, s: Id)
    requires s !in done && Cleared(t.rounds, t.inputs, ItemsIn(t, done + {s}))
    ensures ItemRows(WithoutStages(t, done), ItemsByName(t, s))
         == Ok(WithoutStages(t, done).(stageItems := t.stageItems - ItemsIn(t, done + {s})))
  {
    hide Cleared, ItemRows, Group, ItemsIn, ItemsOfStage, ItemsByName;
    var u, mine, all := WithoutStages(t, done), ItemsOfStage(t, s), ItemsIn(t, done + {s});
    StageItemsListed(t, done, s);
    ItemRowsForm(u, ItemsByName(t, s), all);
    assert u.stageItems - mine == t.stageItems - all;
  }

  lemma StageItemsListed(t: Tables, done: set<Id>, s: Id)
    ensures ItemsIn(t, done + {s}) == ItemsIn(t, done) + ItemsOfStage(t, s)
    ensures Group(ItemsByName(t, s)) == ItemsOfStage(t, s)
  {
    ListedItems(t, s);
    hide ItemsByName, Group;
    forall i: Id ensures i in ItemsIn(t, done + {s}) <==> i in ItemsIn(t, done) + ItemsOfStage(t, s) {}
  }

  lemma ListedItems(t: Tables, s: Id)
    ensures Group(ItemsByName(t, s)) == ItemsOfStage(t, s)
  {
    hide ItemsOfStage, NamesOf;
    GroupIs(ItemsByName(t, s), ItemsOfStage(t, s));
  }

  lemma StageRow(t: Tables, tournament: Id, done: set<Id>, s: Id)
    requires s !in done && s in t.stages && t.stages[s].tournament == tournament
    ensures DeleteStage(WithoutStages(t, done).(stageItems := t.stageItems - ItemsIn(t, done + {s})), tournament, s)
         == Ok(WithoutStages(t, done + {s}))
  {
    assert (t.stages - done) - {s} == t.stages - (done + {s});
  }

  lemma StageStep(t: Tables, tournament: Id, done: set<Id>, s: Id)
    requires s !in done && s in t.stages && t.stages[s].tournament == tournament
    requires Cleared(t.rounds, t.inputs, ItemsIn(t, done + {s}))
    ensures var rows := ItemRows(WithoutStages(t, done), ItemsByName(t, s));
            rows.Ok? && DeleteStage(rows.value, tournament, s) == Ok(WithoutStages(t, done + {s}))
  {
    hide Cleared, ItemRows, ItemsIn, ItemsOfStage, DeleteStage;
    StageRows(t, done, s);
    StageRow(t, tournament, done, s);
  }

  lemma {:induction false} StagePhaseForm(t: Tables, u: Tables, tournament: Id, stages: seq<Id>)
    requires u.stageItems == t.stageItems && u.stages == t.stages
    requires forall s | s in stages :: s in t.stages && t.stages[s].tournament == tournament
    requires forall x, y | 0 <= x < y < |stages| :: stages[x] != stages[y]
    requires Cleared(u.rounds, u.inputs, ItemsIn(t, Group(stages)))
    ensures StagePhase(t, u, tournament, stages) == Ok(WithoutStages(u, Group(stages)))
  {
    hide Cleared, ItemRows, DeleteStage;
    if stages == [] {
      assert ItemsIn(u, Group([])) == {} && u.stageItems - {} == u.stageItems;
      assert u.stages - Group([]) == u.stages;
    } else {
      var n := |stages| - 1;
      GroupOneMore(stages, n);
      hide Group, WithoutStages;
      assert stages[..n + 1] == stages && stages[n] in stages;
      ClearedPart(t, u, Group(stages[..n]), Group(stages));
      StagePhaseForm(t, u, tournament, stages[..n]);
      StageStep(u, tournament, Group(stages[..n]), stages[n]);
      assert ItemsByName(t, stages[n]) == ItemsByName(u, stages[n]) by { SameListing(t, u, stages[n]); }
    }
  }

  lemma SameListing(t: Tables, u: Tables, stage: Id)
    requires u.stageItems == t.stageItems
    ensures ItemsByName(u, stage) == ItemsByName(t, stage)
  {
    assert ItemsOfStage(u, stage) == ItemsOfStage(t, stage) && NamesOf(u) == NamesOf(t);
  }

  lemma ClearedPart(t: Tables, u: Tables, part: set<Id>, all: set<Id>)
    requires part <= all && u.stageItems == t.stageItems && Cleared(u.rounds, u.inputs, ItemsIn(t, all))
    ensures Cleared(u.rounds, u.inputs, ItemsIn(t, part)) && Cleared(u.rounds, u.inputs, ItemsIn(u, all))
  {
    assert ItemsIn(t, all) == ItemsIn(u, all);
    forall x | x in u.inputs ensures !Names(u.inputs[x].winnerFrom, ItemsIn(t, part)) {
      assert !Names(u.inputs[x].winnerFrom, ItemsIn(t, all));
    }
  }

  // ---------------------------------------------------------------- rankings and belongings

  function WithoutRankings(t: Tables, rankings: set<Id>): Tables {
    t.(rankings := t.rankings - rankings, rankingPoints := PointsWithout(t.rankingPoints, rankings))
  }

  lemma {:induction false} RankingPhaseForm(t: Tables, tournament: Id, rankings: seq<Id>)
    requires forall i | i in t.stageItems :: t.stageItems[i].ranking !in rankings
    requires forall r | r in rankings :: r in t.rankings && t.rankings[r].tournament == tournament
    requires forall x, y | 0 <= x < y < |rankings| :: rankings[x] != rankings[y]
    ensures RankingPhase(t, tournament, rankings) == Ok(WithoutRankings(t, Group(rankings)))
  {
    if rankings == [] {
      assert WithoutRankings(t, Group([])) == t by {
        assert t.rankings - Group([]) == t.rankings;
      }
    } else {
      var n := |rankings| - 1;
      GroupOneMore(rankings, n);
      assert rankings[..n + 1] == rankings && rankings[n] in rankings;
      RankingPhaseForm(t, tournament, rankings[..n]);
      RankingStep(t, tournament, Group(rankings[..n]), rankings[n]);
    }
  }

  lemma RankingStep(t: Tables, tournament: Id, done: set<Id>, r: Id)
    requires r !in done && r in t.rankings && t.rankings[r].tournament == tournament
    requires forall i | i in t.stageItems :: t.stageItems[i].ranking != r
    ensures DeleteRanking(WithoutRankings(t, done), tournament, r) == Ok(WithoutRankings(t, done + {r}))
  {
    var s := WithoutRankings(t, done);
    assert s.rankings - {r} == t.rankings - (done + {r});
    assert PointsWithout(PointsWithout(t.rankingPoints, done), {r}) == PointsWithout(t.rankingPoints, done + {r});
    hide PointsWithout;
  }

  function WithoutBelongings(t: Tables, tournament: Id): Tables {
    t.(players := t.players - PlayersOf(t, tournament), courts := t.courts - CourtsOf(t, tournament),
       teams := t.teams - TeamsOf(t, tournament), levels := t.levels - LevelsOf(t, tournament),
       memberships := MembershipsWithout(t, PlayersOf(t, tournament), TeamsOf(t, tournament)),
       tournaments := t.tournaments - {tournament})
  }

  /** What the tournament still owns is used only by what it owns. */
  ghost predicate OnlyBelongings(t: Tables, tournament: Id) {
    && (forall x | x in t.stages ::
        t.stages[x].tournament != tournament && !Names(t.stages[x].level, LevelsOf(t, tournament)))
    && (forall x | x in t.inputs ::
        t.inputs[x].tournament != tournament && !Names(t.inputs[x].team, TeamsOf(t, tournament)))
    && (forall x | x in t.rankings ::
        t.rankings[x].tournament != tournament && !Names(t.rankings[x].level, LevelsOf(t, tournament)))
    && (forall m | m in t.matches :: !Names(t.matches[m].court, CourtsOf(t, tournament)))
    && LevelsStayInside(t, tournament)
  }

  ghost predicate LevelsStayInside(t: Tables, tournament: Id) {
    && (forall x | x in t.teams && t.teams[x].tournament != tournament ::
        !Names(t.teams[x].level, LevelsOf(t, tournament)))
    && (forall x | x in t.players && t.players[x].tournament != tournament ::
        !Names(t.players[x].level, LevelsOf(t, tournament)))
  }

  lemma BelongingsForm(t: Tables, tournament: Id)
    requires OnlyBelongings(t, tournament)
    ensures BelongingsPhase(t, tournament) == Ok(WithoutBelongings(t, tournament))
  {
    hide LevelsStayInside, MembershipsWithout, OnlyBelongings, LevelsOf, TeamsOf, CourtsOf, PlayersOf;
    hide DeleteCourtsOf, DeleteTeamsOf, DeleteLevelsOf, DeleteTournament;
    var levels, teams := LevelsOf(t, tournament), TeamsOf(t, tournament);
    var t1 := DeletePlayersOf(t, tournament).value;
    var t2 := t1.(courts := t1.courts - CourtsOf(t, tournament));
    var t3 := t2.(teams := t2.teams - teams, memberships := MembershipsWithout(t2, {}, teams));
    CourtsFollow(t, t1, tournament);
    TeamsFollow(t, t2, tournament);
    LevelsFollow(t, t3, tournament);
    TournamentFollows(t, t3.(levels := t3.levels - levels), tournament);
    MembershipsTwice(t, t2, PlayersOf(t, tournament), teams);
  }

  lemma CourtsFollow(t: Tables, t1: Tables, tournament: Id)
    requires OnlyBelongings(t, tournament) && t1 == t.(players := t1.players, memberships := t1.memberships)
    ensures DeleteCourtsOf(t1, tournament) == Ok(t1.(courts := t1.courts - CourtsOf(t, tournament)))
  {
    assert CourtsOf(t1, tournament) == CourtsOf(t, tournament);
  }

  lemma TeamsFollow(t: Tables, t2: Tables, tournament: Id)
    requires OnlyBelongings(t, tournament)
    requires t2 == t.(players := t2.players, memberships := t2.memberships, courts := t2.courts)
    ensures DeleteTeamsOf(t2, tournament) == Ok(t2.(teams := t2.teams - TeamsOf(t, tournament),
                                                    memberships := MembershipsWithout(t2, {}, TeamsOf(t, tournament))))
  {
    assert TeamsOf(t2, tournament) == TeamsOf(t, tournament);
  }

  lemma TournamentFollows(t: Tables, t4: Tables, tournament: Id)
    requires OnlyBelongings(t, tournament)
    requires t4.stages == t.stages && t4.inputs == t.inputs && t4.rankings == t.rankings
    requires t4.levels == t.levels - LevelsOf(t, tournament) && t4.teams == t.teams - TeamsOf(t, tournament)
    requires t4.players == t.players - PlayersOf(t, tournament) && t4.courts == t.courts - CourtsOf(t, tournament)
    ensures DeleteTournament(t4, tournament) == Ok(t4.(tournaments := t4.tournaments - {tournament}))
  {
  }

  lemma MembershipsTwice(t: Tables, t2: Tables, players: set<Id>, teams: set<Id>)
    requires t2.memberships == MembershipsWithout(t, players, {})
    ensures MembershipsWithout(t2, {}, teams) == MembershipsWithout(t, players, teams)
  {
  }

  lemma LevelsFollow(t: Tables, t3: Tables, tournament: Id)
    requires OnlyBelongings(t, tournament)
    requires t3.stages == t.stages && t3.rankings == t.rankings && t3.levels == t.levels
    requires t3.teams == t.teams - TeamsOf(t, tournament) && t3.players == t.players - PlayersOf(t, tournament)
    ensures DeleteLevelsOf(t3, tournament) == Ok(t3.(levels := t3.levels - LevelsOf(t, tournament)))
  {
    assert LevelsOf(t3, tournament) == LevelsOf(t, tournament);
  }

  // ---------------------------------------------------------------- the whole deletion

  function DeleteCompletely(t: Tables, tournament: Id): Result<Tables> {
    var stages := Ids(StagesOf(t, tournament));
    var order := ItemOrder(t, stages);
    match MatchPhase(t, order) case Err(e) => Err(e) case Ok(t1) =>
    match RelationPhase(t1, order) case Err(e) => Err(e) case Ok(t2) =>
    match StagePhase(t, t2, tournament, stages) case Err(e) => Err(e) case Ok(t3) =>
    match RankingPhase(t3, tournament, Ids(RankingsOf(t3, tournament))) case Err(e) => Err(e) case Ok(t4) =>
    BelongingsPhase(t4, tournament)
  }

  /** No row outside the tournament refers to one inside it (being fed by a match is left aside), and an
      input's own tournament column agrees with its stage item. */
  ghost predicate Closed(t: Tables, tournament: Id) {
    var items := ItemsIn(t, StagesOf(t, tournament));
    && (forall i | i in t.stageItems && i !in items :: t.stageItems[i].ranking !in RankingsOf(t, tournament))
    && (forall m | m in t.matches && m !in MatchesIn(t, items) ::
          && !Plays(t.matches[m], InputsIn(t, items)) && !Names(t.matches[m].referee, InputsIn(t, items))
          && !Names(t.matches[m].court, CourtsOf(t, tournament)))
    && (forall x | x in t.inputs && x !in InputsIn(t, items) ::
          && t.inputs[x].tournament != tournament && !Names(t.inputs[x].team, TeamsOf(t, tournament))
          && !Names(t.inputs[x].winnerFrom, items))
    && (forall x | x in t.stages && t.stages[x].tournament != tournament ::
        !Names(t.stages[x].level, LevelsOf(t, tournament)))
    && (forall x | x in t.rankings && t.rankings[x].tournament != tournament ::
        !Names(t.rankings[x].level, LevelsOf(t, tournament)))
    && LevelsStayInside(t, tournament)
  }

  /** The database without any row of the tournament; every other row as it was. */
  function WithoutTournament(t: Tables, tournament: Id): Tables {
    var stages := StagesOf(t, tournament);
    var items := ItemsIn(t, stages);
    Tables(t.tournaments - {tournament},
           t.levels - LevelsOf(t, tournament),
           t.stages - stages,
           t.stageItems - items,
           t.inputs - InputsIn(t, items),
           t.rounds - RoundsIn(t, items),
           t.matches - MatchesIn(t, items),
           t.matchSets - MatchesIn(t, items),
           t.teams - TeamsOf(t, tournament),
           t.players - PlayersOf(t, tournament),
           MembershipsWithout(t, PlayersOf(t, tournament), TeamsOf(t, tournament)),
           t.courts - CourtsOf(t, tournament),
           t.rankings - RankingsOf(t, tournament),
           PointsWithout(t.rankingPoints, RankingsOf(t, tournament)),
           t.nextId)
  }

  ghost predicate Distinct(order: seq<Id>) {
    forall x, y | 0 <= x < y < |order| :: order[x] != order[y]
  }

  lemma DistinctConcat(a: seq<Id>, b: seq<Id>)
    requires Distinct(a) && Distinct(b) && Group(a) !! Group(b)
    ensures Distinct(a + b) && Group(a + b) == Group(a) + Group(b)
  {
    forall x, y | 0 <= x < |a| && 0 <= y < |b| ensures a[x] != b[y] {
      assert a[x] in Group(a) && b[y] in Group(b);
    }
  }

  lemma ItemsInOneMore(t: Tables, done: set<Id>, s: Id)
    requires s !in done
    ensures ItemsIn(t, done + {s}) == ItemsIn(t, done) + ItemsOfStage(t, s)
    ensures ItemsIn(t, done) !! ItemsOfStage(t, s)
  {
  }

  lemma ItemOrderLast(t: Tables, stages: seq<Id>)
    requires stages != []
    ensures var n := |stages| - 1;
            ItemOrder(t, stages) == ItemOrder(t, stages[..n]) + ItemsByName(t, stages[n])
  {
    hide ItemsByName;
  }

  lemma NoItemOrder(t: Tables)
    ensures ItemOrder(t, []) == [] && Group([]) == {} && ItemsIn(t, {}) == {}
  {
  }

  /** The items of one more stage: those of the stages before it and its own, which are others. */
  lemma ItemsOneMore(t: Tables, stages: seq<Id>)
    requires stages != [] && Distinct(stages)
    ensures var n := |stages| - 1;
            && Distinct(stages[..n])
            && ItemsIn(t, Group(stages)) == ItemsIn(t, Group(stages[..n])) + Group(ItemsByName(t, stages[n]))
            && ItemsIn(t, Group(stages[..n])) !! Group(ItemsByName(t, stages[n]))
            && Distinct(ItemsByName(t, stages[n]))
  {
    hide ItemsIn, ItemsOfStage, Group, ItemsByName;
    var n := |stages| - 1;
    GroupOneMore(stages, n);
    assert stages[..n + 1] == stages;
    ItemsInOneMore(t, Group(stages[..n]), stages[n]);
    StageItemsListed(t, {}, stages[n]);
  }

  /** The nested loops visit every item of the stages, and none twice. */
  lemma {:induction false} ItemOrderLists(t: Tables, stages: seq<Id>)
    requires Distinct(stages)
    ensures Distinct(ItemOrder(t, stages)) && Group(ItemOrder(t, stages)) == ItemsIn(t, Group(stages))
  {
    hide ItemOrder, ItemsIn, ItemsOfStage, Group, ItemsByName, Distinct;
    if stages == [] {
      NoItemOrder(t);
      assert Distinct(ItemOrder(t, [])) by { EmptyIsDistinct(); }
    } else {
      var n := |stages| - 1;
      ItemOrderLast(t, stages);
      ItemsOneMore(t, stages);
      ItemOrderLists(t, stages[..n]);
      DistinctConcat(ItemOrder(t, stages[..n]), ItemsByName(t, stages[n]));
    }
  }

  lemma EmptyIsDistinct()
    ensures Distinct([])
  {
  }

  lemma MatchesGone(t: Tables, tournament: Id, items: set<Id>)
    requires Closed(t, tournament) && items == ItemsIn(t, StagesOf(t, tournament))
    ensures Quiet(WithoutMatches(t, items), items)
    ensures RoundsIn(WithoutMatches(t, items), items) == RoundsIn(t, items)
    ensures InputsIn(WithoutMatches(t, items), items) == InputsIn(t, items)
  {
    var t1 := WithoutMatches(t, items);
    assert RoundsIn(t1, items) == RoundsIn(t, items) && InputsIn(t1, items) == InputsIn(t, items);
    forall m | m in t1.matches
      ensures t1.matches[m].round !in RoundsIn(t1, items)
      ensures !Plays(t1.matches[m], InputsIn(t1, items)) && !Names(t1.matches[m].referee, InputsIn(t1, items))
    {
      assert m in t.matches && m !in MatchesIn(t, items);
    }
  }

  lemma RelationsGone(t: Tables, tournament: Id, items: set<Id>)
    requires Closed(t, tournament) && items == ItemsIn(t, StagesOf(t, tournament))
    ensures Detached(t.inputs, items) - InputsIn(t, items) == t.inputs - InputsIn(t, items)
    ensures Cleared(t.rounds - RoundsIn(t, items), t.inputs - InputsIn(t, items), items)
  {
    forall x | x in t.inputs && x !in InputsIn(t, items) ensures !Names(t.inputs[x].winnerFrom, items) {}
  }

  lemma BelongingsLeft(t: Tables, tournament: Id)
    requires Closed(t, tournament)
    ensures var w, items := WithoutTournament(t, tournament), ItemsIn(t, StagesOf(t, tournament));
            OnlyBelongings(t.(stages := w.stages, stageItems := w.stageItems, inputs := w.inputs, rounds := w.rounds,
                              matches := w.matches, matchSets := w.matchSets, rankings := w.rankings,
                              rankingPoints := w.rankingPoints), tournament)
  {
    var w, items := WithoutTournament(t, tournament), ItemsIn(t, StagesOf(t, tournament));
    var t4 := t.(stages := w.stages, stageItems := w.stageItems, inputs := w.inputs, rounds := w.rounds,
                 matches := w.matches, matchSets := w.matchSets, rankings := w.rankings,
                 rankingPoints := w.rankingPoints);
    assert LevelsOf(t4, tournament) == LevelsOf(t, tournament);
    assert TeamsOf(t4, tournament) == TeamsOf(t, tournament);
    assert CourtsOf(t4, tournament) == CourtsOf(t, tournament);
  }

  /** What is left when the first k phases are over. */
  function AfterRelations(t: Tables, tournament: Id): Tables {
    var w := WithoutTournament(t, tournament);
    t.(matches := w.matches, matchSets := w.matchSets, rounds := w.rounds, inputs := w.inputs)
  }
  function AfterStages(t: Tables, tournament: Id): Tables {
    var w := WithoutTournament(t, tournament);
    AfterRelations(t, tournament).(stageItems := w.stageItems, stages := w.stages)
  }
  function AfterRankings(t: Tables, tournament: Id): Tables {
    var w := WithoutTournament(t, tournament);
    AfterStages(t, tournament).(rankings := w.rankings, rankingPoints := w.rankingPoints)
  }

  lemma RelationsPhaseDone(t: Tables, tournament: Id, order: seq<Id>)
    requires Closed(t, tournament) && Group(order) == ItemsIn(t, StagesOf(t, tournament))
    requires forall x, y | 0 <= x < y < |order| :: order[x] != order[y]
    ensures RelationPhase(WithoutMatches(t, Group(order)), order) == Ok(AfterRelations(t, tournament))
  {
    var items := ItemsIn(t, StagesOf(t, tournament));
    MatchesGone(t, tournament, items);
    RelationsGone(t, tournament, items);
    hide Closed, Quiet, Cleared, RelationPhase, Detached, InputsIn, RoundsIn, MatchesIn, ItemsIn, StagesOf, Group;
    RelationPhaseForm(WithoutMatches(t, items), order, items);
  }

  lemma StagePhaseDone(t: Tables, tournament: Id)
    requires Closed(t, tournament)
    ensures StagePhase(t, AfterRelations(t, tournament), tournament, Ids(StagesOf(t, tournament)))
         == Ok(AfterStages(t, tournament))
  {
    var stages, t2 := StagesOf(t, tournament), AfterRelations(t, tournament);
    var items := ItemsIn(t, stages);
    assert Group(Ids(stages)) == stages;
    RelationsGone(t, tournament, items);
    assert ItemsIn(t2, stages) == items;
    hide Closed, Cleared, StagePhase, InputsIn, RoundsIn, MatchesIn, ItemsIn, Group;
    StagePhaseForm(t, t2, tournament, Ids(stages));
  }

  lemma RankingPhaseDone(t: Tables, tournament: Id)
    requires Closed(t, tournament)
    ensures var t3 := AfterStages(t, tournament);
            RankingPhase(t3, tournament, Ids(RankingsOf(t3, tournament))) == Ok(AfterRankings(t, tournament))
  {
    var t3, rankings := AfterStages(t, tournament), RankingsOf(t, tournament);
    assert RankingsOf(t3, tournament) == rankings && Group(Ids(rankings)) == rankings;
    forall i | i in t3.stageItems ensures t3.stageItems[i].ranking !in Ids(rankings) {}
    forall r | r in Ids(rankings) ensures r in t3.rankings && t3.rankings[r].tournament == tournament {}
    hide Closed, InputsIn, RoundsIn, MatchesIn, ItemsIn, Group, RankingsOf, PointsWithout;
    RankingPhaseForm(t3, tournament, Ids(rankings));
  }

  lemma BelongingsDone(t: Tables, tournament: Id)
    requires Closed(t, tournament)
    ensures BelongingsPhase(AfterRankings(t, tournament), tournament) == Ok(WithoutTournament(t, tournament))
  {
    var t4 := AfterRankings(t, tournament);
    BelongingsLeft(t, tournament);
    BelongingsForm(t4, tournament);
    assert LevelsOf(t4, tournament) == LevelsOf(t, tournament) && TeamsOf(t4, tournament) == TeamsOf(t, tournament);
    assert CourtsOf(t4, tournament) == CourtsOf(t, tournament) && PlayersOf(t4, tournament) == PlayersOf(t, tournament);
    hide Closed, OnlyBelongings, BelongingsPhase, InputsIn, RoundsIn, MatchesIn, ItemsIn;
    hide LevelsOf, TeamsOf, CourtsOf, PlayersOf, RankingsOf, StagesOf;
    assert MembershipsWithout(t4, PlayersOf(t, tournament), TeamsOf(t, tournament))
        == MembershipsWithout(t, PlayersOf(t, tournament), TeamsOf(t, tournament));
  }

  /** Deleting a closed tournament gets through exactly when no match is fed by a match of an item
      visited earlier, and then precisely the rows of the tournament are gone. */
  lemma DeleteCompletelyWorks(t: Tables, tournament: Id)
    requires Closed(t, tournament)
    ensures DeleteCompletely(t, tournament).Ok? <==> FeedsForward(t, ItemOrder(t, Ids(StagesOf(t, tournament))))
    ensures DeleteCompletely(t, tournament).Ok? ==>
              DeleteCompletely(t, tournament).value == WithoutTournament(t, tournament)
  {
    var stages := StagesOf(t, tournament);
    var order := ItemOrder(t, Ids(stages));
    assert Group(Ids(stages)) == stages;
    ItemOrderLists(t, Ids(stages));
    hide Closed, FeedsForward, WithoutTournament, WithoutMatches, AfterRelations, AfterStages, AfterRankings, ItemsIn,
      StagesOf, RankingsOf;
    hide MatchPhase, RelationPhase, StagePhase, RankingPhase, BelongingsPhase, ItemOrder, Group;
    MatchPhaseForm(t, order);
    RelationsPhaseDone(t, tournament, order);
    StagePhaseDone(t, tournament);
    RankingPhaseDone(t, tournament);
    BelongingsDone(t, tournament);
  }

  /** Brackets, as the program builds them, feed matches only inside one stage item; then the order of
      the visits does not matter. */
  lemma FeedingInsideItems(t: Tables, order: seq<Id>)
    requires forall i, m | m in t.matches && Feeds(t.matches[m], MatchesOfItem(t, i)) :: m in MatchesOfItem(t, i)
    ensures FeedsForward(t, order)
  {
    forall k, m | 0 <= k < |order| && m in t.matches && Feeds(t.matches[m], MatchesOfItem(t, order[k]))
      ensures m in MatchesIn(t, Group(order[..k + 1]))
    {
      assert m in MatchesOfItem(t, order[k]);
      assert order[..k + 1][k] == order[k];
    }
  }

  const BRACKET_MATCH := Match(5, None, None, None, None, None, None, None, None, None, None, None, Pointer(0, false))
  const BRACKET_INPUT := Input(1, 3, 1, None, None, None, NO_STATS)

  /** A bracket of four (item 3) and a bracket of two (item 4) as the builder makes them, after the final of
      the first, match 23, was moved to the round of the second: editing a match can change its round, and
      any round of the tournament will do (routes/matches.py:317-361). */
  const FED_ACROSS :=
    Tables({1}, map[], map[2 := Stage(1, None)],
           map[3 := StageItem(2, SingleElimination, 4, 9, None, 0),
               4 := StageItem(2, SingleElimination, 2, 9, None, 1)],
           map[11 := BRACKET_INPUT, 12 := BRACKET_INPUT.(slot := 2),
               13 := BRACKET_INPUT.(slot := 3), 14 := BRACKET_INPUT.(slot := 4),
               15 := BRACKET_INPUT.(stageItem := 4), 16 := BRACKET_INPUT.(stageItem := 4, slot := 2)],
           map[5 := Round(3, Lifecycle.Active), 6 := Round(3, Lifecycle.Active), 7 := Round(4, Lifecycle.Active)],
           map[21 := BRACKET_MATCH.(input1 := Some(11), input2 := Some(12)),
               22 := BRACKET_MATCH.(input1 := Some(13), input2 := Some(14)),
               23 := BRACKET_MATCH.(round := 7, winnerFrom1 := Some(21), winnerFrom2 := Some(22)),
               24 := BRACKET_MATCH.(round := 7, input1 := Some(15), input2 := Some(16))],
           map[21 := map[1 := ZERO], 22 := map[1 := ZERO], 23 := map[1 := ZERO], 24 := map[1 := ZERO]],
           map[], map[], map[], map[], map[9 := Ranking(1, None, 0, ONE_SET)], map[], 30)

  /** All references stay inside the tournament and every foreign key holds, and yet it cannot be deleted:
      the first item's matches go first, while the moved final still refers to them. */
  lemma FeedingAcrossItemsBlocks()
    ensures exists t, tournament ::
              ForeignKeys(t) && AllSetsFit(t) && Closed(t, tournament) && DeleteCompletely(t, tournament).Err?
  {
    hide Closed, DeleteCompletely, ItemOrder, Ids, ForeignKeys, AllSetsFit;
    AcrossIsClosed();
    AcrossRefers();
    AcrossFits();
    AcrossOrder();
    SecondComesLater(ItemsByName(FED_ACROSS, 2));
    hide FeedsForward;
    DeleteCompletelyWorks(FED_ACROSS, 1);
  }

  lemma AcrossIsClosed()
    ensures Closed(FED_ACROSS, 1) && StagesOf(FED_ACROSS, 1) == {2}
  {
    hide Plays, Names, MatchesIn, InputsIn, CourtsOf, TeamsOf, LevelsOf, RankingsOf, ItemsIn, LevelsStayInside;
    assert StagesOf(FED_ACROSS, 1) == {2};
    AcrossItems();
    AcrossLevels();
    AcrossIsInside(ItemsIn(FED_ACROSS, {2}));
  }

  lemma AcrossItems()
    ensures ItemsIn(FED_ACROSS, {2}) == FED_ACROSS.stageItems.Keys
  {
  }

  lemma AcrossLevels()
    ensures LevelsStayInside(FED_ACROSS, 1)
  {
  }

  lemma AcrossIsInside(items: set<Id>)
    requires items == ItemsIn(FED_ACROSS, {2})
    ensures FED_ACROSS.matches.Keys <= MatchesIn(FED_ACROSS, items)
    ensures FED_ACROSS.inputs.Keys <= InputsIn(FED_ACROSS, items)
  {
    assert 3 in items && 4 in items;
  }

  lemma AcrossRefers()
    ensures ForeignKeys(FED_ACROSS)
  {
    hide MatchesRefer, InputsRefer, StageItemsRefer, RoundsRefer, MatchSetsRefer;
    AcrossMatchesRefer();
    AcrossItemsRefer();
    AcrossInputsRefer();
  }

  lemma AcrossItemsRefer()
    ensures StageItemsRefer(FED_ACROSS.stageItems, FED_ACROSS.stages.Keys, FED_ACROSS.rankings.Keys)
    ensures RoundsRefer(FED_ACROSS.rounds, FED_ACROSS.stageItems.Keys)
    ensures MatchSetsRefer(FED_ACROSS.matchSets, FED_ACROSS.matches.Keys)
  {
  }

  lemma AcrossInputsRefer()
    ensures InputsRefer(FED_ACROSS.inputs, FED_ACROSS.tournaments, FED_ACROSS.stageItems.Keys, FED_ACROSS.teams.Keys)
  {
  }

  lemma AcrossMatchesRefer()
    ensures MatchesRefer(FED_ACROSS.matches, FED_ACROSS.rounds.Keys, FED_ACROSS.inputs.Keys, FED_ACROSS.courts.Keys)
  {
  }

  lemma AcrossFits()
    ensures AllSetsFit(FED_ACROSS)
  {
    forall m | m in FED_ACROSS.matches ensures SetsFit(FED_ACROSS, m) {
      assert NumSetsOf(FED_ACROSS, m) == 1 && RowsAre(RowsOf(FED_ACROSS, m), 1);
    }
  }

  lemma AcrossOrder()
    ensures ItemOrder(FED_ACROSS, Ids({2})) == ItemsByName(FED_ACROSS, 2)
  {
    var stages := Ids({2});
    assert stages[0] in stages && stages == [2];
    assert stages[..0] == [];
    hide Ids, ItemsByName;
  }

  lemma SecondComesLater(items: seq<Id>)
    requires items == ItemsByName(FED_ACROSS, 2)
    ensures !FeedsForward(FED_ACROSS, items)
  {
    AcrossIsListed();
    hide ItemsByName, ItemsOfStage, Group, MatchesIn, MatchesOfItem;
    var a := ListedBefore(FED_ACROSS, 2, 3, 4);
    FinalIsFed(Group(items[..a + 1]));
  }

  lemma AcrossIsListed()
    ensures 3 in ItemsOfStage(FED_ACROSS, 2) && 4 in ItemsOfStage(FED_ACROSS, 2)
    ensures FED_ACROSS.stageItems[3].name < FED_ACROSS.stageItems[4].name
  {
  }

  /** Items are listed by name. */
  lemma ListedBefore(t: Tables, stage: Id, i: Id, j: Id) returns (a: nat)
    requires i in ItemsOfStage(t, stage) && j in ItemsOfStage(t, stage) && t.stageItems[i].name < t.stageItems[j].name
    ensures var order := ItemsByName(t, stage); a < |order| && order[a] == i && j !in Group(order[..a + 1])
  {
    var order := ItemsByName(t, stage);
    hide ItemsOfStage;
    a :| 0 <= a < |order| && order[a] == i;
    forall k | 0 <= k <= a ensures order[k] != j { ByName(t, stage, k, a); }
  }

  lemma FinalIsFed(items: set<Id>)
    requires 4 !in items
    ensures 23 in FED_ACROSS.matches && Feeds(FED_ACROSS.matches[23], MatchesOfItem(FED_ACROSS, 3))
    ensures 23 !in MatchesIn(FED_ACROSS, items)
  {
    assert 21 in MatchesOfItem(FED_ACROSS, 3);
  }

  lemma ByName(t: Tables, stage: Id, k: nat, a: nat)
    requires k <= a < |ItemsByName(t, stage)|
    ensures var order := ItemsByName(t, stage);
            && order[k] in t.stageItems && order[a] in t.stageItems
            && t.stageItems[order[k]].name <= t.stageItems[order[a]].name
  {
    var order := ItemsByName(t, stage);
    assert order[k] in order && order[a] in order;
    assert k < a ==> Before(NamesOf(t), order[k], order[a]);
  }

  // ---------------------------------------------------------------- deleting one stage

  function ItemsDeleted(t: Tables, order: seq<Id>): Result<Tables> {
    if order == [] then Ok(t) else
      match ItemsDeleted(t, order[..|order| - 1])
      case Err(e) => Err(e)
      case Ok(s) => DeletedItem(s, order[|order| - 1])
  }

  /** `order` is the order in which the query lists the stage's items; it promises none. */
  function StageDeleted(t: Tables, tournament: Id, stage: Id, order: seq<Id>): Result<Tables> {
    match ItemsDeleted(t, order)
    case Err(e) => Err(e)
    case Ok(s) => DeleteStage(s, tournament, stage)
  }

  ghost predicate Lists(order: seq<Id>, ids: set<Id>) {
    Distinct(order) && forall x :: x in order <==> x in ids
  }

  /** The database without these items and everything below them; inputs that drew their team from one of
      them are empty, and matches they lent a referee have none. */
  function WithoutItems(t: Tables, items: set<Id>): Tables {
    var matches, inputs := MatchesIn(t, items), InputsIn(t, items);
    t.(matches := WithoutReferees(t.matches - matches, inputs), matchSets := t.matchSets - matches,
       inputs := Detached(t.inputs, items) - inputs, rounds := t.rounds - RoundsIn(t, items),
       stageItems := t.stageItems - items)
  }

  predicate Uses(t: Tables, m: Match, i: Id) {
    Feeds(m, MatchesOfItem(t, i)) || Plays(m, InputsOfItem(t, i))
  }

  /** Whoever is fed by a match of an item, or plays with one of its inputs, belongs to that item or to one
      deleted before it. */
  ghost predicate UsedForward(t: Tables, order: seq<Id>) {
    forall k, m | 0 <= k < |order| && m in t.matches && Uses(t, t.matches[m], order[k]) ::
      m in MatchesIn(t, Group(order[..k + 1]))
  }

  lemma ItemUnion(t: Tables, done: set<Id>, i: Id)
    requires i !in done
    ensures MatchesIn(t, done + {i}) == MatchesIn(t, done) + MatchesOfItem(t, i)
    ensures InputsIn(t, done + {i}) == InputsIn(t, done) + InputsOfItem(t, i)
    ensures RoundsIn(t, done + {i}) == RoundsIn(t, done) + RoundsOfItem(t, i)
  {
  }

  lemma ItemStays(t: Tables, done: set<Id>, i: Id)
    requires i !in done
    ensures var s := WithoutItems(t, done);
            && MatchesOfItem(s, i) == MatchesOfItem(t, i) && InputsOfItem(s, i) == InputsOfItem(t, i)
            && RoundsOfItem(s, i) == RoundsOfItem(t, i)
  {
    hide Plays, InputsIn;
    forall x ensures x in InputsOfItem(WithoutItems(t, done), i) <==> x in InputsOfItem(t, i) {
      InputStays(t, done, i, x);
    }
  }

  lemma InputStays(t: Tables, done: set<Id>, i: Id, x: Id)
    requires i !in done
    ensures x in InputsOfItem(WithoutItems(t, done), i) <==> x in InputsOfItem(t, i)
  {
  }

  lemma SeparateOneMore(t: Tables, done: set<Id>, i: Id)
    requires i !in done
    ensures Separate(WithoutItems(t, done), i) <==>
              forall m | m in t.matches && Uses(t, t.matches[m], i) :: m in MatchesIn(t, done + {i})
  {
    hide MatchesOfItem, InputsOfItem, RoundsOfItem, MatchesIn, InputsIn, RoundsIn, Detached;
    var s, matches, inputs := WithoutItems(t, done), MatchesOfItem(t, i), InputsOfItem(t, i);
    ItemStays(t, done, i);
    ItemUnion(t, done, i);
    forall m | m in s.matches
      ensures m in t.matches && (Feeds(s.matches[m], matches) <==> Feeds(t.matches[m], matches))
      ensures Plays(s.matches[m], inputs) <==> Plays(t.matches[m], inputs)
    {
    }
    SeparateTells(s.matches, matches, inputs);
  }

  lemma SeparateTells(all: map<Id, Match>, matches: set<Id>, inputs: set<Id>)
    ensures !FedBy(all, matches) && !PlayedIn(all - matches, inputs) <==>
              forall m | m in all && (Feeds(all[m], matches) || Plays(all[m], inputs)) :: m in matches
  {
    if !PlayedIn(all - matches, inputs) {
      forall m | m in all && m !in matches ensures !Plays(all[m], inputs) { assert m in all - matches; }
    }
  }

  lemma RefereesTwice(matches: map<Id, Match>, gone: set<Id>, more: set<Id>, a: set<Id>, b: set<Id>)
    ensures WithoutReferees(WithoutReferees(matches - gone, a) - more, b)
         == WithoutReferees(matches - (gone + more), a + b)
  {
  }

  lemma WithoutOneMore(t: Tables, done: set<Id>, i: Id)
    requires i !in done
    ensures WithoutItem(WithoutItems(t, done), i) == WithoutItems(t, done + {i})
  {
    hide MatchesOfItem, InputsOfItem, RoundsOfItem, MatchesIn, InputsIn, RoundsIn, Detached, WithoutReferees;
    ItemStays(t, done, i);
    ItemUnion(t, done, i);
    RefereesTwice(t.matches, MatchesIn(t, done), MatchesOfItem(t, i), InputsIn(t, done), InputsOfItem(t, i));
    InputStep(t.inputs, done, i, InputsIn(t, done), InputsOfItem(t, i));
    TakenTwice(t.matchSets, MatchesIn(t, done), MatchesOfItem(t, i));
    TakenTwice(t.rounds, RoundsIn(t, done), RoundsOfItem(t, i));
    TakenTwice(t.stageItems, done, {i});
  }

  lemma TakenTwice<V>(rows: map<Id, V>, a: set<Id>, b: set<Id>)
    ensures (rows - a) - b == rows - (a + b)
  {
  }

  lemma WithoutNone(t: Tables)
    ensures WithoutItems(t, {}) == t
  {
    hide MatchesIn, InputsIn, RoundsIn, Detached, WithoutReferees;
    NothingIn(t);
    NobodyDetached(t.inputs);
    NoReferees(t.matches);
    assert t.matches - {} == t.matches && t.inputs - {} == t.inputs && t.rounds - {} == t.rounds;
    assert t.matchSets - {} == t.matchSets && t.stageItems - {} == t.stageItems;
  }

  lemma NothingIn(t: Tables)
    ensures MatchesIn(t, {}) == {} && InputsIn(t, {}) == {} && RoundsIn(t, {}) == {}
  {
  }

  lemma NobodyDetached(inputs: map<Id, Input>)
    ensures Detached(inputs, {}) == inputs
  {
    SameMap(Detached(inputs, {}), inputs);
  }

  lemma NoReferees(matches: map<Id, Match>)
    ensures WithoutReferees(matches, {}) == matches
  {
    SameMap(WithoutReferees(matches, {}), matches);
  }

  lemma UsedOneMore(t: Tables, order: seq<Id>)
    requires order != []
    ensures var n := |order| - 1;
            UsedForward(t, order) <==>
              && UsedForward(t, order[..n])
              && forall m | m in t.matches && Uses(t, t.matches[m], order[n]) :: m in MatchesIn(t, Group(order))
  {
    hide MatchesIn, Group, Uses;
    var n := |order| - 1;
    assert order[..n + 1] == order;
    assert forall k | 0 <= k < n :: order[..n][..k + 1] == order[..k + 1] && order[..n][k] == order[k];
  }

  /** Deleting items one by one gets through exactly when each is used only by itself and by those deleted
      before it; then exactly they and what is below them are gone. */
  lemma {:induction false} ItemsDeletedForm(t: Tables, order: seq<Id>)
    requires Distinct(order)
    ensures ItemsDeleted(t, order).Ok? <==> UsedForward(t, order)
    ensures ItemsDeleted(t, order).Ok? ==> ItemsDeleted(t, order).value == WithoutItems(t, Group(order))
    ensures ItemsDeleted(t, order).Err? ==> ItemsDeleted(t, order).error == ForeignKeyViolation
  {
    if order == [] {
      WithoutNone(t);
      assert Group(order) == {};
    } else {
      var n := |order| - 1;
      GroupOneMore(order, n);
      assert order[..n + 1] == order;
      hide WithoutItems, WithoutItem, Separate, UsedForward, Group, MatchesIn, Uses;
      ItemsDeletedForm(t, order[..n]);
      UsedOneMore(t, order);
      SeparateOneMore(t, Group(order[..n]), order[n]);
      WithoutOneMore(t, Group(order[..n]), order[n]);
    }
  }

  /** Deleting a stage of the tournament succeeds exactly when its items, as the query lists them, are used only
      forward; then the stage, its items and everything below them are gone and nothing else, whatever the order. */
  lemma StageDeletionWorks(t: Tables, tournament: Id, stage: Id, order: seq<Id>)
    requires stage in t.stages && t.stages[stage].tournament == tournament && Lists(order, ItemsOfStage(t, stage))
    ensures var r := StageDeleted(t, tournament, stage, order);
            && (r.Ok? <==> UsedForward(t, order))
            && (r.Ok? ==> r.value == WithoutItems(t, ItemsOfStage(t, stage)).(stages := t.stages - {stage}))
            && (r.Err? ==> r.error == ForeignKeyViolation)
  {
    hide ItemsDeleted, WithoutItems, UsedForward, Group;
    GroupIs(order, ItemsOfStage(t, stage));
    ItemsDeletedForm(t, order);
    EmptiedStage(t, stage);
  }

  lemma EmptiedStage(t: Tables, stage: Id)
    ensures var s := WithoutItems(t, ItemsOfStage(t, stage));
            s.stages == t.stages && forall i | i in s.stageItems :: s.stageItems[i].stage != stage
  {
    hide MatchesIn, InputsIn, RoundsIn, Detached, WithoutReferees;
  }

  // ---------------------------------------------------------------- the program

  method SqlDeleteStageItemMatches(db: Database, i: Id) returns (error: Option<Error>)
    modifies db`matches, db`matchSets
    ensures var before := old(db.Snapshot());
            Ended(DeleteMatches(before, MatchesOfItem(before, i)), before, db.Snapshot(), error)
  {
    error := SqlDeleteMatches(db, MatchesOfItem(db.Snapshot(), i));
  }

  method SqlDeleteStageItemRelations(db: Database, i: Id) returns (error: Option<Error>)
    modifies db`rounds, db`inputs, db`matches, db`stageItems, db`matchSets, db`rankings, db`nextId
    ensures Ended(DeleteRelations(old(db.Snapshot()), i), old(db.Snapshot()), db.Snapshot(), error)
  {
    hide DeleteRounds, DeleteInputs, Detached, RoundsOfItem, InputsOfItem;
    var saved := db.Snapshot();
    error := SqlDeleteRounds(db, RoundsOfItem(saved, i));
    if error.Some? { return; }
    error := SqlDeleteStageItemInputs(db, i);
    if error.Some? { db.Restore(saved); }
  }

  lemma RelationsKeepForeignKeys(t: Tables, i: Id)
    requires ForeignKeys(t)
    ensures DeleteRelations(t, i).Ok? ==> ForeignKeys(DeleteRelations(t, i).value)
  {
    hide ForeignKeys, DeleteRounds, DeleteInputs, Detached;
    DeleteRoundsKeeps(t, RoundsOfItem(t, i));
    if DeleteRounds(t, RoundsOfItem(t, i)).Ok? {
      var s := DeleteRounds(t, RoundsOfItem(t, i)).value;
      DetachKeeps(s, i);
      DeleteInputsKeeps(s.(inputs := Detached(s.inputs, {i})), InputsOfItem(s, i));
    }
  }

  method DeleteItemsWithForeignKeys(db: Database, items: seq<Id>) returns (error: Option<Error>)
    requires ForeignKeys(db.Snapshot())
    modifies db`stageItems, db`inputs, db`rounds, db`matches, db`matchSets, db`rankings, db`nextId
    ensures Tried(ItemsDeleted(old(db.Snapshot()), items), db.Snapshot(), error) && ForeignKeys(db.Snapshot())
  {
    hide ForeignKeys, DeletedItem;
    ghost var before := db.Snapshot();
    for k := 0 to |items|
      invariant ItemsDeleted(before, items[..k]) == Ok(db.Snapshot()) && ForeignKeys(db.Snapshot())
    {
      Split(items, k);
      error := SqlDeleteStageItemWithForeignKeys(db, items[k]);
      if error.Some? {
        ItemsDeletedAppend(before, items[..k + 1], items[k + 1..]);
        return;
      }
    }
    assert items[..|items|] == items;
    return None;
  }

  lemma {:induction false} ItemsDeletedAppend(t: Tables, a: seq<Id>, b: seq<Id>)
    ensures ItemsDeleted(t, a + b)
         == match ItemsDeleted(t, a) case Err(e) => Err(e) case Ok(s) => ItemsDeleted(s, b)
  {
    hide DeletedItem;
    if b == [] {
      assert a + b == a;
    } else {
      var n := |b| - 1;
      assert (a + b)[..|a + b| - 1] == a + b[..n];
      ItemsDeletedAppend(t, a, b[..n]);
    }
  }

  /** The items of the stage that are still there, each with everything below it, then the stage, all in one
      transaction. `order` is what the query lists. */
  method SqlDeleteStage(db: Database, tournament: Id, stage: Id, order: seq<Id>) returns (error: Option<Error>)
    requires ForeignKeys(db.Snapshot()) && Lists(order, ItemsOfStage(db.Snapshot(), stage))
    modifies db`stages, db`stageItems, db`inputs, db`rounds, db`matches, db`matchSets, db`rankings, db`nextId
    ensures Ended(StageDeleted(old(db.Snapshot()), tournament, stage, order),
                  old(db.Snapshot()), db.Snapshot(), error)
    ensures ForeignKeys(db.Snapshot())
  {
    hide ForeignKeys, ItemsDeleted, ItemsOfStage, DeleteStage, Lists;
    var saved := db.Snapshot();
    error := DeleteItemsWithForeignKeys(db, order);
    if error.Some? {
      db.Restore(saved);
      return;
    }
    DeletedStages(saved, order);
    error := SqlDeleteStageRow(db, tournament, stage);
    if error.Some? { db.Restore(saved); }
  }

  lemma {:induction false} DeletedStages(t: Tables, order: seq<Id>)
    requires ItemsDeleted(t, order).Ok?
    ensures var s := ItemsDeleted(t, order).value;
            s == t.(stageItems := s.stageItems, inputs := s.inputs, rounds := s.rounds, matches := s.matches,
                    matchSets := s.matchSets)
  {
    if order != [] {
      DeletedStages(t, order[..|order| - 1]);
      hide MatchesOfItem, InputsOfItem, RoundsOfItem, Detached, WithoutReferees, Separate;
    }
  }

  /** A stage without items: only its row is left to delete. */
  lemma BareStage(t: Tables, tournament: Id, stage: Id)
    requires ItemsOfStage(t, stage) == {}
    ensures StageDeleted(t, tournament, stage, []) == DeleteStage(t, tournament, stage)
    ensures Lists([], ItemsOfStage(t, stage))
  {
    hide ItemsOfStage, DeleteStage;
  }

  method SqlDeleteStageRow(db: Database, tournament: Id, stage: Id) returns (error: Option<Error>)
    requires ForeignKeys(db.Snapshot())
    modifies db`stages
    ensures Ended(DeleteStage(old(db.Snapshot()), tournament, stage), old(db.Snapshot()), db.Snapshot(), error)
    ensures ForeignKeys(db.Snapshot())
  {
    hide ForeignKeys;
    DeleteStageKeeps(db.Snapshot(), tournament, stage);
    if stage in db.stages && db.stages[stage].tournament == tournament {
      if exists i | i in db.stageItems :: db.stageItems[i].stage == stage { return Some(ForeignKeyViolation); }
      db.stages := db.stages - {stage};
    }
    return None;
  }

  method SqlDeleteRanking(db: Database, tournament: Id, r: Id) returns (error: Option<Error>)
    modifies db`rankings, db`rankingPoints
    ensures Ended(DeleteRanking(old(db.Snapshot()), tournament, r), old(db.Snapshot()), db.Snapshot(), error)
  {
    if r in db.rankings && db.rankings[r].tournament == tournament {
      if exists i | i in db.stageItems :: db.stageItems[i].ranking == r { return Some(ForeignKeyViolation); }
      db.rankings, db.rankingPoints := db.rankings - {r}, PointsWithout(db.rankingPoints, {r});
    }
    return None;
  }

  method SqlDeletePlayersOfTournament(db: Database, tournament: Id)
    requires ForeignKeys(db.Snapshot())
    modifies db`players, db`memberships
    ensures DeletePlayersOf(old(db.Snapshot()), tournament) == Ok(db.Snapshot()) && ForeignKeys(db.Snapshot())
  {
    hide ForeignKeys, PlayersOf, MembershipsWithout;
    DeleteBelongingsKeep(db.Snapshot(), tournament);
    var ids := PlayersOf(db.Snapshot(), tournament);
    db.players, db.memberships := db.players - ids, MembershipsWithout(db.Snapshot(), ids, {});
  }

  method SqlDeleteCourtsOfTournament(db: Database, tournament: Id) returns (error: Option<Error>)
    requires ForeignKeys(db.Snapshot())
    modifies db`courts
    ensures Tried(DeleteCourtsOf(old(db.Snapshot()), tournament), db.Snapshot(), error) && ForeignKeys(db.Snapshot())
  {
    hide ForeignKeys, CourtsOf;
    DeleteCourtsKeeps(db.Snapshot(), tournament);
    var ids := CourtsOf(db.Snapshot(), tournament);
    if exists m | m in db.matches :: Names(db.matches[m].court, ids) { return Some(ForeignKeyViolation); }
    db.courts := db.courts - ids;
    return None;
  }

  method SqlDeleteTeamsOfTournament(db: Database, tournament: Id) returns (error: Option<Error>)
    requires ForeignKeys(db.Snapshot())
    modifies db`teams, db`memberships
    ensures Tried(DeleteTeamsOf(old(db.Snapshot()), tournament), db.Snapshot(), error) && ForeignKeys(db.Snapshot())
  {
    hide ForeignKeys, TeamsOf, MembershipsWithout;
    DeleteBelongingsKeep(db.Snapshot(), tournament);
    var ids := TeamsOf(db.Snapshot(), tournament);
    if exists x | x in db.inputs :: Names(db.inputs[x].team, ids) { return Some(ForeignKeyViolation); }
    db.teams, db.memberships := db.teams - ids, MembershipsWithout(db.Snapshot(), {}, ids);
    return None;
  }

  method SqlDeleteLevelsOfTournament(db: Database, tournament: Id) returns (error: Option<Error>)
    requires ForeignKeys(db.Snapshot())
    modifies db`levels
    ensures Tried(DeleteLevelsOf(old(db.Snapshot()), tournament), db.Snapshot(), error) && ForeignKeys(db.Snapshot())
  {
    hide ForeignKeys;
    DeleteLevelsKeeps(db.Snapshot(), tournament);
    var result := DeleteLevelsOf(db.Snapshot(), tournament);
    if result.Err? { return Some(result.error); }
    db.levels := result.value.levels;
    return None;
  }

  method SqlDeleteTournament(db: Database, tournament: Id) returns (error: Option<Error>)
    requires ForeignKeys(db.Snapshot())
    modifies db`tournaments
    ensures Tried(DeleteTournament(old(db.Snapshot()), tournament), db.Snapshot(), error) && ForeignKeys(db.Snapshot())
  {
    hide ForeignKeys;
    DeleteTournamentKeeps(db.Snapshot(), tournament);
    var result := DeleteTournament(db.Snapshot(), tournament);
    if result.Err? { return Some(result.error); }
    db.tournaments := result.value.tournaments;
    return None;
  }

  method SqlDeleteBelongings(db: Database, tournament: Id) returns (error: Option<Error>)
    requires ForeignKeys(db.Snapshot())
    modifies db`players, db`memberships, db`courts, db`teams, db`levels, db`tournaments
    ensures Tried(BelongingsPhase(old(db.Snapshot()), tournament), db.Snapshot(), error)
    ensures ForeignKeys(db.Snapshot())
  {
    hide ForeignKeys, DeletePlayersOf, DeleteCourtsOf, DeleteTeamsOf, DeleteLevelsOf, DeleteTournament;
    SqlDeletePlayersOfTournament(db, tournament);
    error := SqlDeleteCourtsOfTournament(db, tournament);
    if error.Some? { return; }
    error := SqlDeleteTeamsOfTournament(db, tournament);
    if error.Some? { return; }
    error := SqlDeleteLevelsOfTournament(db, tournament);
    if error.Some? { return; }
    error := SqlDeleteTournament(db, tournament);
  }

  // Each phase over a concatenation is the phase over the first list and then over the second.

  lemma {:induction false} MatchPhaseAppend(t: Tables, a: seq<Id>, b: seq<Id>)
    ensures MatchPhase(t, a + b) == match MatchPhase(t, a)
                                  case Err(e) => Err(e)
                                  case Ok(s) => MatchPhase(s, b)
  {
    if b == [] {
      assert a + b == a;
    } else {
      assert (a + b)[..|a + b| - 1] == a + b[..|b| - 1];
      MatchPhaseAppend(t, a, b[..|b| - 1]);
    }
  }

  lemma {:induction false} RelationPhaseAppend(t: Tables, a: seq<Id>, b: seq<Id>)
    ensures RelationPhase(t, a + b) == match RelationPhase(t, a)
                                  case Err(e) => Err(e)
                                  case Ok(s) => RelationPhase(s, b)
  {
    if b == [] {
      assert a + b == a;
    } else {
      assert (a + b)[..|a + b| - 1] == a + b[..|b| - 1];
      RelationPhaseAppend(t, a, b[..|b| - 1]);
    }
  }

  lemma {:induction false} ItemRowsAppend(t: Tables, a: seq<Id>, b: seq<Id>)
    ensures ItemRows(t, a + b) == match ItemRows(t, a)
                                  case Err(e) => Err(e)
                                  case Ok(s) => ItemRows(s, b)
  {
    if b == [] {
      assert a + b == a;
    } else {
      assert (a + b)[..|a + b| - 1] == a + b[..|b| - 1];
      ItemRowsAppend(t, a, b[..|b| - 1]);
    }
  }

  lemma {:induction false} RankingPhaseAppend(t: Tables, tournament: Id, a: seq<Id>, b: seq<Id>)
    ensures RankingPhase(t, tournament, a + b) == match RankingPhase(t, tournament, a)
                                  case Err(e) => Err(e)
                                  case Ok(s) => RankingPhase(s, tournament, b)
  {
    if b == [] {
      assert a + b == a;
    } else {
      assert (a + b)[..|a + b| - 1] == a + b[..|b| - 1];
      RankingPhaseAppend(t, tournament, a, b[..|b| - 1]);
    }
  }

  lemma {:induction false} StagePhaseAppend(seen: Tables, t: Tables, tournament: Id, a: seq<Id>, b: seq<Id>)
    ensures StagePhase(seen, t, tournament, a + b) == match StagePhase(seen, t, tournament, a)
                                  case Err(e) => Err(e)
                                  case Ok(s) => StagePhase(seen, s, tournament, b)
  {
    if b == [] {
      assert a + b == a;
    } else {
      assert (a + b)[..|a + b| - 1] == a + b[..|b| - 1];
      StagePhaseAppend(seen, t, tournament, a, b[..|b| - 1]);
    }
  }

  lemma {:induction false} ItemOrderAppend(t: Tables, a: seq<Id>, b: seq<Id>)
    ensures ItemOrder(t, a + b) == ItemOrder(t, a) + ItemOrder(t, b)
  {
    hide ItemsOfStage;
    if b == [] {
      assert a + b == a;
      assert ItemOrder(t, a) + [] == ItemOrder(t, a);
    } else {
      assert (a + b)[..|a + b| - 1] == a + b[..|b| - 1];
      assert (a + b)[|a + b| - 1] == b[|b| - 1];
      ItemOrderAppend(t, a, b[..|b| - 1]);
      Associative(ItemOrder(t, a), ItemOrder(t, b[..|b| - 1]), ItemsByName(t, b[|b| - 1]));
    }
  }

  lemma Associative(x: seq<Id>, y: seq<Id>, z: seq<Id>)
    ensures (x + y) + z == x + (y + z)
  {
  }

  lemma Split(order: seq<Id>, k: nat)
    requires k < |order|
    ensures order == order[..k + 1] + order[k + 1..] && order[..k + 1][..k] == order[..k]
  {
  }

  method DeleteMatchesOfItems(db: Database, items: seq<Id>) returns (error: Option<Error>)
    requires ForeignKeys(db.Snapshot())
    modifies db`matches, db`matchSets
    ensures Tried(MatchPhase(old(db.Snapshot()), items), db.Snapshot(), error) && ForeignKeys(db.Snapshot())
  {
    hide ForeignKeys, DeleteMatches, MatchesOfItem;
    ghost var before := db.Snapshot();
    for k := 0 to |items|
      invariant MatchPhase(before, items[..k]) == Ok(db.Snapshot()) && ForeignKeys(db.Snapshot())
    {
      Split(items, k);
      DeleteMatchesKeeps(db.Snapshot(), MatchesOfItem(db.Snapshot(), items[k]));
      error := SqlDeleteStageItemMatches(db, items[k]);
      if error.Some? {
        MatchPhaseAppend(before, items[..k + 1], items[k + 1..]);
        return;
      }
    }
    assert items[..|items|] == items;
    return None;
  }

  method DeleteRelationsOfItems(db: Database, items: seq<Id>) returns (error: Option<Error>)
    requires ForeignKeys(db.Snapshot())
    modifies db`rounds, db`inputs, db`matches, db`stageItems, db`matchSets, db`rankings, db`nextId
    ensures Tried(RelationPhase(old(db.Snapshot()), items), db.Snapshot(), error) && ForeignKeys(db.Snapshot())
  {
    hide ForeignKeys, DeleteRelations;
    ghost var before := db.Snapshot();
    for k := 0 to |items|
      invariant RelationPhase(before, items[..k]) == Ok(db.Snapshot()) && ForeignKeys(db.Snapshot())
    {
      Split(items, k);
      RelationsKeepForeignKeys(db.Snapshot(), items[k]);
      error := SqlDeleteStageItemRelations(db, items[k]);
      if error.Some? {
        RelationPhaseAppend(before, items[..k + 1], items[k + 1..]);
        return;
      }
    }
    assert items[..|items|] == items;
    return None;
  }

  method DeleteItemRows(db: Database, items: seq<Id>) returns (error: Option<Error>)
    requires ForeignKeys(db.Snapshot())
    modifies db`stageItems, db`inputs, db`matches
    ensures Tried(ItemRows(old(db.Snapshot()), items), db.Snapshot(), error) && ForeignKeys(db.Snapshot())
  {
    hide ForeignKeys, DeleteStageItem;
    ghost var before := db.Snapshot();
    for k := 0 to |items|
      invariant ItemRows(before, items[..k]) == Ok(db.Snapshot()) && ForeignKeys(db.Snapshot())
    {
      Split(items, k);
      DeleteStageItemKeeps(db.Snapshot(), items[k]);
      error := SqlDeleteStageItem(db, items[k]);
      if error.Some? {
        ItemRowsAppend(before, items[..k + 1], items[k + 1..]);
        return;
      }
    }
    assert items[..|items|] == items;
    return None;
  }

  method DeleteAllMatches(db: Database, seen: Tables, stages: seq<Id>) returns (error: Option<Error>)
    requires ForeignKeys(db.Snapshot())
    modifies db`matches, db`matchSets
    ensures Tried(MatchPhase(old(db.Snapshot()), ItemOrder(seen, stages)), db.Snapshot(), error)
    ensures ForeignKeys(db.Snapshot())
  {
    hide ForeignKeys, MatchPhase, ItemsOfStage;
    ghost var before := db.Snapshot();
    NothingDone(before, seen);
    for a := 0 to |stages|
      invariant MatchPhase(before, ItemOrder(seen, stages[..a])) == Ok(db.Snapshot()) && ForeignKeys(db.Snapshot())
    {
      Split(stages, a);
      var items := ItemsByName(seen, stages[a]);
      MatchPhaseAppend(before, ItemOrder(seen, stages[..a]), items);
      error := DeleteMatchesOfItems(db, items);
      if error.Some? {
        ItemOrderAppend(seen, stages[..a + 1], stages[a + 1..]);
        MatchPhaseAppend(before, ItemOrder(seen, stages[..a + 1]), ItemOrder(seen, stages[a + 1..]));
        return;
      }
    }
    assert stages[..|stages|] == stages;
    return None;
  }

  lemma NothingDone(t: Tables, seen: Tables)
    ensures ItemOrder(seen, []) == [] && MatchPhase(t, []) == Ok(t) && RelationPhase(t, []) == Ok(t)
  {
  }

  method DeleteAllRelations(db: Database, seen: Tables, stages: seq<Id>) returns (error: Option<Error>)
    requires ForeignKeys(db.Snapshot())
    modifies db`rounds, db`inputs, db`matches, db`stageItems, db`matchSets, db`rankings, db`nextId
    ensures Tried(RelationPhase(old(db.Snapshot()), ItemOrder(seen, stages)), db.Snapshot(), error)
    ensures ForeignKeys(db.Snapshot())
  {
    hide ForeignKeys, RelationPhase, ItemsOfStage;
    ghost var before := db.Snapshot();
    NothingDone(before, seen);
    for a := 0 to |stages|
      invariant RelationPhase(before, ItemOrder(seen, stages[..a])) == Ok(db.Snapshot()) && ForeignKeys(db.Snapshot())
    {
      Split(stages, a);
      var items := ItemsByName(seen, stages[a]);
      RelationPhaseAppend(before, ItemOrder(seen, stages[..a]), items);
      error := DeleteRelationsOfItems(db, items);
      if error.Some? {
        ItemOrderAppend(seen, stages[..a + 1], stages[a + 1..]);
        RelationPhaseAppend(before, ItemOrder(seen, stages[..a + 1]), ItemOrder(seen, stages[a + 1..]));
        return;
      }
    }
    assert stages[..|stages|] == stages;
    return None;
  }

  ghost predicate StillListed(rest: map<Id, StageItem>, listed: map<Id, StageItem>) {
    rest.Keys <= listed.Keys && forall i | i in rest :: rest[i] == listed[i]
  }

  /** Once the listed item rows of a stage are deleted, it has no items. */
  lemma NoItemsLeft(seen: Tables, s: Tables, stage: Id)
    requires StillListed(s.stageItems, seen.stageItems)
    requires ItemRows(s, ItemsByName(seen, stage)).Ok?
    ensures var u := ItemRows(s, ItemsByName(seen, stage)).value;
            ItemsOfStage(u, stage) == {} && StillListed(u.stageItems, seen.stageItems)
  {
    var items := ItemsByName(seen, stage);
    ItemRowsOnlyRemove(s, items);
    assert Group(items) == ItemsOfStage(seen, stage);
    hide ItemRows;
    EmptyOrHasMember(ItemsOfStage(ItemRows(s, items).value, stage));
  }

  lemma {:induction false} ItemRowsOnlyRemove(t: Tables, items: seq<Id>)
    requires ItemRows(t, items).Ok?
    ensures ItemRows(t, items).value.stageItems == t.stageItems - Group(items)
  {
    if items == [] {
      assert t.stageItems - Group([]) == t.stageItems;
    } else {
      var n := |items| - 1;
      ItemRowsOnlyRemove(t, items[..n]);
      assert items == items[..n] + [items[n]];
      assert Group(items) == Group(items[..n]) + {items[n]};
      assert (t.stageItems - Group(items[..n])) - {items[n]} == t.stageItems - Group(items);
    }
  }

  method DeleteOneStage(db: Database, seen: Tables, tournament: Id, stage: Id) returns (error: Option<Error>)
    requires ForeignKeys(db.Snapshot()) && StillListed(db.stageItems, seen.stageItems)
    modifies db`stages, db`stageItems, db`inputs, db`rounds, db`matches, db`matchSets, db`rankings, db`nextId
    ensures var rows := ItemRows(old(db.Snapshot()), ItemsByName(seen, stage));
            Tried(match rows case Err(e) => Err(e) case Ok(u) => DeleteStage(u, tournament, stage),
                  db.Snapshot(), error)
    ensures ForeignKeys(db.Snapshot()) && (error.None? ==> StillListed(db.stageItems, seen.stageItems))
  {
    hide ForeignKeys, ItemRows, StillListed, DeleteStage, ItemsOfStage, StageDeleted;
    ghost var before := db.Snapshot();
    error := DeleteItemRows(db, ItemsByName(seen, stage));
    if error.Some? { return; }
    NoItemsLeft(seen, before, stage);
    BareStage(db.Snapshot(), tournament, stage);
    StageRowFrame(db.Snapshot(), tournament, stage);
    error := SqlDeleteStage(db, tournament, stage, []);
  }

  method DeleteAllStages(db: Database, seen: Tables, tournament: Id, stages: seq<Id>) returns (error: Option<Error>)
    requires ForeignKeys(db.Snapshot()) && StillListed(db.stageItems, seen.stageItems)
    modifies db`stages, db`stageItems, db`inputs, db`rounds, db`matches, db`matchSets, db`rankings, db`nextId
    ensures Tried(StagePhase(seen, old(db.Snapshot()), tournament, stages), db.Snapshot(), error)
    ensures ForeignKeys(db.Snapshot())
  {
    hide ForeignKeys, ItemRows, DeleteStage, StillListed, ItemsOfStage;
    ghost var before := db.Snapshot();
    for a := 0 to |stages|
      invariant StagePhase(seen, before, tournament, stages[..a]) == Ok(db.Snapshot()) && ForeignKeys(db.Snapshot())
      invariant StillListed(db.stageItems, seen.stageItems)
    {
      Split(stages, a);
      error := DeleteOneStage(db, seen, tournament, stages[a]);
      if error.Some? {
        StagePhaseAppend(seen, before, tournament, stages[..a + 1], stages[a + 1..]);
        return;
      }
    }
    assert stages[..|stages|] == stages;
    return None;
  }

  lemma {:induction false} RelationPhaseFrame(t: Tables, order: seq<Id>)
    ensures RelationPhase(t, order).Ok? ==> RelationPhase(t, order).value.stageItems == t.stageItems
  {
    if order != [] {
      RelationPhaseFrame(t, order[..|order| - 1]);
    }
  }

  lemma StageRowFrame(t: Tables, tournament: Id, stage: Id)
    ensures DeleteStage(t, tournament, stage).Ok? ==> DeleteStage(t, tournament, stage).value.stageItems == t.stageItems
  {
  }

  method DeleteAllRankings(db: Database, tournament: Id, rankings: seq<Id>) returns (error: Option<Error>)
    requires ForeignKeys(db.Snapshot())
    modifies db`rankings, db`rankingPoints
    ensures Tried(RankingPhase(old(db.Snapshot()), tournament, rankings), db.Snapshot(), error)
    ensures ForeignKeys(db.Snapshot())
  {
    hide ForeignKeys, DeleteRanking;
    ghost var before := db.Snapshot();
    for k := 0 to |rankings|
      invariant RankingPhase(before, tournament, rankings[..k]) == Ok(db.Snapshot()) && ForeignKeys(db.Snapshot())
    {
      Split(rankings, k);
      DeleteRankingKeeps(db.Snapshot(), tournament, rankings[k]);
      error := SqlDeleteRanking(db, tournament, rankings[k]);
      if error.Some? {
        RankingPhaseAppend(before, tournament, rankings[..k + 1], rankings[k + 1..]);
        return;
      }
    }
    assert rankings[..|rankings|] == rankings;
    return None;
  }

  /** The whole deletion, phase by phase. Every state it passes through satisfies every foreign key. */
  method SqlDeleteTournamentCompletely(db: Database, tournament: Id) returns (error: Option<Error>)
    requires ForeignKeys(db.Snapshot())
    modifies db
    ensures ForeignKeys(db.Snapshot())
    ensures Tried(DeleteCompletely(old(db.Snapshot()), tournament), db.Snapshot(), error)
  {
    hide ForeignKeys, ItemOrder, MatchPhase, RelationPhase, StagePhase, RankingPhase, BelongingsPhase, StagesOf,
      RankingsOf, Ids;
    var seen := db.Snapshot();
    var stages := Ids(StagesOf(seen, tournament));
    error := DeleteAllMatches(db, seen, stages);
    if error.Some? { return; }
    ghost var matchless := db.Snapshot();
    error := DeleteAllRelations(db, seen, stages);
    if error.Some? { return; }
    RelationPhaseFrame(matchless, ItemOrder(seen, stages));
    error := DeleteAllStages(db, seen, tournament, stages);
    if error.Some? { return; }
    error := DeleteAllRankings(db, tournament, Ids(RankingsOf(db.Snapshot(), tournament)));
    if error.Some? { return; }
    error := SqlDeleteBelongings(db, tournament);
  }
}
