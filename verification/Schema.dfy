/** The tournament database: one datatype per row, one map per table, and the rules that the
    database itself enforces. `Tables` is an immutable picture of the whole database, used in
    specifications and as the savepoint of a transaction; `Database` is the mutable store. */
module Schema {

  type Id = int

  datatype Option<+T> = None | Some(value: T)

  /** Why a statement or a request was refused. Postgres raises the first three by itself. */
  datatype Error =
    | ForeignKeyViolation
    | UniqueViolation
    | CheckViolation
    | IllegalTransition
    | NotFound
    | Http(status: int)

  datatype Result<+T> = Ok(value: T) | Err(error: Error)

  datatype StageKind = RoundRobin | SingleElimination | Swiss | Mexicano
  datatype Lifecycle = Active | Placeholder | Resolved | Locked

  /** `completed_set_count` and `current_set_in_progress` of a match. */
  datatype Pointer = Pointer(completed: int, inProgress: bool)
  datatype Score = Score(first: int, second: int)
  datatype TeamStats =
    TeamStats(points: real, wins: int, draws: int, losses: int, setDifference: int, pointDifference: int)

  const NO_STATS := TeamStats(0.0, 0, 0, 0, 0, 0)

  datatype Level = Level(tournament: Id)
  datatype Stage = Stage(tournament: Id, level: Option<Id>)
  /** Names matter only for the order items are listed in: `name` is a name's place in that order. */
  datatype StageItem =
    StageItem(stage: Id, kind: StageKind, teamCount: int, ranking: Id, gamesPerPlayer: Option<int>, name: int)
  datatype Input =
    Input(tournament: Id, stageItem: Id, slot: int, team: Option<Id>,
          winnerFrom: Option<Id>, winnerPosition: Option<int>, stats: TeamStats)
  datatype Round = Round(stageItem: Id, lifecycle: Lifecycle)
  datatype Match =
    Match(round: Id, input1: Option<Id>, input2: Option<Id>,
          winnerFrom1: Option<Id>, winnerFrom2: Option<Id>, court: Option<Id>,
          referee: Option<Id>, refereeName: Option<string>, completedAt: Option<int>,
          slot1: Option<int>, slot2: Option<int>, refereeSlot: Option<int>, progress: Pointer)
  datatype Team = Team(tournament: Id, level: Option<Id>)
  datatype Player = Player(tournament: Id, level: Option<Id>)
  datatype Membership = Membership(player: Id, team: Id)
  datatype Court = Court(tournament: Id)

  /** The columns of a ranking that say how its matches are played. */
  datatype Rules =
    Rules(numSets: int, maxPoints: int, lastSetMaxPoints: Option<int>,
          twoPointAdvantage: bool, playAllSets: bool, drawsAllowed: bool)
  datatype Ranking = Ranking(tournament: Id, level: Option<Id>, position: int, rules: Rules)

  /** The set rows of one match by set number; the schema declares (match, set number) unique. */
  type Rows = map<int, Score>

  datatype Tables = Tables(
    tournaments: set<Id>,
    levels: map<Id, Level>,
    stages: map<Id, Stage>,
    stageItems: map<Id, StageItem>,
    inputs: map<Id, Input>,
    rounds: map<Id, Round>,
    matches: map<Id, Match>,
    matchSets: map<Id, Rows>,
    teams: map<Id, Team>,
    players: map<Id, Player>,
    memberships: map<Id, Membership>,
    courts: map<Id, Court>,
    rankings: map<Id, Ranking>,
    rankingPoints: map<Id, Id>,  // rows of the three scoring tables, each naming its ranking
    nextId: Id)                  // the next value of the identity sequences

  // ---------------------------------------------------------------- foreign keys

  predicate Refers(ref: Option<Id>, keys: set<Id>) {
    ref.Some? ==> ref.value in keys
  }

  ghost predicate LevelsRefer(levels: map<Id, Level>, tournaments: set<Id>) {
    forall l | l in levels :: levels[l].tournament in tournaments
  }

  ghost predicate StagesRefer(stages: map<Id, Stage>, tournaments: set<Id>, levels: set<Id>) {
    forall s | s in stages :: stages[s].tournament in tournaments && Refers(stages[s].level, levels)
  }

  ghost predicate StageItemsRefer(stageItems: map<Id, StageItem>, stages: set<Id>, rankings: set<Id>) {
    forall i | i in stageItems :: stageItems[i].stage in stages && stageItems[i].ranking in rankings
  }

  ghost predicate InputsRefer(inputs: map<Id, Input>, tournaments: set<Id>, stageItems: set<Id>, teams: set<Id>) {
    forall i | i in inputs ::
      && inputs[i].tournament in tournaments
      && inputs[i].stageItem in stageItems
      && Refers(inputs[i].team, teams)
      && Refers(inputs[i].winnerFrom, stageItems)
  }

  ghost predicate RoundsRefer(rounds: map<Id, Round>, stageItems: set<Id>) {
    forall r | r in rounds :: rounds[r].stageItem in stageItems
  }

  predicate MatchRefers(m: Match, rounds: set<Id>, inputs: set<Id>, matches: set<Id>, courts: set<Id>) {
    && m.round in rounds
    && Refers(m.input1, inputs)
    && Refers(m.input2, inputs)
    && Refers(m.winnerFrom1, matches)
    && Refers(m.winnerFrom2, matches)
    && Refers(m.court, courts)
    && Refers(m.referee, inputs)
  }

  ghost predicate MatchesRefer(matches: map<Id, Match>, rounds: set<Id>, inputs: set<Id>, courts: set<Id>) {
    forall m | m in matches :: MatchRefers(matches[m], rounds, inputs, matches.Keys, courts)
  }

  ghost predicate MatchSetsRefer(matchSets: map<Id, Rows>, matches: set<Id>) {
    matchSets.Keys <= matches
  }

  ghost predicate TeamsRefer(teams: map<Id, Team>, tournaments: set<Id>, levels: set<Id>) {
    forall x | x in teams :: teams[x].tournament in tournaments && Refers(teams[x].level, levels)
  }

  ghost predicate PlayersRefer(players: map<Id, Player>, tournaments: set<Id>, levels: set<Id>) {
    forall x | x in players :: players[x].tournament in tournaments && Refers(players[x].level, levels)
  }

  ghost predicate MembershipsRefer(memberships: map<Id, Membership>, players: set<Id>, teams: set<Id>) {
    forall x | x in memberships :: memberships[x].player in players && memberships[x].team in teams
  }

  ghost predicate CourtsRefer(courts: map<Id, Court>, tournaments: set<Id>) {
    forall x | x in courts :: courts[x].tournament in tournaments
  }

  ghost predicate RankingsRefer(rankings: map<Id, Ranking>, tournaments: set<Id>, levels: set<Id>) {
    forall x | x in rankings :: rankings[x].tournament in tournaments && Refers(rankings[x].level, levels)
  }

  ghost predicate RankingPointsRefer(points: map<Id, Id>, rankings: set<Id>) {
    forall x | x in points :: points[x] in rankings
  }

  /** Every foreign key of the schema holds. */
  ghost predicate ForeignKeys(t: Tables) {
    && LevelsRefer(t.levels, t.tournaments)
    && StagesRefer(t.stages, t.tournaments, t.levels.Keys)
    && StageItemsRefer(t.stageItems, t.stages.Keys, t.rankings.Keys)
    && InputsRefer(t.inputs, t.tournaments, t.stageItems.Keys, t.teams.Keys)
    && RoundsRefer(t.rounds, t.stageItems.Keys)
    && MatchesRefer(t.matches, t.rounds.Keys, t.inputs.Keys, t.courts.Keys)
    && MatchSetsRefer(t.matchSets, t.matches.Keys)
    && TeamsRefer(t.teams, t.tournaments, t.levels.Keys)
    && PlayersRefer(t.players, t.tournaments, t.levels.Keys)
    && MembershipsRefer(t.memberships, t.players.Keys, t.teams.Keys)
    && CourtsRefer(t.courts, t.tournaments)
    && RankingsRefer(t.rankings, t.tournaments, t.levels.Keys)
    && RankingPointsRefer(t.rankingPoints, t.rankings.Keys)
  }

  /** UNIQUE(stage_item_id, team_id); NULL teams never collide. */
  ghost predicate UniqueTeams(inputs: map<Id, Input>) {
    forall i, j | i in inputs && j in inputs && i != j ::
      inputs[i].team.Some? && inputs[i].team == inputs[j].team ==>
        inputs[i].stageItem != inputs[j].stageItem
  }

  /** The identity sequences are ahead of every id in use, so an inserted row is a new row. */
  ghost predicate IdsBelowSequence(t: Tables) {
    && (forall x | x in t.stages :: x < t.nextId)
    && (forall x | x in t.stageItems :: x < t.nextId)
    && (forall x | x in t.inputs :: x < t.nextId)
    && (forall x | x in t.rounds :: x < t.nextId)
    && (forall x | x in t.matches :: x < t.nextId)
    && (forall x | x in t.rankings :: x < t.nextId)
  }

  // ---------------------------------------------------------------- ORDER BY

  predicate Before(key: map<Id, int>, x: Id, y: Id)
    requires x in key && y in key
  {
    key[x] < key[y] || (key[x] == key[y] && x < y)
  }

  lemma EmptyOrHasMember(ids: set<Id>)
    ensures ids == {} || exists x :: x in ids
  {
    if forall x: Id :: x !in ids {
      assert ids == {};
    }
  }

  lemma {:induction false} LeastExists(ids: set<Id>, key: map<Id, int>)
    requires ids != {} && ids <= key.Keys
    ensures exists x :: x in ids && forall y | y in ids :: y == x || Before(key, x, y)
  {
    EmptyOrHasMember(ids);
    var x :| x in ids;
    var rest := ids - {x};
    if rest == {} {
      assert ids == {x};
    } else {
      LeastExists(rest, key);
      var y :| y in rest && forall z | z in rest :: z == y || Before(key, y, z);
      var least := if Before(key, x, y) then x else y;
      forall z | z in ids ensures z == least || Before(key, least, z) {
        if z != x { assert z in rest; }
      }
    }
  }

  /** The ids in ascending order of `key`, ties in ascending order of id. */
  function SortedBy(ids: set<Id>, key: map<Id, int>): (order: seq<Id>)
    requires ids <= key.Keys
    ensures |order| == |ids|
    ensures forall x :: x in order <==> x in ids
    ensures forall i, j | 0 <= i < j < |order| :: Before(key, order[i], order[j])
  {
    if ids == {} then [] else
      LeastExists(ids, key);
      var x :| x in ids && forall y | y in ids :: y == x || Before(key, x, y);
      [x] + SortedBy(ids - {x}, key)
  }

  ghost predicate InOrder(order: seq<Id>, key: map<Id, int>) {
    && (forall x | x in order :: x in key)
    && forall i, j | 0 <= i < j < |order| :: Before(key, order[i], order[j])
  }

  /** An ascending listing is determined by what it lists. */
  lemma {:induction false} OrderUnique(a: seq<Id>, b: seq<Id>, key: map<Id, int>)
    requires InOrder(a, key) && InOrder(b, key) && forall x :: x in a <==> x in b
    ensures a == b
  {
    if a == [] {
      HasMember(b);
    } else {
      assert a[0] in b && b != [] && b[0] in a;
      assert a[0] == b[0];
      forall x ensures x in a[1..] <==> x in b[1..] {
        TailMember(a, key, x);
        TailMember(b, key, x);
      }
      OrderUnique(a[1..], b[1..], key);
    }
  }

  lemma SameMap<V>(x: map<Id, V>, y: map<Id, V>)
    requires x.Keys == y.Keys && forall m | m in x.Keys :: x[m] == y[m]
    ensures x == y
  {
    forall m | m in x.Keys ensures m in y.Keys && x[m] == y[m] {}
  }

  lemma HasMember(a: seq<Id>)
    ensures (forall x: Id :: x !in a) ==> a == []
  {
    if a != [] {
      var x := a[0];
      assert x in a;
    }
  }

  lemma TailMember(a: seq<Id>, key: map<Id, int>, x: Id)
    requires InOrder(a, key) && a != []
    ensures x in a[1..] <==> x in a && x != a[0]
  {
    assert a == [a[0]] + a[1..];
    if x in a[1..] {
      var k :| 0 <= k < |a[1..]| && a[1..][k] == x;
      assert Before(key, a[0], a[k + 1]);
    }
  }

  // ---------------------------------------------------------------- the store

  class Database {
    var tournaments: set<Id>
    var levels: map<Id, Level>
    var stages: map<Id, Stage>
    var stageItems: map<Id, StageItem>
    var inputs: map<Id, Input>
    var rounds: map<Id, Round>
    var matches: map<Id, Match>
    var matchSets: map<Id, Rows>
    var teams: map<Id, Team>
    var players: map<Id, Player>
    var memberships: map<Id, Membership>
    var courts: map<Id, Court>
    var rankings: map<Id, Ranking>
    var rankingPoints: map<Id, Id>
    var nextId: Id

    function Snapshot(): Tables
      reads this
    {
      Tables(tournaments, levels, stages, stageItems, inputs, rounds, matches, matchSets, teams,
             players, memberships, courts, rankings, rankingPoints, nextId)
    }

    constructor (t: Tables)
      ensures Snapshot() == t
    {
      tournaments, levels, stages, stageItems := t.tournaments, t.levels, t.stages, t.stageItems;
      inputs, rounds, matches, matchSets := t.inputs, t.rounds, t.matches, t.matchSets;
      teams, players, memberships, courts := t.teams, t.players, t.memberships, t.courts;
      rankings, rankingPoints, nextId := t.rankings, t.rankingPoints, t.nextId;
    }

    /** Roll a transaction back to its savepoint: the tables a request writes in one transaction. */
    method Restore(t: Tables)
      modifies `stageItems, `inputs, `rounds, `matches, `matchSets, `rankings, `nextId
      ensures stageItems == t.stageItems && inputs == t.inputs && rounds == t.rounds
      ensures matches == t.matches && matchSets == t.matchSets && rankings == t.rankings
      ensures nextId == t.nextId
    {
      stageItems, inputs, rounds := t.stageItems, t.inputs, t.rounds;
      matches, matchSets, rankings, nextId := t.matches, t.matchSets, t.rankings, t.nextId;
    }
  }
}
