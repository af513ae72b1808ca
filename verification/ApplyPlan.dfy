/** Applying a plan of writes in one transaction. Team assignments are ordered so that teams can trade
    places under UNIQUE(stage_item_id, team_id), which is checked after every single write. */
module ApplyPlan {
  import opened Schema
  import opened MatchSets
  import opened SetResize

  datatype Assignment = Assignment(input: Id, team: Option<Id>, previous: Option<Id>)

  datatype PlanItem =
    | SetTeamStats(input: Id, stats: TeamStats)
    | SetMatchInputs(round: Id, match_: Id, input1: Option<Id>, input2: Option<Id>)
    | SetMatchReferee(match_: Id, referee: Id)
    | SetLifecycle(round: Id, state: Lifecycle)
    | AssignTeam(assignment: Assignment)

  // ---------------------------------------------------------------- the order of the writes

  function Clears(items: seq<Assignment>): seq<Assignment> {
    if items == [] then [] else
      var a := items[0];
      if a.previous.Some? && a.previous != a.team
      then [Assignment(a.input, None, a.previous)] + Clears(items[1..])
      else Clears(items[1..])
  }

  /** The clears are exactly the inputs that give up a team, each cleared. */
  lemma {:induction false} ClearsAre(items: seq<Assignment>)
    ensures forall c | c in Clears(items) :: c.team == None
    ensures forall a | a in items && a.previous.Some? && a.previous != a.team ::
              Assignment(a.input, None, a.previous) in Clears(items)
    ensures forall c | c in Clears(items) ::
              exists a | a in items :: a.input == c.input && a.previous.Some? && a.previous != a.team
  {
    if items != [] {
      ClearsAre(items[1..]);
      assert items == [items[0]] + items[1..];
    }
  }

  function OrderedWrites(items: seq<Assignment>): seq<Assignment> {
    Clears(items) + items
  }

  // ---------------------------------------------------------------- one write

  type Inputs = map<Id, Input>

  predicate Targets(inputs: Inputs, tournament: Id, input: Id) {
    input in inputs && inputs[input].tournament == tournament
  }

  /** UPDATE stage_item_inputs SET team_id: no row, no write. */
  function Write(inputs: Inputs, tournament: Id, input: Id, team: Option<Id>): Inputs {
    if Targets(inputs, tournament, input) then inputs[input := inputs[input].(team := team)] else inputs
  }

  function WriteAll(inputs: Inputs, tournament: Id, ws: seq<Assignment>): Inputs {
    if ws == [] then inputs
    else Write(WriteAll(inputs, tournament, ws[..|ws| - 1]), tournament, ws[|ws| - 1].input, ws[|ws| - 1].team)
  }

  predicate TeamsUnique(inputs: Inputs)
    ensures TeamsUnique(inputs) <==> UniqueTeams(inputs)
  {
    forall i, j | i in inputs && j in inputs && i != j ::
      inputs[i].team.Some? && inputs[i].team == inputs[j].team ==>
        inputs[i].stageItem != inputs[j].stageItem
  }

  /** One write under the foreign key on teams and the uniqueness of teams per stage item. */
  function TryWrite(inputs: Inputs, teams: set<Id>, tournament: Id, w: Assignment): Result<Inputs> {
    var next := Write(inputs, tournament, w.input, w.team);
    if Targets(inputs, tournament, w.input) && !Refers(w.team, teams) then Err(ForeignKeyViolation)
    else if !TeamsUnique(next) then Err(UniqueViolation)
    else Ok(next)
  }

  function TryWrites(inputs: Inputs, teams: set<Id>, tournament: Id, ws: seq<Assignment>): Result<Inputs> {
    if ws == [] then Ok(inputs) else
      match TryWrites(inputs, teams, tournament, ws[..|ws| - 1])
      case Err(e) => Err(e)
      case Ok(now) => TryWrite(now, teams, tournament, ws[|ws| - 1])
  }

  method SqlSetTeamIdForStageItemInput(db: Database, tournament: Id, w: Assignment) returns (error: Option<Error>)
    modifies db`inputs
    ensures match TryWrite(old(db.inputs), db.teams.Keys, tournament, w)
            case Ok(inputs) => error == None && db.inputs == inputs
            case Err(e) => error == Some(e) && db.inputs == old(db.inputs)
  {
    if Targets(db.inputs, tournament, w.input) && !Refers(w.team, db.teams.Keys) {
      return Some(ForeignKeyViolation);
    }
    var next := Write(db.inputs, tournament, w.input, w.team);
    if !TeamsUnique(next) {
      return Some(UniqueViolation);
    }
    db.inputs := next;
    return None;
  }

  // ---------------------------------------------------------------- the batch

  /** Each input occurs once in the batch. */
  ghost predicate DistinctInputs(items: seq<Assignment>) {
    forall i, j | 0 <= i < j < |items| :: items[i].input != items[j].input
  }

  /** `previous` is the team the input has now. */
  ghost predicate PreviousAccurate(inputs: Inputs, tournament: Id, items: seq<Assignment>) {
    forall a | a in items && Targets(inputs, tournament, a.input) :: a.previous == inputs[a.input].team
  }

  function TeamAssigned(items: seq<Assignment>, i: Id, otherwise: Option<Id>): Option<Id> {
    if items == [] then otherwise
    else if items[0].input == i then items[0].team
    else TeamAssigned(items[1..], i, otherwise)
  }

  /** All assignments at once: the table the batch is meant to produce. */
  function Simultaneous(inputs: Inputs, tournament: Id, items: seq<Assignment>): Inputs {
    map i | i in inputs ::
      if inputs[i].tournament == tournament
      then inputs[i].(team := TeamAssigned(items, i, inputs[i].team)) else inputs[i]
  }

  ghost predicate TeamsExist(inputs: Inputs, teams: set<Id>, tournament: Id, items: seq<Assignment>) {
    forall a | a in items && Targets(inputs, tournament, a.input) :: Refers(a.team, teams)
  }

  // ---------------------------------------------------------------- every prefix is unique

  /** The team input `i`, whose row is `row`, has after the writes. */
  function TeamAfter(row: Input, tournament: Id, ws: seq<Assignment>, i: Id): Option<Id> {
    if ws == [] then row.team
    else if ws[|ws| - 1].input == i && row.tournament == tournament then ws[|ws| - 1].team
    else TeamAfter(row, tournament, ws[..|ws| - 1], i)
  }

  lemma {:induction false} WriteAllRows(inputs: Inputs, tournament: Id, ws: seq<Assignment>)
    ensures WriteAll(inputs, tournament, ws).Keys == inputs.Keys
    ensures forall i | i in inputs ::
              WriteAll(inputs, tournament, ws)[i] == inputs[i].(team := TeamAfter(inputs[i], tournament, ws, i))
  {
    if ws != [] {
      WriteAllRows(inputs, tournament, ws[..|ws| - 1]);
    }
  }

  lemma {:induction false} TeamAfterClears(row: Input, tournament: Id, ws: seq<Assignment>, i: Id)
    requires forall w | w in ws :: w.team == None
    ensures TeamAfter(row, tournament, ws, i)
         == if row.tournament == tournament && exists w | w in ws :: w.input == i then None else row.team
  {
    if ws != [] {
      var init, last := ws[..|ws| - 1], ws[|ws| - 1];
      assert ws == init + [last];
      TeamAfterClears(row, tournament, init, i);
    }
  }

  lemma {:induction false} TeamAfterItems(row: Input, tournament: Id, clears: seq<Assignment>, items: seq<Assignment>,
    j: nat, i: Id)
    requires j <= |items| && DistinctInputs(items)
    ensures TeamAfter(row, tournament, clears + items[..j], i)
         == if row.tournament == tournament && exists x | 0 <= x < j :: items[x].input == i
            then TeamAssigned(items, i, row.team) else TeamAfter(row, tournament, clears, i)
  {
    if j == 0 {
      assert clears + items[..0] == clears;
    } else {
      var ws := clears + items[..j];
      assert ws[..|ws| - 1] == clears + items[..j - 1] && ws[|ws| - 1] == items[j - 1];
      TeamAfterItems(row, tournament, clears, items, j - 1, i);
      if items[j - 1].input == i { AssignedAt(items, j - 1, row.team); }
    }
  }

  lemma {:induction false} AssignedAt(items: seq<Assignment>, x: nat, otherwise: Option<Id>)
    requires x < |items| && DistinctInputs(items)
    ensures TeamAssigned(items, items[x].input, otherwise) == items[x].team
  {
    if x > 0 {
      assert items[0].input != items[x].input;
      assert items[1..][x - 1] == items[x];
      AssignedAt(items[1..], x - 1, otherwise);
    }
  }

  lemma {:induction false} NotAssigned(items: seq<Assignment>, i: Id, otherwise: Option<Id>)
    requires forall a | a in items :: a.input != i
    ensures TeamAssigned(items, i, otherwise) == otherwise
  {
    if items != [] {
      assert items[0] in items;
      NotAssigned(items[1..], i, otherwise);
    }
  }

  /** Same rows, except that some teams may be missing. */
  ghost predicate Below(x: Inputs, y: Inputs) {
    && x.Keys == y.Keys
    && forall i | i in x :: x[i] == y[i].(team := x[i].team) && (x[i].team.Some? ==> x[i].team == y[i].team)
  }

  lemma BelowIsUnique(x: Inputs, y: Inputs)
    requires Below(x, y) && UniqueTeams(y)
    ensures UniqueTeams(x)
  {
  }

  /** While clearing, the table only loses teams. */
  lemma ClearingOnlyLoses(inputs: Inputs, tournament: Id, items: seq<Assignment>, k: nat)
    requires k <= |Clears(items)|
    ensures Below(WriteAll(inputs, tournament, OrderedWrites(items)[..k]), inputs)
  {
    var ws := OrderedWrites(items)[..k];
    ClearsAre(items);
    assert ws == Clears(items)[..k];
    WriteAllRows(inputs, tournament, ws);
    forall i | i in inputs {
      TeamAfterClears(inputs[i], tournament, ws, i);
    }
  }

  /** While writing, every input has no team or its final one. */
  lemma WritingOnlyFinal(inputs: Inputs, tournament: Id, items: seq<Assignment>, j: nat)
    requires j <= |items| && DistinctInputs(items) && PreviousAccurate(inputs, tournament, items)
    ensures var after := WriteAll(inputs, tournament, Clears(items) + items[..j]);
            && Below(after, Simultaneous(inputs, tournament, items))
            && (j == |items| ==> after == Simultaneous(inputs, tournament, items))
  {
    var clears, final := Clears(items), Simultaneous(inputs, tournament, items);
    var after := WriteAll(inputs, tournament, clears + items[..j]);
    WriteAllRows(inputs, tournament, clears + items[..j]);
    forall i | i in inputs
      ensures after[i] == final[i].(team := after[i].team)
      ensures after[i].team == None || after[i].team == final[i].team
      ensures j == |items| ==> after[i] == final[i]
    {
      WritingRow(inputs[i], tournament, items, j, i, inputs);
    }
  }

  lemma WritingRow(row: Input, tournament: Id, items: seq<Assignment>, j: nat, i: Id, inputs: Inputs)
    requires j <= |items| && DistinctInputs(items) && PreviousAccurate(inputs, tournament, items)
    requires i in inputs && row == inputs[i]
    ensures var team := TeamAfter(row, tournament, Clears(items) + items[..j], i);
            var final := if row.tournament == tournament then TeamAssigned(items, i, row.team) else row.team;
            (team == None || team == final) && (j == |items| ==> team == final)
  {
    var clears := Clears(items);
    ClearsAre(items);
    TeamAfterItems(row, tournament, clears, items, j, i);
    TeamAfterClears(row, tournament, clears, i);
    if a :| a in items && a.input == i {
      var x :| 0 <= x < |items| && items[x] == a;
      AssignedAt(items, x, row.team);
      if row.tournament == tournament && a.previous.Some? && a.previous != a.team {
        assert Assignment(a.input, None, a.previous) in clears;
      }
    } else {
      NotAssigned(items, i, row.team);
    }
  }

  /** Every prefix of the ordered writes keeps the teams unique when the final table is unique. */
  lemma EveryPrefixUnique(inputs: Inputs, tournament: Id, items: seq<Assignment>, k: nat)
    requires DistinctInputs(items) && PreviousAccurate(inputs, tournament, items)
    requires UniqueTeams(inputs) && UniqueTeams(Simultaneous(inputs, tournament, items))
    requires k <= |OrderedWrites(items)|
    ensures UniqueTeams(WriteAll(inputs, tournament, OrderedWrites(items)[..k]))
  {
    var clears, ws := Clears(items), OrderedWrites(items);
    if k <= |clears| {
      ClearingOnlyLoses(inputs, tournament, items, k);
      BelowIsUnique(WriteAll(inputs, tournament, ws[..k]), inputs);
    } else {
      assert ws[..k] == clears + items[..k - |clears|];
      WritingOnlyFinal(inputs, tournament, items, k - |clears|);
      BelowIsUnique(WriteAll(inputs, tournament, ws[..k]), Simultaneous(inputs, tournament, items));
    }
  }

  // ---------------------------------------------------------------- the batch, write by write

  lemma WriteOneMore(inputs: Inputs, tournament: Id, ws: seq<Assignment>, k: nat)
    requires k < |ws|
    ensures var now := WriteAll(inputs, tournament, ws[..k]);
            && WriteAll(inputs, tournament, ws[..k + 1]) == Write(now, tournament, ws[k].input, ws[k].team)
            && (Targets(now, tournament, ws[k].input) <==> Targets(inputs, tournament, ws[k].input))
  {
    assert ws[..k + 1][..k] == ws[..k];
    WriteAllRows(inputs, tournament, ws[..k]);
  }

  /** The first k writes name existing teams wherever they hit a row. */
  ghost predicate TeamsNamed(inputs: Inputs, teams: set<Id>, tournament: Id, ws: seq<Assignment>, k: int) {
    forall x | 0 <= x < k && x < |ws| && Targets(inputs, tournament, ws[x].input) :: Refers(ws[x].team, teams)
  }

  /** The writes get through exactly when every prefix keeps the teams unique and every write that hits a row
      names an existing team. */
  lemma {:induction false} TryWritesForm(inputs: Inputs, teams: set<Id>, tournament: Id, ws: seq<Assignment>)
    ensures TryWrites(inputs, teams, tournament, ws).Ok? <==>
              && TeamsNamed(inputs, teams, tournament, ws, |ws|)
              && forall k | 0 < k <= |ws| :: UniqueTeams(WriteAll(inputs, tournament, ws[..k]))
    ensures TryWrites(inputs, teams, tournament, ws).Ok? ==>
              TryWrites(inputs, teams, tournament, ws) == Ok(WriteAll(inputs, tournament, ws))
  {
    hide WriteAll, UniqueTeams, Write, TeamsNamed;
    if ws == [] {
      NothingWritten(inputs, teams, tournament);
    } else {
      var n := |ws| - 1;
      TryWritesForm(inputs, teams, tournament, ws[..n]);
      WriteOneMore(inputs, tournament, ws, n);
      NamedOneMore(inputs, teams, tournament, ws);
      assert ws[..n + 1] == ws;
      assert forall k | 0 < k <= n :: ws[..n][..k] == ws[..k];
    }
  }

  lemma NothingWritten(inputs: Inputs, teams: set<Id>, tournament: Id)
    ensures WriteAll(inputs, tournament, []) == inputs && TeamsNamed(inputs, teams, tournament, [], 0)
  {
  }

  lemma NamedOneMore(inputs: Inputs, teams: set<Id>, tournament: Id, ws: seq<Assignment>)
    requires ws != []
    ensures var n := |ws| - 1;
            TeamsNamed(inputs, teams, tournament, ws, n + 1) <==>
              && TeamsNamed(inputs, teams, tournament, ws[..n], n)
              && (Targets(inputs, tournament, ws[n].input) ==> Refers(ws[n].team, teams))
  {
    var n := |ws| - 1;
    assert forall x | 0 <= x < n :: ws[..n][x] == ws[x];
  }

  /** The ordered writes of a batch get through exactly when the simultaneous assignment is itself unique and names
      existing teams; then the table is that assignment. */
  lemma AssignmentsOutcome(inputs: Inputs, teams: set<Id>, tournament: Id, items: seq<Assignment>)
    requires UniqueTeams(inputs) && DistinctInputs(items) && PreviousAccurate(inputs, tournament, items)
    ensures var r := TryWrites(inputs, teams, tournament, OrderedWrites(items));
            && (r.Ok? <==>
                  UniqueTeams(Simultaneous(inputs, tournament, items)) && TeamsExist(inputs, teams, tournament, items))
            && (r.Ok? ==> r.value == Simultaneous(inputs, tournament, items))
            && (r.Err? ==> r.error == ForeignKeyViolation || r.error == UniqueViolation)
  {
    hide UniqueTeams, OrderedWrites, Simultaneous, WriteAll, TryWrites, DistinctInputs, PreviousAccurate, TeamsExist,
      TeamsNamed;
    var ws := OrderedWrites(items);
    TryWritesForm(inputs, teams, tournament, ws);
    TryWritesErrors(inputs, teams, tournament, ws);
    AllWritten(inputs, tournament, items);
    assert ws[..|ws|] == ws;
    if UniqueTeams(Simultaneous(inputs, tournament, items)) && TeamsExist(inputs, teams, tournament, items) {
      WritesNamed(inputs, teams, tournament, items);
      forall k | 0 < k <= |ws| ensures UniqueTeams(WriteAll(inputs, tournament, ws[..k])) {
        EveryPrefixUnique(inputs, tournament, items, k);
      }
    }
    if TeamsNamed(inputs, teams, tournament, ws, |ws|) { TeamsOfItemsExist(inputs, teams, tournament, items); }
    if ws == [] { NothingWritten(inputs, teams, tournament); }
  }

  lemma {:induction false} TryWritesErrors(inputs: Inputs, teams: set<Id>, tournament: Id, ws: seq<Assignment>)
    ensures var r := TryWrites(inputs, teams, tournament, ws);
            r.Err? ==> r.error == ForeignKeyViolation || r.error == UniqueViolation
  {
    hide Write;
    if ws != [] { TryWritesErrors(inputs, teams, tournament, ws[..|ws| - 1]); }
  }

  lemma WritesNamed(inputs: Inputs, teams: set<Id>, tournament: Id, items: seq<Assignment>)
    requires TeamsExist(inputs, teams, tournament, items)
    ensures TeamsNamed(inputs, teams, tournament, OrderedWrites(items), |OrderedWrites(items)|)
  {
    hide OrderedWrites;
    forall k | 0 <= k < |OrderedWrites(items)| && Targets(inputs, tournament, OrderedWrites(items)[k].input)
      ensures Refers(OrderedWrites(items)[k].team, teams)
    {
      WriteIsItem(items, k);
    }
  }

  lemma TeamsOfItemsExist(inputs: Inputs, teams: set<Id>, tournament: Id, items: seq<Assignment>)
    requires TeamsNamed(inputs, teams, tournament, OrderedWrites(items), |OrderedWrites(items)|)
    ensures TeamsExist(inputs, teams, tournament, items)
  {
    hide OrderedWrites;
    ItemsAreWrites(items);
  }

  /** The loop over the ordered writes. */
  method WriteAssignments(db: Database, tournament: Id, items: seq<Assignment>) returns (error: Option<Error>)
    modifies db`inputs
    ensures match TryWrites(old(db.inputs), db.teams.Keys, tournament, OrderedWrites(items))
            case Ok(inputs) => error == None && db.inputs == inputs
            case Err(e) => error == Some(e)
  {
    hide TryWrite;
    ghost var before := db.inputs;
    var ws := OrderedWrites(items);
    for k := 0 to |ws|
      invariant TryWrites(before, db.teams.Keys, tournament, ws[..k]) == Ok(db.inputs)
    {
      assert ws[..k + 1][..k] == ws[..k];
      error := SqlSetTeamIdForStageItemInput(db, tournament, ws[k]);
      if error.Some? {
        WriteErrorStays(before, db.teams.Keys, tournament, ws, k + 1);
        return;
      }
    }
    assert ws[..|ws|] == ws;
    return None;
  }

  lemma {:induction false} WriteErrorStays(inputs: Inputs, teams: set<Id>, tournament: Id, ws: seq<Assignment>, k: nat)
    requires k <= |ws| && TryWrites(inputs, teams, tournament, ws[..k]).Err?
    ensures TryWrites(inputs, teams, tournament, ws) == TryWrites(inputs, teams, tournament, ws[..k])
  {
    hide TryWrite;
    if k == |ws| {
      assert ws[..k] == ws;
    } else {
      var n := |ws| - 1;
      assert ws[..n][..k] == ws[..k];
      WriteErrorStays(inputs, teams, tournament, ws[..n], k);
    }
  }

  lemma WriteIsItem(items: seq<Assignment>, k: nat)
    requires k < |OrderedWrites(items)|
    ensures OrderedWrites(items)[k].team == None || OrderedWrites(items)[k] in items
  {
    ClearsAre(items);
    assert k < |Clears(items)| ==> Clears(items)[k] in Clears(items);
  }

  lemma ItemsAreWrites(items: seq<Assignment>)
    ensures forall a | a in items :: exists x :: 0 <= x < |OrderedWrites(items)| && OrderedWrites(items)[x] == a
  {
    var ws, c := OrderedWrites(items), |Clears(items)|;
    forall a | a in items ensures exists x :: 0 <= x < |ws| && ws[x] == a {
      var x :| 0 <= x < |items| && items[x] == a;
      assert ws[c + x] == a;
    }
  }

  lemma AllWritten(inputs: Inputs, tournament: Id, items: seq<Assignment>)
    requires DistinctInputs(items) && PreviousAccurate(inputs, tournament, items)
    ensures WriteAll(inputs, tournament, OrderedWrites(items)) == Simultaneous(inputs, tournament, items)
  {
    assert items[..|items|] == items;
    WritingOnlyFinal(inputs, tournament, items, |items|);
  }

  // ---------------------------------------------------------------- why the order matters

  const SWAP := map[1 := Input(7, 5, 1, Some(10), None, None, NO_STATS),
                    2 := Input(7, 5, 2, Some(20), None, None, NO_STATS)]

  /** Two inputs of one stage item trade teams. The final table is unique, but without the clears, or
      with a stale `previous` that suppresses them, the first write already collides. */
  lemma SwapWithoutClearsCollides()
    ensures var accurate := [Assignment(1, Some(20), Some(10)), Assignment(2, Some(10), Some(20))];
            var stale := [Assignment(1, Some(20), None), Assignment(2, Some(10), None)];
            && UniqueTeams(SWAP) && UniqueTeams(Simultaneous(SWAP, 7, accurate))
            && PreviousAccurate(SWAP, 7, accurate) && !PreviousAccurate(SWAP, 7, stale)
            && Simultaneous(SWAP, 7, stale) == Simultaneous(SWAP, 7, accurate)
            && !UniqueTeams(Write(SWAP, 7, 1, Some(20)))
            && OrderedWrites(stale)[0] == stale[0]
  {
    var stale := [Assignment(1, Some(20), None), Assignment(2, Some(10), None)];
    assert Clears(stale[1..]) == [] by { assert stale[1..] == [Assignment(2, Some(10), None)]; }
    assert Clears(stale) == [];
    var collided := Write(SWAP, 7, 1, Some(20));
    assert collided[1].team == collided[2].team && collided[1].stageItem == collided[2].stageItem;
  }

  // ---------------------------------------------------------------- the whole plan

  function Assignments(plan: seq<PlanItem>): (items: seq<Assignment>)
    ensures forall a :: a in items <==> AssignTeam(a) in plan
  {
    if plan == [] then [] else
      var rest := Assignments(plan[1..]);
      assert plan == [plan[0]] + plan[1..];
      if plan[0].AssignTeam? then [plan[0].assignment] + rest else rest
  }

  function OtherItems(plan: seq<PlanItem>): (items: seq<PlanItem>)
    ensures forall p :: p in items <==> p in plan && !p.AssignTeam?
  {
    if plan == [] then [] else
      var rest := OtherItems(plan[1..]);
      assert plan == [plan[0]] + plan[1..];
      if plan[0].AssignTeam? then rest else [plan[0]] + rest
  }

  predicate RoundInTournament(t: Tables, tournament: Id, r: Id) {
    && r in t.rounds && t.rounds[r].stageItem in t.stageItems
    && t.stageItems[t.rounds[r].stageItem].stage in t.stages
    && t.stages[t.stageItems[t.rounds[r].stageItem].stage].tournament == tournament
  }

  function OtherWrite(t: Tables, tournament: Id, item: PlanItem): Result<Tables>
    requires !item.AssignTeam?
  {
    match item
    case SetTeamStats(i, stats) =>
      if Targets(t.inputs, tournament, i)
      then Ok(t.(inputs := t.inputs[i := t.inputs[i].(stats := stats)])) else Ok(t)
    case SetMatchInputs(r, m, input1, input2) =>
      if m !in t.matches || t.matches[m].round != r then Ok(t)
      else if !Refers(input1, t.inputs.Keys) || !Refers(input2, t.inputs.Keys) then Err(ForeignKeyViolation)
      else Ok(t.(matches := t.matches[m := t.matches[m].(input1 := input1, input2 := input2)]))
    case SetMatchReferee(m, referee) =>
      if m !in t.matches then Ok(t)
      else if referee !in t.inputs then Err(ForeignKeyViolation)
      else Ok(t.(matches := t.matches[m := t.matches[m].(referee := Some(referee), refereeName := None)]))
    case SetLifecycle(r, state) =>
      if RoundInTournament(t, tournament, r)
      then Ok(t.(rounds := t.rounds[r := t.rounds[r].(lifecycle := state)])) else Ok(t)
  }

  function OtherWrites(t: Tables, tournament: Id, items: seq<PlanItem>): Result<Tables>
    requires forall p | p in items :: !p.AssignTeam?
  {
    if items == [] then Ok(t) else
      var init := OtherWrites(t, tournament, items[..|items| - 1]);
      if init.Err? then init else OtherWrite(init.value, tournament, items[|items| - 1])
  }

  method WriteOther(db: Database, tournament: Id, item: PlanItem) returns (error: Option<Error>)
    requires !item.AssignTeam?
    modifies db`inputs, db`matches, db`rounds
    ensures Tried(OtherWrite(old(db.Snapshot()), tournament, item), db.Snapshot(), error)
  {
    error := None;
    match item {
      case SetTeamStats(i, stats) =>
        if Targets(db.inputs, tournament, i) {
          db.inputs := db.inputs[i := db.inputs[i].(stats := stats)];
        }
      case SetMatchInputs(r, m, input1, input2) =>
        if m in db.matches && db.matches[m].round == r {
          if !Refers(input1, db.inputs.Keys) || !Refers(input2, db.inputs.Keys) {
            return Some(ForeignKeyViolation);
          }
          db.matches := db.matches[m := db.matches[m].(input1 := input1, input2 := input2)];
        }
      case SetMatchReferee(m, referee) =>
        if m in db.matches {
          if referee !in db.inputs { return Some(ForeignKeyViolation); }
          db.matches := db.matches[m := db.matches[m].(referee := Some(referee), refereeName := None)];
        }
      case SetLifecycle(r, state) =>
        if RoundInTournament(db.Snapshot(), tournament, r) {
          db.rounds := db.rounds[r := db.rounds[r].(lifecycle := state)];
        }
    }
  }

  /** Same tables up to inputs' statistics, matches and rounds. */
  ghost predicate TeamsKept(t: Tables, t1: Tables) {
    && t1 == t.(inputs := t1.inputs, matches := t1.matches, rounds := t1.rounds)
    && t1.inputs.Keys == t.inputs.Keys
    && forall i | i in t.inputs :: t1.inputs[i] == t.inputs[i].(stats := t1.inputs[i].stats)
  }

  lemma SameInputsKept(t: Tables, t1: Tables)
    requires t1 == t.(matches := t1.matches, rounds := t1.rounds)
    ensures TeamsKept(t, t1)
  {
  }

  lemma StatsKept(t: Tables, i: Id, stats: TeamStats)
    requires i in t.inputs
    ensures TeamsKept(t, t.(inputs := t.inputs[i := t.inputs[i].(stats := stats)]))
  {
  }

  lemma OtherWriteKeepsTeams(t: Tables, tournament: Id, item: PlanItem)
    requires !item.AssignTeam? && OtherWrite(t, tournament, item).Ok?
    ensures TeamsKept(t, OtherWrite(t, tournament, item).value)
  {
    hide TeamsKept, RoundInTournament;
    if item.SetTeamStats? && Targets(t.inputs, tournament, item.input) {
      StatsKept(t, item.input, item.stats);
    } else {
      SameInputsKept(t, OtherWrite(t, tournament, item).value);
    }
  }

  /** No other write touches what the uniqueness of teams depends on. */
  lemma {:induction false} OtherWritesKeepTeams(t: Tables, tournament: Id, items: seq<PlanItem>)
    requires forall p | p in items :: !p.AssignTeam?
    ensures OtherWrites(t, tournament, items).Ok? ==> TeamsKept(t, OtherWrites(t, tournament, items).value)
  {
    hide OtherWrite;
    if items != [] {
      var init := items[..|items| - 1];
      OtherWritesKeepTeams(t, tournament, init);
      if OtherWrites(t, tournament, items).Ok? {
        OtherWriteKeepsTeams(OtherWrites(t, tournament, init).value, tournament, items[|items| - 1]);
      }
    }
  }

  lemma {:induction false} FailedPrefix(t: Tables, tournament: Id, items: seq<PlanItem>, k: nat)
    requires forall p | p in items :: !p.AssignTeam?
    requires k <= |items| && OtherWrites(t, tournament, items[..k]).Err?
    ensures OtherWrites(t, tournament, items) == OtherWrites(t, tournament, items[..k])
  {
    hide OtherWrite;
    if k < |items| {
      var n := |items| - 1;
      assert items[..n][..k] == items[..k];
      FailedPrefix(t, tournament, items[..n], k);
    } else {
      assert items[..k] == items;
    }
  }

  lemma SameTeamsSameRules(x: Inputs, y: Inputs, tournament: Id, items: seq<Assignment>)
    requires x.Keys == y.Keys && forall i | i in x :: y[i] == x[i].(stats := y[i].stats)
    ensures UniqueTeams(x) ==> UniqueTeams(y)
    ensures PreviousAccurate(x, tournament, items) ==> PreviousAccurate(y, tournament, items)
  {
    assert forall i | i in x ::
        y[i].team == x[i].team && y[i].stageItem == x[i].stageItem && y[i].tournament == x[i].tournament;
  }

  /** The whole plan: the other writes in their order, then the assignments in theirs. */
  function Applied(t: Tables, tournament: Id, plan: seq<PlanItem>): Result<Tables> {
    match OtherWrites(t, tournament, OtherItems(plan))
    case Err(e) => Err(e)
    case Ok(s) =>
      match TryWrites(s.inputs, s.teams.Keys, tournament, OrderedWrites(Assignments(plan)))
      case Err(e) => Err(e)
      case Ok(inputs) => Ok(s.(inputs := inputs))
  }

  /** The loop over the other plan items. */
  method WriteOthers(db: Database, tournament: Id, items: seq<PlanItem>) returns (error: Option<Error>)
    requires forall p | p in items :: !p.AssignTeam?
    modifies db`inputs, db`matches, db`rounds
    ensures Tried(OtherWrites(old(db.Snapshot()), tournament, items), db.Snapshot(), error)
  {
    hide OtherWrite, OtherWrites;
    ghost var before := db.Snapshot();
    NoWrites(before, tournament, items);
    for k := 0 to |items|
      invariant OtherWrites(before, tournament, items[..k]) == Ok(db.Snapshot())
    {
      OtherOneMore(before, tournament, items, k);
      error := WriteOther(db, tournament, items[k]);
      if error.Some? {
        FailedPrefix(before, tournament, items, k + 1);
        return;
      }
    }
    assert items[..|items|] == items;
    return None;
  }

  lemma NoWrites(t: Tables, tournament: Id, items: seq<PlanItem>)
    requires forall p | p in items :: !p.AssignTeam?
    ensures OtherWrites(t, tournament, items[..0]) == Ok(t)
  {
  }

  lemma OtherOneMore(t: Tables, tournament: Id, items: seq<PlanItem>, k: nat)
    requires k < |items| && forall p | p in items :: !p.AssignTeam?
    ensures OtherWrites(t, tournament, items[..k]).Ok? ==>
              OtherWrites(t, tournament, items[..k + 1])
              == OtherWrite(OtherWrites(t, tournament, items[..k]).value, tournament, items[k])
  {
    assert items[..k + 1][..k] == items[..k];
  }

  /** One transaction. */
  method Apply(db: Database, tournament: Id, plan: seq<PlanItem>) returns (error: Option<Error>)
    modifies db
    ensures Ended(Applied(old(db.Snapshot()), tournament, plan), old(db.Snapshot()), db.Snapshot(), error)
  {
    hide OtherWrites, OtherWrite, TryWrites, OrderedWrites, Assignments, OtherItems;
    var saved := db.Snapshot();
    error := WriteOthers(db, tournament, OtherItems(plan));
    if error.Some? {
      db.Restore(saved);
      return;
    }
    error := WriteAssignments(db, tournament, Assignments(plan));
    if error.Some? {
      db.Restore(saved);
    }
  }
}
