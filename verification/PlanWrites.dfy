/** What an applied plan leaves in every row, said of the plan itself: of several items that write the same columns the
    last one counts, whatever stands between them, and nothing else changes. */
module PlanWrites {
  import opened Schema
  import opened ApplyPlan

  /** The columns an item writes together. */
  datatype Cell =
    | InputsOf(match_: Id, round: Id)
    | RefereeOf(match_: Id)
    | StatsOf(input: Id)
    | TeamOf(input: Id)
    | LifecycleOf(round: Id)

  /** The item names these columns; inputs are written only to a match in the round the item names. */
  predicate Concerns(p: PlanItem, c: Cell) {
    match p
    case SetTeamStats(x, _) => c == StatsOf(x)
    case SetMatchInputs(r, m, _, _) => c == InputsOf(m, r)
    case SetMatchReferee(m, _) => c == RefereeOf(m)
    case SetLifecycle(r, _) => c == LifecycleOf(r)
    case AssignTeam(a) => c == TeamOf(a.input)
  }

  function LastOn(plan: seq<PlanItem>, c: Cell): (p: Option<PlanItem>)
    ensures p.None? <==> forall q | q in plan :: !Concerns(q, c)
    ensures p.Some? ==> exists k | 0 <= k < |plan| ::
              plan[k] == p.value && Concerns(plan[k], c) && forall j | k < j < |plan| :: !Concerns(plan[j], c)
  {
    if plan == [] then None else
      var n := |plan| - 1;
      assert plan == plan[..n] + [plan[n]];
      if Concerns(plan[n], c) then Some(plan[n]) else
        var p := LastOn(plan[..n], c);
        assert p.Some? ==> exists k | 0 <= k < n ::
          plan[..n][k] == p.value && Concerns(plan[k], c) && forall j | k < j < n :: !Concerns(plan[..n][j], c);
        p
  }

  // ---------------------------------------------------------------- the rows afterwards

  function MatchAfter(plan: seq<PlanItem>, m: Id, row: Match): (after: Match)
    ensures after.round == row.round
  {
    var inputs, referee := LastOn(plan, InputsOf(m, row.round)), LastOn(plan, RefereeOf(m));
    row.(input1 := if inputs.Some? then inputs.value.input1 else row.input1,
         input2 := if inputs.Some? then inputs.value.input2 else row.input2,
         referee := if referee.Some? then Some(referee.value.referee) else row.referee,
         refereeName := if referee.Some? then None else row.refereeName)
  }

  /** Only inputs of the tournament are written. */
  function InputAfter(plan: seq<PlanItem>, tournament: Id, x: Id, row: Input): (after: Input)
    ensures after.tournament == row.tournament
  {
    var stats, team := LastOn(plan, StatsOf(x)), LastOn(plan, TeamOf(x));
    if row.tournament != tournament then row else
      row.(stats := if stats.Some? then stats.value.stats else row.stats,
           team := if team.Some? then team.value.assignment.team else row.team)
  }

  /** Only rounds of the tournament are written. */
  function RoundAfter(t: Tables, plan: seq<PlanItem>, tournament: Id, r: Id): (after: Round)
    requires r in t.rounds
    ensures after.stageItem == t.rounds[r].stageItem
  {
    var state := LastOn(plan, LifecycleOf(r));
    if state.None? || !RoundInTournament(t, tournament, r) then t.rounds[r]
    else t.rounds[r].(lifecycle := state.value.state)
  }

  ghost predicate Written(t: Tables, t': Tables, tournament: Id, plan: seq<PlanItem>) {
    && t' == t.(inputs := t'.inputs, matches := t'.matches, rounds := t'.rounds)
    && t'.inputs.Keys == t.inputs.Keys && t'.matches.Keys == t.matches.Keys && t'.rounds.Keys == t.rounds.Keys
    && (forall m | m in t.matches :: t'.matches[m] == MatchAfter(plan, m, t.matches[m]))
    && (forall x | x in t.inputs :: t'.inputs[x] == InputAfter(plan, tournament, x, t.inputs[x]))
    && (forall r | r in t.rounds :: t'.rounds[r] == RoundAfter(t, plan, tournament, r))
  }

  // ---------------------------------------------------------------- one more write

  /** The rows an item other than a team assignment looks up exist. */
  predicate LooksUp(t: Tables, p: PlanItem) {
    match p
    case SetMatchInputs(r, m, input1, input2) =>
      m in t.matches && t.matches[m].round == r ==> Refers(input1, t.inputs.Keys) && Refers(input2, t.inputs.Keys)
    case SetMatchReferee(m, referee) => m in t.matches ==> referee in t.inputs
    case _ => true
  }

  lemma NothingWrittenYet(t: Tables, tournament: Id)
    ensures Written(t, t, tournament, [])
  {
  }

  lemma LastMore(plan: seq<PlanItem>, p: PlanItem, c: Cell)
    ensures LastOn(plan + [p], c) == if Concerns(p, c) then Some(p) else LastOn(plan, c)
  {
    assert (plan + [p])[..|plan|] == plan;
  }

  lemma MatchOneMore(plan: seq<PlanItem>, p: PlanItem, m: Id, row: Match)
    ensures MatchAfter(plan + [p], m, row) ==
              var was := MatchAfter(plan, m, row);
              if p.SetMatchInputs? && p.match_ == m && p.round == row.round
              then was.(input1 := p.input1, input2 := p.input2)
              else if p.SetMatchReferee? && p.match_ == m
              then was.(referee := Some(p.referee), refereeName := None)
              else was
  {
    LastMore(plan, p, InputsOf(m, row.round));
    LastMore(plan, p, RefereeOf(m));
    hide LastOn;
  }

  lemma InputOneMore(plan: seq<PlanItem>, p: PlanItem, tournament: Id, x: Id, row: Input)
    ensures InputAfter(plan + [p], tournament, x, row) ==
              var was := InputAfter(plan, tournament, x, row);
              if row.tournament != tournament then row
              else if p.SetTeamStats? && p.input == x then was.(stats := p.stats)
              else if p.AssignTeam? && p.assignment.input == x then was.(team := p.assignment.team)
              else was
  {
    LastMore(plan, p, StatsOf(x));
    LastMore(plan, p, TeamOf(x));
    hide LastOn;
  }

  lemma RoundOneMore(t: Tables, plan: seq<PlanItem>, p: PlanItem, tournament: Id, r: Id)
    requires r in t.rounds
    ensures RoundAfter(t, plan + [p], tournament, r) ==
              if p.SetLifecycle? && p.round == r && RoundInTournament(t, tournament, r)
              then t.rounds[r].(lifecycle := p.state) else RoundAfter(t, plan, tournament, r)
  {
    LastMore(plan, p, LifecycleOf(r));
    hide LastOn;
  }

  /** What one statement does to each table. */
  function MatchesWritten(matches: map<Id, Match>, p: PlanItem): (after: map<Id, Match>)
    ensures after.Keys == matches.Keys
    ensures forall m | m in matches ::
              after[m] == if p.SetMatchInputs? && p.match_ == m && p.round == matches[m].round
                          then matches[m].(input1 := p.input1, input2 := p.input2)
                          else if p.SetMatchReferee? && p.match_ == m
                          then matches[m].(referee := Some(p.referee), refereeName := None)
                          else matches[m]
  {
    match p
    case SetMatchInputs(r, m, input1, input2) =>
      if m !in matches || matches[m].round != r then matches
      else matches[m := matches[m].(input1 := input1, input2 := input2)]
    case SetMatchReferee(m, referee) =>
      if m !in matches then matches else matches[m := matches[m].(referee := Some(referee), refereeName := None)]
    case _ => matches
  }

  function InputsWritten(inputs: map<Id, Input>, tournament: Id, p: PlanItem): (after: map<Id, Input>)
    ensures after.Keys == inputs.Keys
    ensures forall x | x in inputs ::
              after[x] == if p.SetTeamStats? && p.input == x && inputs[x].tournament == tournament
                          then inputs[x].(stats := p.stats) else inputs[x]
  {
    if p.SetTeamStats? && Targets(inputs, tournament, p.input)
    then inputs[p.input := inputs[p.input].(stats := p.stats)] else inputs
  }

  function RoundsWritten(s: Tables, tournament: Id, p: PlanItem): (after: map<Id, Round>)
    ensures after.Keys == s.rounds.Keys
    ensures forall r | r in s.rounds ::
              after[r] == if p.SetLifecycle? && p.round == r && RoundInTournament(s, tournament, r)
                          then s.rounds[r].(lifecycle := p.state) else s.rounds[r]
  {
    if p.SetLifecycle? && RoundInTournament(s, tournament, p.round)
    then s.rounds[p.round := s.rounds[p.round].(lifecycle := p.state)] else s.rounds
  }

  lemma WritesTables(s: Tables, tournament: Id, p: PlanItem)
    requires !p.AssignTeam? && OtherWrite(s, tournament, p).Ok?
    ensures OtherWrite(s, tournament, p).value
         == s.(inputs := InputsWritten(s.inputs, tournament, p), matches := MatchesWritten(s.matches, p),
               rounds := RoundsWritten(s, tournament, p))
  {
    match p
    case SetTeamStats(_, _) =>
    case SetMatchInputs(_, _, _, _) =>
    case SetMatchReferee(_, _) =>
    case SetLifecycle(_, _) =>
  }

  lemma MatchesOneMore(t: Tables, s: Tables, tournament: Id, plan: seq<PlanItem>, p: PlanItem, m: Id)
    requires Written(t, s, tournament, plan) && !p.AssignTeam? && OtherWrite(s, tournament, p).Ok? && m in t.matches
    ensures m in OtherWrite(s, tournament, p).value.matches
    ensures OtherWrite(s, tournament, p).value.matches[m] == MatchAfter(plan + [p], m, t.matches[m])
  {
    hide OtherWrite, MatchesWritten, InputsWritten, RoundsWritten, RoundInTournament, MatchAfter, InputAfter,
      RoundAfter;
    MatchOneMore(plan, p, m, t.matches[m]);
    WritesTables(s, tournament, p);
  }

  lemma InputsOneMore(t: Tables, s: Tables, tournament: Id, plan: seq<PlanItem>, p: PlanItem, x: Id)
    requires Written(t, s, tournament, plan) && !p.AssignTeam? && OtherWrite(s, tournament, p).Ok? && x in t.inputs
    ensures x in OtherWrite(s, tournament, p).value.inputs
    ensures OtherWrite(s, tournament, p).value.inputs[x] == InputAfter(plan + [p], tournament, x, t.inputs[x])
  {
    hide OtherWrite, MatchesWritten, InputsWritten, RoundsWritten, RoundInTournament, MatchAfter, InputAfter,
      RoundAfter;
    InputOneMore(plan, p, tournament, x, t.inputs[x]);
    WritesTables(s, tournament, p);
    ForeignInput(plan, tournament, x, t.inputs[x]);
  }

  lemma ForeignInput(plan: seq<PlanItem>, tournament: Id, x: Id, row: Input)
    ensures row.tournament != tournament ==> InputAfter(plan, tournament, x, row) == row
  {
    hide LastOn;
  }

  lemma RoundsOneMore(t: Tables, s: Tables, tournament: Id, plan: seq<PlanItem>, p: PlanItem, r: Id)
    requires Written(t, s, tournament, plan) && !p.AssignTeam? && OtherWrite(s, tournament, p).Ok? && r in t.rounds
    ensures r in OtherWrite(s, tournament, p).value.rounds
    ensures OtherWrite(s, tournament, p).value.rounds[r] == RoundAfter(t, plan + [p], tournament, r)
  {
    hide OtherWrite, MatchesWritten, InputsWritten, RoundsWritten, RoundInTournament, MatchAfter, InputAfter,
      RoundAfter;
    SameHome(t, s, tournament, plan, r);
    RoundOneMore(t, plan, p, tournament, r);
    WritesTables(s, tournament, p);
  }

  lemma SameHome(t: Tables, s: Tables, tournament: Id, plan: seq<PlanItem>, r: Id)
    requires Written(t, s, tournament, plan)
    ensures RoundInTournament(s, tournament, r) <==> RoundInTournament(t, tournament, r)
    ensures RoundInTournament(t, tournament, r) ==> s.rounds[r].stageItem == t.rounds[r].stageItem
  {
    hide MatchAfter, InputAfter, LastOn;
  }

  lemma WriteOneMore(t: Tables, s: Tables, tournament: Id, plan: seq<PlanItem>, p: PlanItem)
    requires Written(t, s, tournament, plan) && !p.AssignTeam?
    ensures OtherWrite(s, tournament, p).Ok? <==> LooksUp(t, p)
    ensures OtherWrite(s, tournament, p).Err? ==> OtherWrite(s, tournament, p).error == ForeignKeyViolation
    ensures OtherWrite(s, tournament, p).Ok? ==>
              Written(t, OtherWrite(s, tournament, p).value, tournament, plan + [p])
  {
    WriteRefused(t, s, tournament, plan, p);
    hide OtherWrite, MatchesWritten, InputsWritten, RoundsWritten, LooksUp, RoundInTournament, MatchAfter, InputAfter,
      RoundAfter;
    if OtherWrite(s, tournament, p).Ok? {
      WritesTables(s, tournament, p);
      forall m | m in t.matches { MatchesOneMore(t, s, tournament, plan, p, m); }
      forall x | x in t.inputs { InputsOneMore(t, s, tournament, plan, p, x); }
      forall r | r in t.rounds { RoundsOneMore(t, s, tournament, plan, p, r); }
    }
  }

  lemma WriteRefused(t: Tables, s: Tables, tournament: Id, plan: seq<PlanItem>, p: PlanItem)
    requires Written(t, s, tournament, plan) && !p.AssignTeam?
    ensures OtherWrite(s, tournament, p).Ok? <==> LooksUp(t, p)
    ensures OtherWrite(s, tournament, p).Err? ==> OtherWrite(s, tournament, p).error == ForeignKeyViolation
  {
    hide RoundInTournament, MatchAfter, InputAfter, RoundAfter;
  }

  // ---------------------------------------------------------------- the writes of a plan

  /** All writes but the team assignments get through exactly when the rows they look up exist; then they are
      written. */
  lemma {:induction false} OthersWritten(t: Tables, tournament: Id, items: seq<PlanItem>)
    requires forall p | p in items :: !p.AssignTeam?
    ensures var r := OtherWrites(t, tournament, items);
            && (r.Ok? <==> forall p | p in items :: LooksUp(t, p))
            && (r.Err? ==> r.error == ForeignKeyViolation)
            && (r.Ok? ==> Written(t, r.value, tournament, items))
  {
    hide OtherWrite, LooksUp, Written;
    if items == [] {
      NothingWrittenYet(t, tournament);
    } else {
      var n := |items| - 1;
      assert items == items[..n] + [items[n]];
      OthersWritten(t, tournament, items[..n]);
      if OtherWrites(t, tournament, items[..n]).Ok? {
        WriteOneMore(t, OtherWrites(t, tournament, items[..n]).value, tournament, items[..n], items[n]);
      }
    }
  }

  /** The other items of a plan, seen from its end. */
  lemma {:induction false} OthersOneMore(plan: seq<PlanItem>, p: PlanItem)
    ensures OtherItems(plan + [p]) == OtherItems(plan) + if p.AssignTeam? then [] else [p]
    ensures Assignments(plan + [p]) == Assignments(plan) + if p.AssignTeam? then [p.assignment] else []
  {
    if plan != [] {
      assert (plan + [p])[1..] == plan[1..] + [p];
      OthersOneMore(plan[1..], p);
    }
  }

  lemma {:induction false} LastOfOthers(plan: seq<PlanItem>, c: Cell)
    requires !c.TeamOf?
    ensures LastOn(OtherItems(plan), c) == LastOn(plan, c)
  {
    if plan != [] {
      var n := |plan| - 1;
      assert plan == plan[..n] + [plan[n]];
      OthersOneMore(plan[..n], plan[n]);
      LastOfOthers(plan[..n], c);
      LastMore(plan[..n], plan[n], c);
      hide LastOn, OtherItems;
      if plan[n].AssignTeam? {
        assert OtherItems(plan) == OtherItems(plan[..n]);
      } else {
        LastMore(OtherItems(plan[..n]), plan[n], c);
      }
    }
  }

  /** The team written last in the ordered batch is the one assigned last: clears come first. */
  lemma {:induction false} LastOfAssignments(plan: seq<PlanItem>, clears: seq<Assignment>, tournament: Id, x: Id,
    row: Input)
    requires row.tournament == tournament
    ensures TeamAfter(row, tournament, clears + Assignments(plan), x) ==
              var last := LastOn(plan, TeamOf(x));
              if last.Some? then last.value.assignment.team else TeamAfter(row, tournament, clears, x)
  {
    if plan == [] {
      assert clears + Assignments(plan) == clears;
    } else {
      hide LastOn, Assignments, TeamAfter;
      var n := |plan| - 1;
      var p, before := plan[n], clears + Assignments(plan[..n]);
      assert plan == plan[..n] + [p];
      OthersOneMore(plan[..n], p);
      LastOfAssignments(plan[..n], clears, tournament, x, row);
      LastMore(plan[..n], p, TeamOf(x));
      if p.AssignTeam? {
        assert clears + Assignments(plan) == before + [p.assignment];
        TeamAfterMore(row, tournament, before, p.assignment, x);
      } else {
        assert clears + Assignments(plan) == before;
      }
    }
  }

  lemma TeamAfterMore(row: Input, tournament: Id, ws: seq<Assignment>, w: Assignment, x: Id)
    ensures TeamAfter(row, tournament, ws + [w], x) ==
              if w.input == x && row.tournament == tournament then w.team else TeamAfter(row, tournament, ws, x)
  {
    assert (ws + [w])[..|ws|] == ws;
  }

  lemma NoClearsElsewhere(plan: seq<PlanItem>, tournament: Id, x: Id, row: Input)
    ensures LastOn(plan, TeamOf(x)).None? ==> TeamAfter(row, tournament, Clears(Assignments(plan)), x) == row.team
  {
    hide TeamAfter, Clears, LastOn, Assignments;
    ClearsAre(Assignments(plan));
    TeamAfterClears(row, tournament, Clears(Assignments(plan)), x);
    if LastOn(plan, TeamOf(x)).None? {
      forall c | c in Clears(Assignments(plan)) ensures c.input != x { ClearIsAssigned(plan, c, x); }
    }
  }

  lemma ClearIsAssigned(plan: seq<PlanItem>, c: Assignment, x: Id)
    requires c in Clears(Assignments(plan)) && forall q | q in plan :: !Concerns(q, TeamOf(x))
    ensures c.input != x
  {
    hide Clears;
    ClearsAre(Assignments(plan));
    var a :| a in Assignments(plan) && a.input == c.input;
    assert AssignTeam(a) in plan;
    assert !Concerns(AssignTeam(a), TeamOf(x));
  }

  lemma RowAfterBatch(plan: seq<PlanItem>, tournament: Id, x: Id, was: Input, row: Input)
    requires row == InputAfter(OtherItems(plan), tournament, x, was)
    ensures row.(team := TeamAfter(row, tournament, OrderedWrites(Assignments(plan)), x))
         == InputAfter(plan, tournament, x, was)
  {
    LastOfOthers(plan, StatsOf(x));
    NoTeamsAmongOthers(plan, x);
    NoClearsElsewhere(plan, tournament, x, row);
    if row.tournament == tournament {
      LastOfAssignments(plan, Clears(Assignments(plan)), tournament, x, row);
    } else {
      ForeignKeepsTeam(row, tournament, OrderedWrites(Assignments(plan)), x);
    }
    hide LastOn, OtherItems, Assignments, TeamAfter, Clears;
  }

  lemma NoTeamsAmongOthers(plan: seq<PlanItem>, x: Id)
    ensures LastOn(OtherItems(plan), TeamOf(x)).None?
  {
    forall p | p in OtherItems(plan) ensures !Concerns(p, TeamOf(x)) {}
  }

  lemma {:induction false} ForeignKeepsTeam(row: Input, tournament: Id, ws: seq<Assignment>, x: Id)
    requires row.tournament != tournament
    ensures TeamAfter(row, tournament, ws, x) == row.team
  {
    if ws != [] { ForeignKeepsTeam(row, tournament, ws[..|ws| - 1], x); }
  }

  /** All inputs as the plan wants them. */
  function InputsAfter(inputs: map<Id, Input>, plan: seq<PlanItem>, tournament: Id): map<Id, Input> {
    map x | x in inputs :: InputAfter(plan, tournament, x, inputs[x])
  }

  lemma BatchWritten(t: Tables, s: Tables, tournament: Id, plan: seq<PlanItem>)
    requires Written(t, s, tournament, OtherItems(plan))
    ensures WriteAll(s.inputs, tournament, OrderedWrites(Assignments(plan))) == InputsAfter(t.inputs, plan, tournament)
  {
    hide InputAfter, MatchAfter, RoundAfter, OrderedWrites, WriteAll;
    var ws := OrderedWrites(Assignments(plan));
    WriteAllRows(s.inputs, tournament, ws);
    var after, wanted := WriteAll(s.inputs, tournament, ws), InputsAfter(t.inputs, plan, tournament);
    assert after.Keys == wanted.Keys;
    forall x | x in wanted.Keys ensures after[x] == wanted[x] {
      RowAfterBatch(plan, tournament, x, t.inputs[x], s.inputs[x]);
    }
    SameMap(after, wanted);
  }

  lemma OthersOfPlan(t: Tables, s: Tables, tournament: Id, plan: seq<PlanItem>)
    requires Written(t, s, tournament, OtherItems(plan))
    ensures Written(t, s.(inputs := InputsAfter(t.inputs, plan, tournament)), tournament, plan)
  {
    hide LastOn, OtherItems, InputAfter;
    forall m | m in t.matches ensures s.matches[m] == MatchAfter(plan, m, t.matches[m]) {
      LastOfOthers(plan, InputsOf(m, t.matches[m].round));
      LastOfOthers(plan, RefereeOf(m));
    }
    forall r | r in t.rounds ensures s.rounds[r] == RoundAfter(t, plan, tournament, r) {
      LastOfOthers(plan, LifecycleOf(r));
    }
  }

  // ---------------------------------------------------------------- the plan

  /** An applied plan has written every row it names: a match has the inputs of the last item that names it with its own
      round, a referee if one was set, and then no free-text one; an input of the tournament has the last statistics
      and the last team, a round of the tournament the last state. No other column of any row has changed. */
  lemma PlanIsWritten(t: Tables, tournament: Id, plan: seq<PlanItem>)
    requires Applied(t, tournament, plan).Ok?
    ensures Written(t, Applied(t, tournament, plan).value, tournament, plan)
  {
    hide OtherWrites, TryWrites, OrderedWrites, Assignments, OtherItems, Written, InputsAfter;
    var s := OtherWrites(t, tournament, OtherItems(plan)).value;
    OthersWritten(t, tournament, OtherItems(plan));
    BatchWritten(t, s, tournament, plan);
    TryWritesForm(s.inputs, s.teams.Keys, tournament, OrderedWrites(Assignments(plan)));
    OthersOfPlan(t, s, tournament, plan);
  }

  /** A plan that gives each input one team and knows the teams it replaces goes through exactly when the rows it refers
      to exist and the teams it ends with are unique per item, whatever trades that takes. */
  lemma PlanGoesThrough(t: Tables, tournament: Id, plan: seq<PlanItem>)
    requires UniqueTeams(t.inputs)
    requires DistinctInputs(Assignments(plan)) && PreviousAccurate(t.inputs, tournament, Assignments(plan))
    ensures var r := Applied(t, tournament, plan);
            && (r.Ok? <==>
                  && (forall p | p in plan :: LooksUp(t, p))
                  && (forall a | AssignTeam(a) in plan && Targets(t.inputs, tournament, a.input) ::
                        Refers(a.team, t.teams.Keys))
                  && UniqueTeams(InputsAfter(t.inputs, plan, tournament)))
            && (r.Err? ==> r.error == ForeignKeyViolation || r.error == UniqueViolation)
            && (!(forall p | p in plan :: LooksUp(t, p)) ==> r == Err(ForeignKeyViolation))
  {
    hide UniqueTeams, DistinctInputs, PreviousAccurate, OtherWrites, TryWrites, OrderedWrites, Assignments, OtherItems,
      Simultaneous, InputsAfter, LooksUp, Written;
    var items, others := Assignments(plan), OtherWrites(t, tournament, OtherItems(plan));
    OthersWritten(t, tournament, OtherItems(plan));
    TeamsLookNothingUp(t, plan);
    if others.Ok? {
      var s := others.value;
      OtherWritesKeepTeams(t, tournament, OtherItems(plan));
      SameTeamsSameRules(t.inputs, s.inputs, tournament, items);
      AssignmentsOutcome(s.inputs, s.teams.Keys, tournament, items);
      BatchWritten(t, s, tournament, plan);
      AllWritten(s.inputs, tournament, items);
      SameTeamsExist(t, s, tournament, plan);
    }
  }

  lemma TeamsLookNothingUp(t: Tables, plan: seq<PlanItem>)
    ensures (forall p | p in OtherItems(plan) :: LooksUp(t, p)) <==> forall p | p in plan :: LooksUp(t, p)
  {
    forall p | p in plan && p !in OtherItems(plan) ensures LooksUp(t, p) {}
  }

  lemma SameTeamsExist(t: Tables, s: Tables, tournament: Id, plan: seq<PlanItem>)
    requires TeamsKept(t, s)
    ensures TeamsExist(s.inputs, s.teams.Keys, tournament, Assignments(plan)) <==>
              forall a | AssignTeam(a) in plan && Targets(t.inputs, tournament, a.input) :: Refers(a.team, t.teams.Keys)
  {
    forall a ensures a in Assignments(plan) <==> AssignTeam(a) in plan {}
    forall x ensures Targets(s.inputs, tournament, x) <==> Targets(t.inputs, tournament, x) {}
  }
}
