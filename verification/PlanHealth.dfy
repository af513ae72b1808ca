/** An applied plan leaves the database healthy: the checks the database makes on every write, and inputs of the match's
    own item where a plan sets what a match plays with. */
module PlanHealth {
  import opened Schema
  import opened MatchSets
  import opened Rankings
  import opened ApplyPlan
  import opened Layout
  import opened ItemLayout
  import opened Health

  // ---------------------------------------------------------------- the other writes

  /** A plan keeps to its tournament: the inputs it gives a match are those of the match's own item, and the referees
      and teams it names are of the tournament. Rows it does not find are the database's business. */
  ghost predicate PlanInside(t: Tables, tournament: Id, plan: seq<PlanItem>) {
    forall p | p in plan :: WriteInside(t, tournament, p)
  }

  ghost predicate WriteInside(t: Tables, tournament: Id, p: PlanItem) {
    match p
    case SetMatchInputs(r, m, input1, input2) =>
      m in t.matches && t.matches[m].round == r && r in t.rounds ==>
        InputInside(t, input1, t.rounds[r].stageItem) && InputInside(t, input2, t.rounds[r].stageItem)
    case SetMatchReferee(m, referee) =>
      m in t.matches && t.matches[m].round in t.rounds && referee in t.inputs ==>
        RefereeLocal(t, Some(referee), HomeOf(t, t.rounds[t.matches[m].round].stageItem))
    case AssignTeam(a) => TeamOwn(t.teams, tournament, a)
    case _ => true
  }

  predicate TeamOwn(teams: map<Id, Team>, tournament: Id, a: Assignment) {
    a.team.Some? && a.team.value in teams ==> teams[a.team.value].tournament == tournament
  }

  /** No row comes or goes or changes place; pointers, and who waits for whom, stay. */
  ghost predicate Rewritten(t: Tables, t': Tables) {
    && t' == t.(inputs := t'.inputs, matches := t'.matches, rounds := t'.rounds)
    && t'.inputs.Keys == t.inputs.Keys && t'.matches.Keys == t.matches.Keys && t'.rounds.Keys == t.rounds.Keys
    && (forall x | x in t.inputs ::
          t'.inputs[x] == t.inputs[x].(team := t'.inputs[x].team, stats := t'.inputs[x].stats))
    && (forall r | r in t.rounds :: t'.rounds[r].stageItem == t.rounds[r].stageItem)
    && (forall m | m in t.matches :: SamePlace(t.matches[m], t'.matches[m]))
  }

  predicate SamePlace(m: Match, m': Match) {
    && m'.round == m.round && m'.progress == m.progress && m'.court == m.court
    && m'.winnerFrom1 == m.winnerFrom1 && m'.winnerFrom2 == m.winnerFrom2
  }

  lemma NothingRewritten(t: Tables)
    ensures Rewritten(t, t)
  {
  }

  lemma InputRewritten(t: Tables, x: Id, stats: TeamStats)
    requires x in t.inputs
    ensures Rewritten(t, t.(inputs := t.inputs[x := t.inputs[x].(stats := stats)]))
  {
  }

  lemma MatchRewritten(t: Tables, m: Id, row: Match)
    requires m in t.matches && SamePlace(t.matches[m], row)
    ensures Rewritten(t, t.(matches := t.matches[m := row]))
  {
  }

  lemma RoundRewritten(t: Tables, r: Id, state: Lifecycle)
    requires r in t.rounds
    ensures Rewritten(t, t.(rounds := t.rounds[r := t.rounds[r].(lifecycle := state)]))
  {
  }

  lemma OtherWriteRewrites(t: Tables, tournament: Id, p: PlanItem)
    requires !p.AssignTeam? && OtherWrite(t, tournament, p).Ok?
    ensures Rewritten(t, OtherWrite(t, tournament, p).value)
  {
    hide Rewritten;
    NothingRewritten(t);
    match p
    case SetTeamStats(x, stats) => if Targets(t.inputs, tournament, x) { InputRewritten(t, x, stats); }
    case SetMatchInputs(r, m, input1, input2) =>
      if m in t.matches { MatchRewritten(t, m, t.matches[m].(input1 := input1, input2 := input2)); }
    case SetMatchReferee(m, referee) =>
      if m in t.matches { MatchRewritten(t, m, t.matches[m].(referee := Some(referee), refereeName := None)); }
    case SetLifecycle(r, state) =>
      if RoundInTournament(t, tournament, r) { RoundRewritten(t, r, state); }
  }

  lemma RewrittenTwice(t: Tables, s: Tables, t': Tables)
    requires Rewritten(t, s) && Rewritten(s, t')
    ensures Rewritten(t, t')
  {
  }

  lemma StillInside(t: Tables, s: Tables, tournament: Id, plan: seq<PlanItem>)
    requires Rewritten(t, s) && PlanInside(t, tournament, plan)
    ensures PlanInside(s, tournament, plan)
  {
    forall p | p in plan ensures WriteInside(s, tournament, p) {
      assert WriteInside(t, tournament, p);
      WriteStillInside(t, s, tournament, p);
    }
  }

  lemma WriteStillInside(t: Tables, s: Tables, tournament: Id, p: PlanItem)
    requires Rewritten(t, s) && WriteInside(t, tournament, p)
    ensures WriteInside(s, tournament, p)
  {
    SameHomes(t, s);
    hide HomeOf;
    forall x | x in t.inputs.Keys ensures x in s.inputs && SameRow(t.inputs[x], s.inputs[x]) {}
    forall m ensures m in s.matches <==> m in t.matches { assert m in s.matches.Keys <==> m in t.matches.Keys; }
    forall r ensures r in s.rounds <==> r in t.rounds { assert r in s.rounds.Keys <==> r in t.rounds.Keys; }
    match p
    case SetMatchInputs(r, m, input1, input2) =>
      assert input1.Some? && input1.value in t.inputs ==> SameRow(t.inputs[input1.value], s.inputs[input1.value]);
      assert input2.Some? && input2.value in t.inputs ==> SameRow(t.inputs[input2.value], s.inputs[input2.value]);
    case SetMatchReferee(m, referee) =>
      assert referee in s.inputs ==> referee in t.inputs.Keys && SameRow(t.inputs[referee], s.inputs[referee]);
    case _ =>
  }

  predicate SameRow(x: Input, y: Input) {
    y.stageItem == x.stageItem && y.tournament == x.tournament
  }

  lemma SameHomes(t: Tables, s: Tables)
    requires Rewritten(t, s)
    ensures s.teams == t.teams && forall i :: HomeOf(s, i) == HomeOf(t, i)
  {
  }

  lemma OtherWriteInside(t: Tables, tournament: Id, p: PlanItem)
    requires MatchesInside(t) && !p.AssignTeam? && WriteInside(t, tournament, p) && OtherWrite(t, tournament, p).Ok?
    ensures MatchesInside(OtherWrite(t, tournament, p).value)
  {
    var t' := OtherWrite(t, tournament, p).value;
    OtherWriteRewrites(t, tournament, p);
    forall m | m in t'.matches ensures MatchInside(t', t'.matches[m]) {
      assert MatchInside(t, t.matches[m]);
      hide RoundInTournament, Targets;
      RowInside(t, t', tournament, p, m);
    }
  }

  lemma RowInside(t: Tables, t': Tables, tournament: Id, p: PlanItem, m: Id)
    requires !p.AssignTeam? && OtherWrite(t, tournament, p) == Ok(t') && Rewritten(t, t') && m in t.matches
    requires MatchInside(t, t.matches[m]) && WriteInside(t, tournament, p)
    ensures MatchInside(t', t'.matches[m])
  {
    hide RoundInTournament, Targets;
  }

  lemma OtherWriteIntact(t: Tables, tournament: Id, p: PlanItem)
    requires Intact(t) && !p.AssignTeam? && WriteInside(t, tournament, p) && OtherWrite(t, tournament, p).Ok?
    ensures Intact(OtherWrite(t, tournament, p).value)
  {
    hide Shape, Local, UniqueSources, OtherWrite, WriteInside, Rewritten;
    OtherWriteShape(t, tournament, p);
    OtherWriteLocal(t, tournament, p);
    OtherWriteRewrites(t, tournament, p);
    RewrittenSources(t, OtherWrite(t, tournament, p).value);
  }

  lemma RewrittenSources(t: Tables, t': Tables)
    requires Rewritten(t, t') && UniqueSources(t.inputs)
    ensures UniqueSources(t'.inputs)
  {
    hide UniqueSources;
    LoosenedSources(t.inputs, t'.inputs);
  }

  lemma OtherWriteLocal(t: Tables, tournament: Id, p: PlanItem)
    requires Local(t) && !p.AssignTeam? && WriteInside(t, tournament, p) && OtherWrite(t, tournament, p).Ok?
    ensures Local(OtherWrite(t, tournament, p).value)
  {
    hide HomeOf, OtherWrite, WriteInside, SamePlace;
    var t' := OtherWrite(t, tournament, p).value;
    OtherWriteRewrites(t, tournament, p);
    OtherWriteKeepsTeams(t, tournament, p);
    SameHomes(t, t');
    forall x | x in t'.inputs ensures InputLocal(t', t'.inputs[x]) {
      assert x in t.inputs.Keys && InputLocal(t, t.inputs[x]);
    }
    forall m | m in t'.matches ensures MatchLocal(t', t'.matches[m]) {
      assert m in t.matches.Keys && MatchLocal(t, t.matches[m]);
      RowLocal(t, t', tournament, p, m);
    }
    hide InputLocal, MatchLocal;
    RewrittenLevels(t, t');
  }

  lemma RewrittenLevels(t: Tables, t': Tables)
    requires LevelsLocal(t) && Rewritten(t, t')
    ensures LevelsLocal(t')
  {
  }

  lemma RowLocal(t: Tables, t': Tables, tournament: Id, p: PlanItem, m: Id)
    requires !p.AssignTeam? && OtherWrite(t, tournament, p) == Ok(t') && Rewritten(t, t') && m in t.matches
    requires MatchLocal(t, t.matches[m]) && WriteInside(t, tournament, p)
    ensures m in t'.matches && MatchLocal(t', t'.matches[m])
  {
    hide RoundInTournament, Targets, HomeOf;
    SameHomes(t, t');
    assert m in t'.matches.Keys && t.matches[m].round in t'.rounds.Keys;
    forall x ensures x in t'.inputs <==> x in t.inputs { assert x in t'.inputs.Keys <==> x in t.inputs.Keys; }
  }

  lemma OtherWriteShape(t: Tables, tournament: Id, p: PlanItem)
    requires Shape(t) && !p.AssignTeam? && WriteInside(t, tournament, p) && OtherWrite(t, tournament, p).Ok?
    ensures Shape(OtherWrite(t, tournament, p).value)
  {
    OtherWriteInside(t, tournament, p);
    OtherWriteRewrites(t, tournament, p);
    OtherWriteKeepsTeams(t, tournament, p);
    OtherWriteRefers(t, tournament, p);
    var t' := OtherWrite(t, tournament, p).value;
    hide OtherWrite, MatchInside, WriteInside, MatchRefers, RankingPointsRefer, StageItemsRefer, LevelsRefer,
      StagesRefer, TeamsRefer, PlayersRefer, MembershipsRefer, CourtsRefer, RankingsRefer;
  }

  lemma OtherWriteRefers(t: Tables, tournament: Id, p: PlanItem)
    requires MatchesRefer(t.matches, t.rounds.Keys, t.inputs.Keys, t.courts.Keys)
    requires !p.AssignTeam? && OtherWrite(t, tournament, p).Ok?
    ensures var t' := OtherWrite(t, tournament, p).value;
            MatchesRefer(t'.matches, t'.rounds.Keys, t'.inputs.Keys, t'.courts.Keys)
  {
    hide OtherWrite, MatchRefers;
    var t' := OtherWrite(t, tournament, p).value;
    OtherWriteRewrites(t, tournament, p);
    hide SamePlace;
    forall m | m in t'.matches
      ensures MatchRefers(t'.matches[m], t'.rounds.Keys, t'.inputs.Keys, t'.matches.Keys, t'.courts.Keys)
    {
      assert m in t.matches.Keys;
      RowRefers(t, tournament, p, m);
    }
  }

  lemma RowRefers(t: Tables, tournament: Id, p: PlanItem, m: Id)
    requires !p.AssignTeam? && OtherWrite(t, tournament, p).Ok? && m in t.matches
    requires MatchRefers(t.matches[m], t.rounds.Keys, t.inputs.Keys, t.matches.Keys, t.courts.Keys)
    ensures var t' := OtherWrite(t, tournament, p).value;
            m in t'.matches && MatchRefers(t'.matches[m], t.rounds.Keys, t.inputs.Keys, t.matches.Keys, t.courts.Keys)
  {
    hide RoundInTournament, Targets;
  }

  lemma {:induction false} OtherWritesIntact(t: Tables, tournament: Id, items: seq<PlanItem>)
    requires forall p | p in items :: !p.AssignTeam?
    requires Intact(t) && PlanInside(t, tournament, items) && OtherWrites(t, tournament, items).Ok?
    ensures Intact(OtherWrites(t, tournament, items).value) && Rewritten(t, OtherWrites(t, tournament, items).value)
  {
    hide Intact, OtherWrite, Rewritten, WriteInside;
    if items == [] {
      NothingRewritten(t);
    } else {
      var init, p := items[..|items| - 1], items[|items| - 1];
      OtherWritesIntact(t, tournament, init);
      var s := OtherWrites(t, tournament, init).value;
      StillInside(t, s, tournament, items);
      OtherWriteIntact(s, tournament, p);
      OtherWriteRewrites(s, tournament, p);
      RewrittenTwice(t, s, OtherWrite(s, tournament, p).value);
    }
  }

  // ---------------------------------------------------------------- the assignments

  /** Only teams differ, teams exist and are of the input's tournament, and no item has a team twice. */
  ghost predicate Assigned(inputs: Inputs, inputs': Inputs, teams: map<Id, Team>) {
    && inputs'.Keys == inputs.Keys && UniqueTeams(inputs')
    && (forall x | x in inputs :: inputs'[x] == inputs[x].(team := inputs'[x].team))
    && forall x | x in inputs' :: TeamFits(inputs'[x], teams)
  }

  predicate TeamFits(row: Input, teams: map<Id, Team>) {
    row.team.Some? ==> row.team.value in teams && teams[row.team.value].tournament == row.tournament
  }

  lemma {:induction false} WritesAssign(inputs: Inputs, teams: map<Id, Team>, tournament: Id, ws: seq<Assignment>)
    requires Assigned(inputs, inputs, teams) && TryWrites(inputs, teams.Keys, tournament, ws).Ok?
    requires forall w | w in ws :: TeamOwn(teams, tournament, w)
    ensures Assigned(inputs, TryWrites(inputs, teams.Keys, tournament, ws).value, teams)
  {
    if ws != [] {
      var init, last := ws[..|ws| - 1], ws[|ws| - 1];
      hide Assigned, TryWrite;
      WritesAssign(inputs, teams, tournament, init);
      WriteAssigns(inputs, TryWrites(inputs, teams.Keys, tournament, init).value, teams, tournament, last);
    }
  }

  lemma WriteAssigns(inputs: Inputs, now: Inputs, teams: map<Id, Team>, tournament: Id, w: Assignment)
    requires Assigned(inputs, now, teams) && TeamOwn(teams, tournament, w)
    requires TryWrite(now, teams.Keys, tournament, w).Ok?
    ensures Assigned(inputs, TryWrite(now, teams.Keys, tournament, w).value, teams)
  {
    hide UniqueTeams;
  }

  lemma WritesOwn(t: Tables, tournament: Id, plan: seq<PlanItem>)
    requires PlanInside(t, tournament, plan)
    ensures forall w | w in OrderedWrites(Assignments(plan)) :: TeamOwn(t.teams, tournament, w)
  {
    hide OrderedWrites;
    var ws := OrderedWrites(Assignments(plan));
    forall w | w in ws ensures TeamOwn(t.teams, tournament, w) {
      var k :| 0 <= k < |ws| && ws[k] == w;
      WriteIsItem(Assignments(plan), k);
      if w in Assignments(plan) { assert WriteInside(t, tournament, AssignTeam(w)); }
    }
  }

  lemma TeamsBefore(t: Tables)
    requires Intact(t)
    ensures Assigned(t.inputs, t.inputs, t.teams)
  {
    hide UniqueTeams, UniqueSources, ForeignKeys, MatchesInside, MatchesLocal, LevelsLocal, HomeOf;
    forall x | x in t.inputs ensures TeamFits(t.inputs[x], t.teams) { assert InputLocal(t, t.inputs[x]); }
  }

  lemma AssignedShape(t: Tables, inputs: Inputs)
    requires Shape(t) && Assigned(t.inputs, inputs, t.teams)
    ensures Shape(t.(inputs := inputs)) && Rewritten(t, t.(inputs := inputs))
  {
    hide StageItemsRefer, RoundsRefer, LevelsRefer, StagesRefer, TeamsRefer, PlayersRefer, MembershipsRefer,
      CourtsRefer, RankingsRefer, RankingPointsRefer, MatchRefers, UniqueTeams;
    var t' := t.(inputs := inputs);
    forall x | x in t.inputs.Keys ensures x in inputs && inputs[x].stageItem == t.inputs[x].stageItem {}
    forall m | m in t'.matches ensures MatchInside(t', t'.matches[m]) { assert MatchInside(t, t.matches[m]); }
  }

  lemma AssignedLocal(t: Tables, inputs: Inputs)
    requires Local(t) && Assigned(t.inputs, inputs, t.teams)
    ensures Local(t.(inputs := inputs))
  {
    hide UniqueTeams, HomeOf;
    var t' := t.(inputs := inputs);
    assert forall i :: HomeOf(t', i) == HomeOf(t, i) by { SameItemsSameHomes(t, t'); }
    forall x ensures x in inputs <==> x in t.inputs { assert x in inputs.Keys <==> x in t.inputs.Keys; }
    forall x | x in inputs ensures InputLocal(t', inputs[x]) {
      assert InputLocal(t, t.inputs[x]) && TeamFits(inputs[x], t.teams);
    }
    forall m | m in t'.matches ensures MatchLocal(t', t'.matches[m]) {
      assert MatchLocal(t, t.matches[m]);
      if t.matches[m].referee.Some? { AssignedRow(t, inputs, t.matches[m].referee.value); }
    }
    AssignedLevels(t, inputs);
  }

  lemma AssignedRow(t: Tables, inputs: Inputs, x: Id)
    requires Assigned(t.inputs, inputs, t.teams) && x in t.inputs
    ensures x in inputs && SameRow(t.inputs[x], inputs[x])
  {
    assert x in inputs.Keys;
  }

  lemma SameItemsSameHomes(t: Tables, t': Tables)
    requires t'.stageItems == t.stageItems && t'.stages == t.stages
    ensures forall i :: HomeOf(t', i) == HomeOf(t, i)
  {
  }

  lemma AssignedLevels(t: Tables, inputs: Inputs)
    requires LevelsLocal(t)
    ensures LevelsLocal(t.(inputs := inputs))
  {
  }

  lemma AssignedIntact(t: Tables, inputs: Inputs)
    requires Intact(t) && Assigned(t.inputs, inputs, t.teams)
    ensures Intact(t.(inputs := inputs)) && Rewritten(t, t.(inputs := inputs))
  {
    hide Shape, Local, UniqueSources, Assigned, Rewritten;
    AssignedShape(t, inputs);
    AssignedLocal(t, inputs);
    RewrittenSources(t, t.(inputs := inputs));
  }

  // ---------------------------------------------------------------- the plan

  lemma RewrittenProgress(t: Tables, t': Tables)
    requires ProgressOk(t) && Rewritten(t, t')
    ensures ProgressOk(t')
  {
    forall m | m in t'.matches ensures SetsFit(t', m) {
      assert m in t.matches.Keys && t.matches[m].round in t'.rounds.Keys;
      assert SetsFit(t, m) && SamePlace(t.matches[m], t'.matches[m]);
      assert NumSetsOf(t', m) == NumSetsOf(t, m) && RowsOf(t', m) == RowsOf(t, m);
    }
  }

  lemma RewrittenLayout(t: Tables, t': Tables)
    requires Rewritten(t, t')
    ensures LayoutKept(t, t')
  {
  }

  /** Whatever else the plan writes and however its assignments trade teams. */
  lemma PlanKeepsHealth(t: Tables, tournament: Id, plan: seq<PlanItem>)
    requires Healthy(t) && PlanInside(t, tournament, plan) && Applied(t, tournament, plan).Ok?
    ensures var t' := Applied(t, tournament, plan).value; Healthy(t') && OrderKept(t, t') && Rewritten(t, t')
  {
    hide Intact, ProgressOk, ParityOk, Tenancy, SlotsOk, PositionsOk, Rewritten, OtherWrites, TryWrites, WriteInside,
      OrderedWrites, Assignments, OtherItems, Assigned, LayoutKept, OrderKept;
    OthersInside(t, tournament, plan);
    OtherWritesIntact(t, tournament, OtherItems(plan));
    var s := OtherWrites(t, tournament, OtherItems(plan)).value;
    StillInside(t, s, tournament, plan);
    WritesOwn(s, tournament, plan);
    TeamsBefore(s);
    WritesAssign(s.inputs, s.teams, tournament, OrderedWrites(Assignments(plan)));
    var t' := Applied(t, tournament, plan).value;
    AssignedIntact(s, t'.inputs);
    RewrittenTwice(t, s, t');
    RewrittenProgress(t, t');
    RewrittenFrame(t, t');
    SameTenancy(t, t');
    RewrittenLayout(t, t');
    KeepsLayout(t, t');
  }

  lemma OthersInside(t: Tables, tournament: Id, plan: seq<PlanItem>)
    requires PlanInside(t, tournament, plan)
    ensures PlanInside(t, tournament, OtherItems(plan))
  {
  }

  lemma RewrittenFrame(t: Tables, t': Tables)
    requires Rewritten(t, t')
    ensures t'.stageItems == t.stageItems && t'.stages == t.stages && t'.rankings == t.rankings
  {
  }
}
