/** Rankings decide how many sets the matches below them have. Editing a ranking, and moving a stage's
    items to another ranking, must leave the set rows of existing matches in step. */
module Rankings {
  import opened Schema
  import opened Progress
  import opened MatchSets
  import opened SetResize
  import opened Deletion

  datatype RankingBody = RankingBody(position: Option<int>, rules: Rules)

  // ---------------------------------------------------------------- best-of-n

  predicate BestOfN(rules: Rules) {
    !rules.playAllSets && rules.numSets > 1
  }

  /** A best-of-n ranking is stored with an odd number of sets and without draws. */
  predicate RulesSound(rules: Rules) {
    BestOfN(rules) ==> rules.numSets % 2 == 1 && !rules.drawsAllowed
  }

  function NormaliseRules(rules: Rules): (r: Result<Rules>)
    ensures r.Err? <==> BestOfN(rules) && rules.numSets % 2 == 0
    ensures r.Ok? ==> RulesSound(r.value) && r.value == rules.(drawsAllowed := r.value.drawsAllowed)
    ensures r.Ok? && !BestOfN(rules) ==> r.value == rules
  {
    if rules.playAllSets || rules.numSets <= 1 then Ok(rules)
    else if rules.numSets % 2 == 0 then Err(Http(422))
    else if rules.drawsAllowed then Ok(rules.(drawsAllowed := false))
    else Ok(rules)
  }

  // ---------------------------------------------------------------- reading

  function RankingIn(t: Tables, tournament: Id, r: Id): Option<Ranking> {
    if r in t.rankings && t.rankings[r].tournament == tournament then Some(t.rankings[r]) else None
  }

  function SetsOr(ranking: Option<Ranking>, default: int): int {
    if ranking.Some? then ranking.value.rules.numSets else default
  }

  predicate EliminationUses(t: Tables, tournament: Id, r: Id) {
    exists i | i in t.stageItems ::
      && t.stageItems[i].ranking == r && t.stageItems[i].kind == SingleElimination
      && t.stageItems[i].stage in t.stages && t.stages[t.stageItems[i].stage].tournament == tournament
  }

  predicate Active(p: Pointer) {
    p.completed > 0 || p.inProgress
  }

  predicate HasActiveSets(t: Tables, r: Id) {
    exists m | m in MatchesOfRanking(t, r) :: Active(t.matches[m].progress)
  }

  function ItemsOfStage(t: Tables, stage: Id): set<Id> {
    set i | i in t.stageItems && t.stageItems[i].stage == stage
  }

  // ---------------------------------------------------------------- editing a ranking

  function WithRules(t: Tables, r: Id, body: RankingBody, rules: Rules): Tables
    requires r in t.rankings
  {
    var was := t.rankings[r];
    t.(rankings := t.rankings[r := was.(rules := rules,
         position := if body.position.Some? then body.position.value else was.position)])
  }

  function UpdateRanking(t: Tables, tournament: Id, r: Id, body: RankingBody, force: bool): Result<Tables> {
    var normal := NormaliseRules(body.rules);
    if normal.Err? then Err(normal.error) else
      var rules := normal.value;
      if rules.numSets % 2 == 0 && EliminationUses(t, tournament, r) then Err(Http(422)) else
        var existing := RankingIn(t, tournament, r);
        var was := SetsOr(existing, rules.numSets);
        var changed := existing.Some?
                       && (rules.numSets != was || rules.playAllSets != existing.value.rules.playAllSets);
        if changed && !force && HasActiveSets(t, r) then Err(Http(409))
        else if existing.None? then Err(NotFound)
        else if rules.numSets == was then Ok(WithRules(t, r, body, rules))
        else TryResize(WithRules(t, r, body, rules), Uniform(MatchesOfRanking(t, r), was), rules.numSets)
  }

  method UpdateRankingById(db: Database, tournament: Id, r: Id, body: RankingBody, force: bool)
    returns (error: Option<Error>)
    modifies db
    ensures Ended(UpdateRanking(old(db.Snapshot()), tournament, r, body, force),
                  old(db.Snapshot()), db.Snapshot(), error)
  {
    var saved := db.Snapshot();
    var normal := NormaliseRules(body.rules);
    if normal.Err? { return Some(normal.error); }
    var rules := normal.value;
    if rules.numSets % 2 == 0 {
      if EliminationUses(saved, tournament, r) { return Some(Http(422)); }
    }
    var existing := RankingIn(saved, tournament, r);
    var was := if existing.Some? then existing.value.rules.numSets else rules.numSets;
    var wasPlayAll := if existing.Some? then existing.value.rules.playAllSets else rules.playAllSets;
    if (rules.numSets != was || rules.playAllSets != wasPlayAll) && !force {
      if HasActiveSets(saved, r) { return Some(Http(409)); }
    }
    if existing.None? { return Some(NotFound); }
    db.rankings := WithRules(saved, r, body, rules).rankings;
    ghost var edited := db.Snapshot();
    assert edited == WithRules(saved, r, body, rules);
    if rules.numSets != was {
      assert MatchesOfRanking(edited, r) == MatchesOfRanking(saved, r);
      error := SqlResizeSetsForRanking(db, r, was, rules.numSets);
      if error.Some? {
        db.Restore(saved);
        return;
      }
    }
    return None;
  }

  // ---------------------------------------------------------------- creating a ranking

  function HighestPosition(rankings: map<Id, Ranking>, tournament: Id, order: seq<Id>): (p: Option<int>)
    requires forall r | r in order :: r in rankings
    ensures p.Some? <==> exists r | r in order :: rankings[r].tournament == tournament
    ensures p.Some? ==>
              && (exists r | r in order :: rankings[r].tournament == tournament && rankings[r].position == p.value)
              && (forall r | r in order && rankings[r].tournament == tournament :: rankings[r].position <= p.value)
  {
    if order == [] then None else
      var r, rest := order[0], HighestPosition(rankings, tournament, order[1..]);
      assert order == [r] + order[1..];
      if rankings[r].tournament != tournament then rest
      else if rest.None? then Some(rankings[r].position)
      else Some(Max(rankings[r].position, rest.value))
  }

  function NextPosition(rankings: map<Id, Ranking>, tournament: Id): int {
    var highest := HighestPosition(rankings, tournament, Ids(rankings.Keys));
    (if highest.Some? then highest.value else -1) + 1
  }

  function WithRanking(t: Tables, row: Ranking): Tables {
    t.(rankings := t.rankings[t.nextId := row], nextId := t.nextId + 1)
  }

  function CreateRanking(t: Tables, tournament: Id, body: RankingBody): Result<Tables> {
    var normal := NormaliseRules(body.rules);
    if normal.Err? then Err(normal.error)
    else if tournament !in t.tournaments then Err(ForeignKeyViolation)
    else
      Ok(WithRanking(t, Ranking(tournament, None, NextPosition(t.rankings, tournament), normal.value)))
  }

  method CreateRankingIn(db: Database, tournament: Id, body: RankingBody) returns (error: Option<Error>)
    modifies db`rankings, db`nextId
    ensures Ended(CreateRanking(old(db.Snapshot()), tournament, body),
                  old(db.Snapshot()), db.Snapshot(), error)
  {
    var normal := NormaliseRules(body.rules);
    if normal.Err? { return Some(normal.error); }
    if tournament !in db.tournaments { return Some(ForeignKeyViolation); }
    var row := Ranking(tournament, None, NextPosition(db.rankings, tournament), normal.value);
    db.rankings, db.nextId := db.rankings[db.nextId := row], db.nextId + 1;
    return None;
  }

  // ---------------------------------------------------------------- moving items to another ranking

  /** The old counts a move of `items` to a ranking of `n` sets resizes: matches of items that use
      another ranking, whose set count (1 when the tournament has no such ranking) differs from n. */
  function MoveCounts(t: Tables, tournament: Id, items: set<Id>, r: Id, n: int): Counts {
    map m | m in t.matches && t.matches[m].round in t.rounds
            && t.rounds[t.matches[m].round].stageItem in items
            && t.rounds[t.matches[m].round].stageItem in t.stageItems
            && t.stageItems[t.rounds[t.matches[m].round].stageItem].ranking != r
            && SetsOr(RankingIn(t, tournament, t.stageItems[t.rounds[t.matches[m].round].stageItem].ranking), 1) != n
         :: SetsOr(RankingIn(t, tournament, t.stageItems[t.rounds[t.matches[m].round].stageItem].ranking), 1)
  }

  function Moved(stageItems: map<Id, StageItem>, items: set<Id>, r: Id): map<Id, StageItem> {
    map i | i in stageItems :: if i in items then stageItems[i].(ranking := r) else stageItems[i]
  }

  function SetRankingForStage(t: Tables, tournament: Id, stage: Id, r: Id): Result<Tables> {
    var ranking := RankingIn(t, tournament, r);
    if stage !in t.stages || t.stages[stage].tournament != tournament || ranking.None? then Err(Http(404)) else
      var n, items := ranking.value.rules.numSets, ItemsOfStage(t, stage);
      if n % 2 == 0 && exists i | i in items :: t.stageItems[i].kind == SingleElimination then Err(Http(422)) else
        match TryResize(t, MoveCounts(t, tournament, items, r, n), n)
        case Err(e) => Err(e)
        case Ok(t1) => Ok(t1.(stageItems := Moved(t.stageItems, items, r)))
  }

  /** One more item of the stage. */
  lemma MoveOneMore(t: Tables, tournament: Id, done: set<Id>, i: Id, r: Id, n: int)
    requires i in t.stageItems && i !in done
    ensures var was := SetsOr(RankingIn(t, tournament, t.stageItems[i].ranking), 1);
            MoveCounts(t, tournament, done + {i}, r, n)
            == if t.stageItems[i].ranking == r || was == n then MoveCounts(t, tournament, done, r, n)
               else MoveCounts(t, tournament, done, r, n) + Uniform(MatchesOfItem(t, i), was)
    ensures MoveCounts(t, tournament, done, r, n).Keys !! MatchesOfItem(t, i)
  {
  }

  lemma SameMatchesOfItem(t: Tables, counts: Counts, n: int, i: Id)
    ensures MatchesOfItem(Resized(t, counts, n), i) == MatchesOfItem(t, i)
  {
  }

  /** One more item, as the program does it: skip it, or resize the matches it has now. */
  lemma MoveStep(t: Tables, tournament: Id, done: set<Id>, i: Id, r: Id, n: int)
    requires i in t.stageItems && i !in done
    ensures var before, after := MoveCounts(t, tournament, done, r, n), MoveCounts(t, tournament, done + {i}, r, n);
            var was, t1 := SetsOr(RankingIn(t, tournament, t.stageItems[i].ranking), 1), Resized(t, before, n);
            if t.stageItems[i].ranking == r || was == n then after == before
            else
              && Resized(t, after, n) == Resized(t1, Uniform(MatchesOfItem(t1, i), was), n)
              && (BreaksCheck(t, after, n)
                  <==> BreaksCheck(t, before, n) || BreaksCheck(t1, Uniform(MatchesOfItem(t1, i), was), n))
  {
    var before := MoveCounts(t, tournament, done, r, n);
    var was := SetsOr(RankingIn(t, tournament, t.stageItems[i].ranking), 1);
    MoveOneMore(t, tournament, done, i, r, n);
    SameMatchesOfItem(t, before, n, i);
    if t.stageItems[i].ranking != r && was != n {
      ResizeGroups(t, before, Uniform(MatchesOfItem(t, i), was), n);
      ResizeGroupsBreak(t, before, Uniform(MatchesOfItem(t, i), was), n);
    }
  }

  method ResizeItemForMove(db: Database, saved: Tables, tournament: Id, ghost done: set<Id>, i: Id, r: Id, n: int)
    returns (error: Option<Error>)
    requires i in saved.stageItems && i !in done
    requires db.Snapshot() == Resized(saved, MoveCounts(saved, tournament, done, r, n), n)
    requires !BreaksCheck(saved, MoveCounts(saved, tournament, done, r, n), n)
    modifies db`matchSets, db`matches
    ensures Tried(TryResize(saved, MoveCounts(saved, tournament, done + {i}, r, n), n), db.Snapshot(), error)
  {
    hide MoveCounts, Resized, BreaksCheck;
    MoveStep(saved, tournament, done, i, r, n);
    error := None;
    if saved.stageItems[i].ranking != r {
      var was := SetsOr(RankingIn(saved, tournament, saved.stageItems[i].ranking), 1);
      error := SqlResizeSetsForStageItem(db, i, was, n);
    }
  }

  lemma MoveNothing(t: Tables, tournament: Id, r: Id, n: int)
    ensures TryResize(t, MoveCounts(t, tournament, Group([]), r, n), n) == Ok(t)
  {
    NoMoveCounts(t, tournament, r, n);
    hide MoveCounts;
    ResizeNothing(t, n);
  }

  lemma NoMoveCounts(t: Tables, tournament: Id, r: Id, n: int)
    ensures MoveCounts(t, tournament, Group([]), r, n) == map[]
  {
  }

  /** The loop of the request: items one by one, all resizes before any change of ranking. */
  method ResizeItemsForMove(db: Database, tournament: Id, items: set<Id>, r: Id, n: int)
    returns (error: Option<Error>)
    requires items <= db.stageItems.Keys
    modifies db`matchSets, db`matches
    ensures Tried(TryResize(old(db.Snapshot()), MoveCounts(old(db.Snapshot()), tournament, items, r, n), n),
                  db.Snapshot(), error)
  {
    hide MoveCounts, Resized, BreaksCheck;
    var saved := db.Snapshot();
    var order := Ids(items);
    MoveNothing(saved, tournament, r, n);
    for k := 0 to |order|
      invariant Tried(TryResize(saved, MoveCounts(saved, tournament, Group(order[..k]), r, n), n),
                      db.Snapshot(), None)
    {
      GroupOneMore(order, k);
      assert order[k] in items;
      error := ResizeItemForMove(db, saved, tournament, Group(order[..k]), order[k], r, n);
      if error.Some? {
        assert Group(order[..k + 1]) <= items;
        MoveBreakIsInherited(saved, tournament, Group(order[..k + 1]), items, r, n);
        return;
      }
    }
    assert order[..|order|] == order && Group(order) == items;
    return None;
  }

  method SetRankingForStageItems(db: Database, tournament: Id, stage: Id, r: Id) returns (error: Option<Error>)
    modifies db
    ensures Ended(SetRankingForStage(old(db.Snapshot()), tournament, stage, r),
                  old(db.Snapshot()), db.Snapshot(), error)
  {
    var saved := db.Snapshot();
    if stage !in saved.stages || saved.stages[stage].tournament != tournament { return Some(Http(404)); }
    var ranking := RankingIn(saved, tournament, r);
    if ranking.None? { return Some(Http(404)); }
    var n, items := ranking.value.rules.numSets, ItemsOfStage(saved, stage);
    if n % 2 == 0 && exists i | i in items :: saved.stageItems[i].kind == SingleElimination {
      return Some(Http(422));
    }
    error := ResizeItemsForMove(db, tournament, items, r, n);
    if error.Some? {
      db.Restore(saved);
      return;
    }
    db.stageItems := Moved(db.stageItems, items, r);
  }

  lemma MoveBreakIsInherited(t: Tables, tournament: Id, a: set<Id>, b: set<Id>, r: Id, n: int)
    requires a <= b && BreaksCheck(t, MoveCounts(t, tournament, a, r, n), n)
    ensures BreaksCheck(t, MoveCounts(t, tournament, b, r, n), n)
  {
    var small, large := MoveCounts(t, tournament, a, r, n), MoveCounts(t, tournament, b, r, n);
    var m :| m in small && BreaksAt(t, small, n, m);
    assert m in large && BreaksAt(t, large, n, m);
  }

  // ---------------------------------------------------------------- what the requests promise

  /** An item's ranking belongs to the tournament of its stage. */
  ghost predicate Tenancy(t: Tables) {
    forall i | i in t.stageItems ::
      && t.stageItems[i].stage in t.stages && t.stageItems[i].ranking in t.rankings
      && t.rankings[t.stageItems[i].ranking].tournament == t.stages[t.stageItems[i].stage].tournament
  }

  /** No elimination item plays an even number of sets, and every stored ranking is sound. */
  ghost predicate ParityOk(t: Tables) {
    && (forall r | r in t.rankings :: RulesSound(t.rankings[r].rules))
    && forall i | i in t.stageItems && t.stageItems[i].kind == SingleElimination ::
         t.stageItems[i].ranking in t.rankings && t.rankings[t.stageItems[i].ranking].rules.numSets % 2 == 1
  }

  lemma NumSetsSurviveResize(t: Tables, counts: Counts, n: int, m: Id)
    requires m in t.matches
    ensures m in Resized(t, counts, n).matches
    ensures NumSetsOf(Resized(t, counts, n), m) == NumSetsOf(t, m)
  {
  }

  /** The common core of every change of a ranking: `e` is the database with the new configuration,
      `counts` are the matches whose number of sets became n. Resizing exactly those restores the fit. */
  lemma FitsAfterResize(t: Tables, e: Tables, counts: Counts, n: int)
    requires AllSetsFit(t) && CountsFit(t, counts) && n >= 0
    requires e.matches == t.matches && e.matchSets == t.matchSets
    requires forall m | m in t.matches :: NumSetsOf(e, m) == if m in counts then n else NumSetsOf(t, m)
    ensures AllSetsFit(Resized(e, counts, n))
  {
    var t' := Resized(e, counts, n);
    ResizedFits(e, counts, n);
    forall m | m in t'.matches ensures SetsFit(t', m) {
      NumSetsSurviveResize(e, counts, n, m);
      assert SetsFit(t, m);
      assert m in counts ==> m in Uniform(counts.Keys, n);
      hide Resized;
    }
  }

  /** A negative count only gets past the CHECK when there is no match to resize. */
  lemma NoMatchesBelow(t: Tables, counts: Counts, n: int)
    requires n < 0 && CountsFit(t, counts) && !BreaksCheck(t, counts, n)
    ensures counts == map[]
  {
    EmptyOrHasMember(counts.Keys);
    if m :| m in counts {
      assert BreaksAt(t, counts, n, m);
    } else {
      assert counts == map[];
    }
  }

  lemma ResizeKeepsReferences(t: Tables, counts: Counts, n: int)
    requires ChainRefers(t) && counts.Keys <= t.matches.Keys
    ensures ChainRefers(Resized(t, counts, n))
  {
  }

  /** The same for any count the CHECK lets through, negative ones included. */
  lemma FitsAfterTryResize(t: Tables, e: Tables, counts: Counts, n: int)
    requires AllSetsFit(t) && CountsFit(t, counts) && ChainRefers(e) && TryResize(e, counts, n).Ok?
    requires e.matches == t.matches && e.matchSets == t.matchSets
    requires forall m | m in t.matches :: NumSetsOf(e, m) == if m in counts then n else NumSetsOf(t, m)
    ensures AllSetsFit(TryResize(e, counts, n).value) && ChainRefers(TryResize(e, counts, n).value)
  {
    hide Resized, BreaksCheck;
    ResizeKeepsReferences(e, counts, n);
    if n >= 0 {
      FitsAfterResize(t, e, counts, n);
    } else {
      NoMatchesBelow(e, counts, n);
      ResizeNothing(e, n);
      forall m | m in e.matches ensures SetsFit(e, m) { assert SetsFit(t, m); }
    }
  }

  /** Under the invariant, the matches below a ranking fit that ranking's count. */
  lemma RankingCountsFit(t: Tables, r: Id)
    requires AllSetsFit(t) && r in t.rankings
    ensures CountsFit(t, Uniform(MatchesOfRanking(t, r), t.rankings[r].rules.numSets))
  {
    forall m | m in MatchesOfRanking(t, r)
      ensures NumSetsOf(t, m) == t.rankings[r].rules.numSets && SetsFit(t, m)
    {
    }
  }

  /** An edit that succeeds leaves every match with exactly the rows and the pointer range of the
      ranking it now has, whatever the old and the new count are. */
  lemma UpdateRankingKeeps(t: Tables, tournament: Id, r: Id, body: RankingBody, force: bool)
    requires ProgressOk(t) && UpdateRanking(t, tournament, r, body, force).Ok?
    ensures ProgressOk(UpdateRanking(t, tournament, r, body, force).value)
  {
    var rules := NormaliseRules(body.rules).value;
    var was, n := t.rankings[r].rules.numSets, rules.numSets;
    var edited := WithRules(t, r, body, rules);
    var counts := Uniform(MatchesOfRanking(t, r), was);
    RankingCountsFit(t, r);
    forall m | m in t.matches ensures NumSetsOf(edited, m) == if m in counts then n else NumSetsOf(t, m) {
    }
    hide Resized, BreaksCheck;
    if n == was {
      forall m | m in t.matches ensures SetsFit(edited, m) { assert SetsFit(t, m); }
    } else {
      FitsAfterTryResize(t, edited, counts, n);
    }
  }

  /** Which tables an edit can touch. */
  lemma UpdateRankingFrame(t: Tables, tournament: Id, r: Id, body: RankingBody, force: bool)
    requires UpdateRanking(t, tournament, r, body, force).Ok?
    ensures NormaliseRules(body.rules).Ok? && RankingIn(t, tournament, r).Some?
    ensures var t' := UpdateRanking(t, tournament, r, body, force).value;
            t' == WithRules(t, r, body, NormaliseRules(body.rules).value)
                    .(matches := t'.matches, matchSets := t'.matchSets)
  {
    hide BreaksCheck, ResizedSets, TrimmedMatches;
  }

  lemma UpdateRankingResizes(t: Tables, tournament: Id, r: Id, body: RankingBody, force: bool)
    requires UpdateRanking(t, tournament, r, body, force).Ok?
    ensures NormaliseRules(body.rules).Ok? && r in t.rankings
    ensures var rules, was := NormaliseRules(body.rules).value, t.rankings[r].rules.numSets;
            var t' := UpdateRanking(t, tournament, r, body, force).value;
            var edited, counts := WithRules(t, r, body, rules), Uniform(MatchesOfRanking(t, r), was);
            if rules.numSets == was then t' == edited
            else !BreaksCheck(edited, counts, rules.numSets) && t' == Resized(edited, counts, rules.numSets)
                 && (force || !HasActiveSets(t, r))
  {
    hide BreaksCheck, Resized;
  }

  /** The request does not ask for a positive number of sets, and existing matches get along with any.
      The next match created under the ranking does not: it fits exactly when the body asks for a set. */
  lemma EditThenMatch(t: Tables, tournament: Id, r: Id, body: RankingBody, force: bool, row: Match)
    requires ProgressOk(t) && UpdateRanking(t, tournament, r, body, force).Ok?
    requires row.round in t.rounds && t.rounds[row.round].stageItem in t.stageItems
    requires t.stageItems[t.rounds[row.round].stageItem].ranking == r
    requires CreateMatch(UpdateRanking(t, tournament, r, body, force).value, row).Ok?
    ensures ProgressOk(CreateMatch(UpdateRanking(t, tournament, r, body, force).value, row).value)
            <==> body.rules.numSets >= 1
  {
    UpdateRankingKeeps(t, tournament, r, body, force);
    UpdateRankingFrame(t, tournament, r, body, force);
    hide UpdateRanking, ProgressOk;
    CreateMatchFits(UpdateRanking(t, tournament, r, body, force).value, row);
  }

  /** The ranking a successful edit stores: every column of the body, but draws only where they make sense. */
  ghost predicate StoresBody(was: Ranking, now: Ranking, body: RankingBody) {
    && now.tournament == was.tournament && now.level == was.level
    && now.position == (if body.position.Some? then body.position.value else was.position)
    && StoresRules(now.rules, body.rules)
  }

  ghost predicate StoresRules(now: Rules, asked: Rules) {
    && now.numSets == asked.numSets && now.maxPoints == asked.maxPoints
    && now.lastSetMaxPoints == asked.lastSetMaxPoints && now.twoPointAdvantage == asked.twoPointAdvantage
    && now.playAllSets == asked.playAllSets
    && (now.drawsAllowed <==> asked.drawsAllowed && (asked.playAllSets || asked.numSets <= 1))
  }

  lemma NormalStores(rules: Rules)
    ensures NormaliseRules(rules).Ok? <==> rules.playAllSets || rules.numSets <= 1 || rules.numSets % 2 == 1
    ensures NormaliseRules(rules).Err? ==> NormaliseRules(rules).error == Http(422)
    ensures NormaliseRules(rules).Ok? ==> StoresRules(NormaliseRules(rules).value, rules)
  {
  }

  /** Why an edit is refused, in the order in which the request looks. */
  ghost function EditRefused(t: Tables, tournament: Id, r: Id, body: RankingBody, force: bool): (e: Option<Error>) {
    var even, known := body.rules.numSets % 2 == 0, RankingIn(t, tournament, r).Some?;
    if even && !body.rules.playAllSets && body.rules.numSets > 1 then Some(Http(422))
    else if even && known && (exists i | i in t.stageItems ::
                                t.stageItems[i].ranking == r && t.stageItems[i].kind == SingleElimination)
    then Some(Http(422))
    else if known && !force && HasChanged(t, r, body)
            && (exists m | m in MatchesOfRanking(t, r) :: StateOfMatch(t, m) != NotStarted)
    then Some(Http(409))
    else if !known then Some(NotFound)
    else if body.rules.numSets < 0 && MatchesOfRanking(t, r) != {} then Some(CheckViolation)
    else None
  }

  lemma ActiveHasStarted(t: Tables, r: Id)
    requires ProgressOk(t)
    ensures HasActiveSets(t, r) <==> exists m | m in MatchesOfRanking(t, r) :: StateOfMatch(t, m) != NotStarted
  {
    forall m | m in MatchesOfRanking(t, r)
      ensures m in t.matches && (Active(t.matches[m].progress) <==> StateOfMatch(t, m) != NotStarted)
    {
      assert SetsFit(t, m);
      MatchStatesAgree(t.matches[m].progress, RowsOf(t, m), NumSetsOf(t, m), PlayAllSetsOf(t, m));
    }
  }

  lemma EliminationUsesKnown(t: Tables, tournament: Id, r: Id)
    requires Tenancy(t)
    ensures EliminationUses(t, tournament, r) <==>
              && RankingIn(t, tournament, r).Some?
              && exists i | i in t.stageItems ::
                   t.stageItems[i].ranking == r && t.stageItems[i].kind == SingleElimination
  {
  }

  lemma EditCounts(t: Tables, r: Id, body: RankingBody, rules: Rules)
    requires ProgressOk(t) && r in t.rankings
    ensures var was := t.rankings[r].rules.numSets;
            && CountsFit(WithRules(t, r, body, rules), Uniform(MatchesOfRanking(t, r), was))
            && (was < 0 ==> MatchesOfRanking(t, r) == {})
            && (Uniform(MatchesOfRanking(t, r), was) == map[] <==> MatchesOfRanking(t, r) == {})
  {
    var was := t.rankings[r].rules.numSets;
    RankingCountsFit(t, r);
    EmptyOrHasMember(MatchesOfRanking(t, r));
    assert Uniform(MatchesOfRanking(t, r), was).Keys == MatchesOfRanking(t, r);
    SameCountsFit(t, WithRules(t, r, body, rules), Uniform(MatchesOfRanking(t, r), was));
  }

  /** An edit goes through exactly when nothing refuses it. */
  lemma EditGoesThrough(t: Tables, tournament: Id, r: Id, body: RankingBody, force: bool)
    requires ProgressOk(t) && Tenancy(t)
    ensures var refused := EditRefused(t, tournament, r, body, force);
            if refused.Some? then UpdateRanking(t, tournament, r, body, force) == Err(refused.value)
            else UpdateRanking(t, tournament, r, body, force).Ok?
  {
    hide ProgressOk, Tenancy, EliminationUses, HasActiveSets, TryResize, MatchesOfRanking, StateOfMatch, CountsFit,
      Uniform, WithRules, StoresRules, NormaliseRules;
    NormalStores(body.rules);
    ActiveHasStarted(t, r);
    EliminationUsesKnown(t, tournament, r);
    if r in t.rankings && NormaliseRules(body.rules).Ok? {
      var rules, was := NormaliseRules(body.rules).value, t.rankings[r].rules.numSets;
      assert StoresRules(rules, body.rules);
      assert rules.numSets == body.rules.numSets && rules.playAllSets == body.rules.playAllSets by {
        StoredCounts(rules, body.rules);
      }
      EditCounts(t, r, body, rules);
      ResizesExactly(WithRules(t, r, body, rules), Uniform(MatchesOfRanking(t, r), was), rules.numSets);
    }
  }

  lemma StoredCounts(now: Rules, asked: Rules)
    requires StoresRules(now, asked)
    ensures now.numSets == asked.numSets && now.playAllSets == asked.playAllSets
  {
  }

  /** And then the ranking is stored as asked, every match below it is resized to the new number of sets, and nothing
      else changes. */
  lemma EditStores(t: Tables, tournament: Id, r: Id, body: RankingBody, force: bool)
    requires ProgressOk(t) && UpdateRanking(t, tournament, r, body, force).Ok?
    ensures r in t.rankings
    ensures var t' := UpdateRanking(t, tournament, r, body, force).value;
            && t' == t.(rankings := t'.rankings, matches := t'.matches, matchSets := t'.matchSets)
            && t'.rankings.Keys == t.rankings.Keys && t'.matches.Keys == t.matches.Keys
            && StoresBody(t.rankings[r], t'.rankings[r], body)
            && (forall x | x in t.rankings && x != r :: t'.rankings[x] == t.rankings[x])
            && forall m | m in t.matches ::
                 if m in MatchesOfRanking(t, r) then MatchResized(t, t', m, body.rules.numSets)
                 else MatchUntouched(t, t', m)
  {
    hide UpdateRanking, Resized, BreaksCheck, MatchesOfRanking, CountsFit, StoresRules, NormaliseRules, MatchResized,
      MatchUntouched, ProgressOk;
    UpdateRankingResizes(t, tournament, r, body, force);
    UpdateRankingFrame(t, tournament, r, body, force);
    NormalStores(body.rules);
    var rules, was := NormaliseRules(body.rules).value, t.rankings[r].rules.numSets;
    StoredCounts(rules, body.rules);
    EditCounts(t, r, body, rules);
    var edited, counts, t' := WithRules(t, r, body, rules), Uniform(MatchesOfRanking(t, r), was),
      UpdateRanking(t, tournament, r, body, force).value;
    if rules.numSets == was {
      EditedAlready(t, r, body, rules);
    } else {
      ResizesExactly(edited, counts, rules.numSets);
      EditedElsewhere(t, edited, t', counts, rules.numSets);
    }
  }

  lemma EditedAlready(t: Tables, r: Id, body: RankingBody, rules: Rules)
    requires ProgressOk(t) && r in t.rankings
    ensures var edited := WithRules(t, r, body, rules);
            forall m | m in t.matches ::
              && MatchUntouched(t, edited, m)
              && (m in MatchesOfRanking(t, r) ==> MatchResized(t, edited, m, t.rankings[r].rules.numSets))
  {
    forall m | m in t.matches
      ensures MatchUntouched(t, WithRules(t, r, body, rules), m)
      ensures m in MatchesOfRanking(t, r) ==>
                MatchResized(t, WithRules(t, r, body, rules), m, t.rankings[r].rules.numSets)
    {
      assert SetsFit(t, m);
      if m in MatchesOfRanking(t, r) {
        AlreadyResized(t, WithRules(t, r, body, rules), m, t.rankings[r].rules.numSets);
      }
    }
  }

  /** Resizing looks at matches and their rows only. */
  lemma EditedElsewhere(t: Tables, e: Tables, t': Tables, counts: Counts, n: int)
    requires e.matches == t.matches && e.matchSets == t.matchSets
    requires forall m | m in t.matches :: if m in counts then MatchResized(e, t', m, n) else MatchUntouched(e, t', m)
    ensures forall m | m in t.matches :: if m in counts then MatchResized(t, t', m, n) else MatchUntouched(t, t', m)
  {
  }

  const ONE_SET := Rules(1, 21, None, false, true, true)
  const NEW_PAIR := Match(7, Some(5), Some(6), None, None, None, None, None, None, None, None, None, RESET)

  /** A round-robin item of two teams with the one match the builder makes, on a ranking of one set. */
  const PAIR :=
    Tables({1}, map[], map[2 := Stage(1, None)], map[4 := StageItem(2, RoundRobin, 2, 3, None, 0)],
           map[5 := Input(1, 4, 1, None, None, None, NO_STATS), 6 := Input(1, 4, 2, None, None, None, NO_STATS)],
           map[7 := Round(4, Lifecycle.Active)], map[8 := NEW_PAIR], map[8 := map[1 := ZERO]],
           map[], map[], map[], map[], map[3 := Ranking(1, None, 0, ONE_SET)], map[], 9)

  lemma PairIsOk()
    ensures ForeignKeys(PAIR) && ProgressOk(PAIR)
  {
    PairRefers();
    PairFits();
  }

  lemma PairRefers()
    ensures ForeignKeys(PAIR)
  {
  }

  lemma PairFits()
    ensures ProgressOk(PAIR)
  {
    assert NumSetsOf(PAIR, 8) == 1 && RowsAre(RowsOf(PAIR, 8), 1);
    assert SetsFit(PAIR, 8);
  }

  const ZERO_SETS := RankingBody(None, ONE_SET.(numSets := 0))

  lemma PairGoesToZero()
    ensures UpdateRanking(PAIR, 1, 3, ZERO_SETS, false).Ok?
  {
    var edited, counts := WithRules(PAIR, 3, ZERO_SETS, ZERO_SETS.rules), Uniform(MatchesOfRanking(PAIR, 3), 1);
    assert !HasActiveSets(PAIR, 3);
    assert !BreaksCheck(edited, counts, 0);
    hide HasActiveSets, BreaksCheck, ResizedSets, TrimmedMatches;
    assert UpdateRanking(PAIR, 1, 3, ZERO_SETS, false) == TryResize(edited, counts, 0);
  }

  lemma PairTakesMatch()
    requires UpdateRanking(PAIR, 1, 3, ZERO_SETS, false).Ok?
    ensures CreateMatch(UpdateRanking(PAIR, 1, 3, ZERO_SETS, false).value, NEW_PAIR).Ok?
  {
    UpdateRankingFrame(PAIR, 1, 3, ZERO_SETS, false);
    hide UpdateRanking, WithMatch;
  }

  /** The program lets the ranking of a healthy database go to zero sets, without force, and the next match
      then has a set row its ranking does not ask for. */
  lemma ZeroSetsBreakTheNextMatch()
    ensures exists t, tournament, r, body, row ::
      && ForeignKeys(t) && ProgressOk(t) && UpdateRanking(t, tournament, r, body, false).Ok?
      && CreateMatch(UpdateRanking(t, tournament, r, body, false).value, row).Ok?
      && !ProgressOk(CreateMatch(UpdateRanking(t, tournament, r, body, false).value, row).value)
  {
    hide ForeignKeys, ProgressOk, UpdateRanking, CreateMatch;
    PairIsOk();
    PairGoesToZero();
    PairTakesMatch();
    EditThenMatch(PAIR, 1, 3, ZERO_SETS, false, NEW_PAIR);
  }

  /** An edit that succeeds without force moves no progress pointer, whatever the counts. */
  lemma UnforcedEditKeepsPointers(t: Tables, tournament: Id, r: Id, body: RankingBody)
    requires ProgressOk(t) && UpdateRanking(t, tournament, r, body, false).Ok?
    ensures var t' := UpdateRanking(t, tournament, r, body, false).value;
            t'.matches == t.matches
  {
    hide UpdateRanking, BreaksCheck, MatchesOfRanking, CountsFit, TrimmedMatches, ResizedSets, ChainRefers;
    UpdateRankingResizes(t, tournament, r, body, false);
    var n := NormaliseRules(body.rules).value.numSets;
    var was := t.rankings[r].rules.numSets;
    if n != was {
      var counts := Uniform(MatchesOfRanking(t, r), was);
      var edited := WithRules(t, r, body, NormaliseRules(body.rules).value);
      RankingCountsFit(t, r);
      SameCountsFit(t, edited, counts);
      forall m | m in counts ensures m in t.matches && !Active(t.matches[m].progress) { BelowRanking(t, r, m); }
      TrimIdle(edited, counts, n);
    }
  }

  lemma SameCountsFit(t: Tables, t': Tables, counts: Counts)
    requires CountsFit(t, counts) && t'.matches == t.matches && t'.matchSets == t.matchSets
    ensures CountsFit(t', counts)
  {
  }

  lemma BelowRanking(t: Tables, r: Id, m: Id)
    requires m in MatchesOfRanking(t, r)
    ensures m in t.matches && (Active(t.matches[m].progress) ==> HasActiveSets(t, r))
  {
  }

  lemma TrimIdle(t: Tables, counts: Counts, n: int)
    requires CountsFit(t, counts) && !BreaksCheck(t, counts, n)
    requires forall m | m in counts :: !Active(t.matches[m].progress)
    ensures TrimmedMatches(t.matches, counts, n) == t.matches
  {
    forall m | m in counts && Shrinks(counts, m, n)
      ensures Trim(t.matches[m].progress, n) == t.matches[m].progress
    {
      assert !BreaksAt(t, counts, n, m);
    }
  }

  /** An edit that succeeds without force changes the derived state of no match: a match under way keeps
      its sets and its rules, and an idle one is not started under any. */
  lemma UnforcedEditKeepsStates(t: Tables, tournament: Id, r: Id, body: RankingBody, m: Id)
    requires ProgressOk(t) && UpdateRanking(t, tournament, r, body, false).Ok? && m in t.matches
    ensures var t' := UpdateRanking(t, tournament, r, body, false).value;
            m in t'.matches && StateOfMatch(t', m) == StateOfMatch(t, m)
  {
    hide Resized, BreaksCheck, UpdateRanking, HasActiveSets, MatchState, Active, AllSetsFit, ChainRefers;
    UnforcedEditKeepsPointers(t, tournament, r, body);
    UpdateRankingKeeps(t, tournament, r, body, false);
    UpdateRankingFrame(t, tournament, r, body, false);
    UpdateRankingResizes(t, tournament, r, body, false);
    var t' := UpdateRanking(t, tournament, r, body, false).value;
    if m in MatchesOfRanking(t, r) && HasChanged(t, r, body) {
      UnforcedChangeIsIdle(t, tournament, r, body);
      IdleStaysNotStarted(t, t', m);
    } else {
      SameRowsAndRules(t, t', r, body, m);
    }
  }

  lemma IdleStaysNotStarted(t: Tables, t': Tables, m: Id)
    requires AllSetsFit(t) && AllSetsFit(t') && m in t.matches && m in t'.matches && t'.matches[m] == t.matches[m]
    requires !Active(t.matches[m].progress)
    ensures StateOfMatch(t', m) == StateOfMatch(t, m)
  {
    assert SetsFit(t, m) && SetsFit(t', m);
    hide MatchState;
    IdleIsNotStarted(RowsOf(t, m), NumSetsOf(t, m), PlayAllSetsOf(t, m));
    IdleIsNotStarted(RowsOf(t', m), NumSetsOf(t', m), PlayAllSetsOf(t', m));
  }

  lemma SameRowsAndRules(t: Tables, t': Tables, r: Id, body: RankingBody, m: Id)
    requires NormaliseRules(body.rules).Ok? && r in t.rankings && m in t.matches && t'.matches == t.matches
    requires var rules, was := NormaliseRules(body.rules).value, t.rankings[r].rules.numSets;
             var edited := WithRules(t, r, body, rules);
             t' == if rules.numSets == was then edited
                   else Resized(edited, Uniform(MatchesOfRanking(t, r), was), rules.numSets)
    requires m !in MatchesOfRanking(t, r) || !HasChanged(t, r, body)
    ensures StateOfMatch(t', m) == StateOfMatch(t, m)
  {
    hide MatchState;
    assert RowsOf(t', m) == RowsOf(t, m) && PlayAllSetsOf(t', m) == PlayAllSetsOf(t, m);
  }

  predicate HasChanged(t: Tables, r: Id, body: RankingBody)
    requires r in t.rankings
  {
    body.rules.numSets != t.rankings[r].rules.numSets || body.rules.playAllSets != t.rankings[r].rules.playAllSets
  }

  lemma UnforcedChangeIsIdle(t: Tables, tournament: Id, r: Id, body: RankingBody)
    requires UpdateRanking(t, tournament, r, body, false).Ok? && r in t.rankings && HasChanged(t, r, body)
    ensures forall m | m in MatchesOfRanking(t, r) :: !Active(t.matches[m].progress)
  {
    hide TryResize;
  }

  /** Edits keep the parity rules: the elimination check and the best-of-n rules together. */
  lemma UpdateRankingKeepsParity(t: Tables, tournament: Id, r: Id, body: RankingBody, force: bool)
    requires ParityOk(t) && Tenancy(t) && UpdateRanking(t, tournament, r, body, force).Ok?
    ensures ParityOk(UpdateRanking(t, tournament, r, body, force).value)
    ensures Tenancy(UpdateRanking(t, tournament, r, body, force).value)
  {
    UpdateRankingFrame(t, tournament, r, body, force);
    hide BreaksCheck, Resized;
    var rules := NormaliseRules(body.rules).value;
    var t' := UpdateRanking(t, tournament, r, body, force).value;
    forall i | i in t.stageItems && t.stageItems[i].kind == SingleElimination
      ensures t'.rankings[t.stageItems[i].ranking].rules.numSets % 2 == 1
    {
      assert t.stageItems[i].ranking == r ==> EliminationUses(t, tournament, r);
    }
  }

  /** A new ranking has no items yet, so it changes nothing for any match. */
  lemma CreateRankingKeeps(t: Tables, tournament: Id, body: RankingBody)
    requires ProgressOk(t) && ParityOk(t) && Tenancy(t) && CreateRanking(t, tournament, body).Ok?
    ensures var t' := CreateRanking(t, tournament, body).value; ProgressOk(t') && ParityOk(t') && Tenancy(t')
  {
    hide NextPosition;
    WithRankingKeeps(t, Ranking(tournament, None, NextPosition(t.rankings, tournament),
                                NormaliseRules(body.rules).value));
  }

  /** A new ranking comes after all others of its tournament. */
  lemma NewRankingIsLast(t: Tables, tournament: Id, body: RankingBody, r: Id)
    requires CreateRanking(t, tournament, body).Ok? && t.nextId !in t.rankings
    requires r in t.rankings && t.rankings[r].tournament == tournament
    ensures var t' := CreateRanking(t, tournament, body).value;
            t.nextId in t'.rankings && t'.rankings[r] == t.rankings[r]
            && t'.rankings[t.nextId].tournament == tournament && t.rankings[r].position < t'.rankings[t.nextId].position
  {
    assert r in Ids(t.rankings.Keys);
  }

  /** A creation goes through exactly when the body is no best-of-n of an even number and the tournament exists; then
      the ranking is stored as asked, one past the last position, or at zero as the first of its tournament. */
  lemma CreateRankingStores(t: Tables, tournament: Id, body: RankingBody)
    requires t.nextId !in t.rankings
    ensures var r := CreateRanking(t, tournament, body);
            && (r.Ok? <==> tournament in t.tournaments
                           && (body.rules.playAllSets || body.rules.numSets <= 1 || body.rules.numSets % 2 == 1))
            && (r.Err? ==> r.error in {Http(422), ForeignKeyViolation})
            && (r.Ok? ==>
                  var t', mine := r.value, RankingsOf(t, tournament);
                  && t' == t.(rankings := t'.rankings, nextId := t'.nextId) && t.nextId < t'.nextId
                  && t'.rankings.Keys == t.rankings.Keys + {t.nextId}
                  && (forall x | x in t.rankings :: t'.rankings[x] == t.rankings[x])
                  && t'.rankings[t.nextId].tournament == tournament && t'.rankings[t.nextId].level.None?
                  && StoresRules(t'.rankings[t.nextId].rules, body.rules)
                  && (if mine == {} then t'.rankings[t.nextId].position == 0
                      else exists x | x in mine :: t'.rankings[t.nextId].position == t.rankings[x].position + 1))
  {
    hide StoresRules, NormaliseRules, NextPosition, RankingsOf;
    NormalStores(body.rules);
    PositionAfterLast(t, tournament);
  }

  lemma PositionAfterLast(t: Tables, tournament: Id)
    ensures var mine, next := RankingsOf(t, tournament), NextPosition(t.rankings, tournament);
            && (forall x | x in mine :: x in t.rankings && t.rankings[x].position < next)
            && if mine == {} then next == 0 else exists x | x in mine :: next == t.rankings[x].position + 1
  {
    var order := Ids(t.rankings.Keys);
    assert forall r :: r in order <==> r in t.rankings;
    hide Ids, HighestPosition;
    AfterHighest(t, tournament, order, HighestPosition(t.rankings, tournament, order));
  }

  lemma AfterHighest(t: Tables, tournament: Id, order: seq<Id>, p: Option<int>)
    requires forall r :: r in order <==> r in t.rankings
    requires p.Some? <==> exists r | r in order :: t.rankings[r].tournament == tournament
    requires p.Some? ==>
               && (exists r | r in order :: t.rankings[r].tournament == tournament && t.rankings[r].position == p.value)
               && (forall r | r in order && t.rankings[r].tournament == tournament :: t.rankings[r].position <= p.value)
    ensures var mine, next := RankingsOf(t, tournament), (if p.Some? then p.value else -1) + 1;
            && (forall x | x in mine :: x in t.rankings && t.rankings[x].position < next)
            && if mine == {} then next == 0 else exists x | x in mine :: next == t.rankings[x].position + 1
  {
    EmptyOrHasMember(RankingsOf(t, tournament));
    if p.Some? {
      var r :| r in order && t.rankings[r].tournament == tournament && t.rankings[r].position == p.value;
      assert r in RankingsOf(t, tournament);
    } else {
      forall x ensures x !in RankingsOf(t, tournament) { assert x in t.rankings ==> x in order; }
    }
  }

  lemma WithRankingKeeps(t: Tables, row: Ranking)
    requires ProgressOk(t) && ParityOk(t) && Tenancy(t) && RulesSound(row.rules)
    ensures ProgressOk(WithRanking(t, row)) && ParityOk(WithRanking(t, row)) && Tenancy(WithRanking(t, row))
  {
    var t' := WithRanking(t, row);
    assert t.nextId !in t.rankings && t'.rankings[t.nextId] == row;
    forall m | m in t.matches ensures SetsFit(t', m) {
      assert SetsFit(t, m) && NumSetsOf(t', m) == NumSetsOf(t, m);
    }
  }

  /** Moving items of one tournament to a ranking of that tournament: the counts collected from the old
      rankings are the real ones, and afterwards each match has the new count. */
  lemma MoveCountsFit(t: Tables, tournament: Id, items: set<Id>, r: Id)
    requires ChainRefers(t) && AllSetsFit(t) && Tenancy(t)
    requires items <= t.stageItems.Keys && RankingIn(t, tournament, r).Some?
    requires forall i | i in items :: t.stages[t.stageItems[i].stage].tournament == tournament
    ensures var n := t.rankings[r].rules.numSets;
            var counts, e := MoveCounts(t, tournament, items, r, n), t.(stageItems := Moved(t.stageItems, items, r));
            && CountsFit(t, counts)
            && (forall m | m in t.matches :: NumSetsOf(e, m) == if m in counts then n else NumSetsOf(t, m))
  {
    var n := t.rankings[r].rules.numSets;
    forall m | m in t.matches ensures SetsFit(t, m) && t.matches[m].round in t.rounds {
    }
  }

  lemma ResizedFrame(t: Tables, counts: Counts, n: int)
    ensures var t' := Resized(t, counts, n); t' == t.(matches := t'.matches, matchSets := t'.matchSets)
  {
    hide ResizedSets, TrimmedMatches;
  }

  /** A move the CHECK lets through keeps the invariant, whatever the new number of sets. */
  lemma MoveKeeps(t: Tables, tournament: Id, items: set<Id>, r: Id)
    requires ProgressOk(t) && Tenancy(t)
    requires items <= t.stageItems.Keys && RankingIn(t, tournament, r).Some?
    requires forall i | i in items :: t.stages[t.stageItems[i].stage].tournament == tournament
    ensures var n := t.rankings[r].rules.numSets;
            var moved := TryResize(t, MoveCounts(t, tournament, items, r, n), n);
            && (moved.Err? ==> n < 0)
            && (moved.Ok? ==> ProgressOk(moved.value.(stageItems := Moved(t.stageItems, items, r)))
                              && Tenancy(moved.value.(stageItems := Moved(t.stageItems, items, r))))
  {
    hide MoveCounts, Moved, TryResize, AllSetsFit, ChainRefers, CountsFit, Tenancy, NumSetsOf;
    var n := t.rankings[r].rules.numSets;
    var counts, stageItems := MoveCounts(t, tournament, items, r, n), Moved(t.stageItems, items, r);
    MoveCountsFit(t, tournament, items, r);
    MoveReferences(t, items, r);
    MoveKeepsTenancy(t, tournament, items, r);
    CountsLetThrough(t, counts, n);
    if TryResize(t, counts, n).Ok? { MovedFits(t, stageItems, counts, n); }
  }

  lemma CountsLetThrough(t: Tables, counts: Counts, n: int)
    requires CountsFit(t, counts)
    ensures TryResize(t, counts, n).Err? ==> n < 0
  {
    hide Resized, BreaksCheck, CountsFit;
    if n >= 0 { ResizedFits(t, counts, n); }
  }

  lemma MovedFits(t: Tables, stageItems: map<Id, StageItem>, counts: Counts, n: int)
    requires AllSetsFit(t) && CountsFit(t, counts) && TryResize(t, counts, n).Ok?
    requires var e := t.(stageItems := stageItems);
             && ChainRefers(e) && Tenancy(e)
             && forall m | m in t.matches :: NumSetsOf(e, m) == if m in counts then n else NumSetsOf(t, m)
    ensures var t' := TryResize(t, counts, n).value.(stageItems := stageItems); ProgressOk(t') && Tenancy(t')
  {
    hide Resized, BreaksCheck, AllSetsFit, ChainRefers, CountsFit, Tenancy, NumSetsOf;
    ResizeIgnoresItems(t, stageItems, counts, n);
    FitsAfterTryResize(t, t.(stageItems := stageItems), counts, n);
    ResizedFrame(t, counts, n);
    SameTenancy(t.(stageItems := stageItems), TryResize(t, counts, n).value.(stageItems := stageItems));
  }

  lemma MoveKeepsTenancy(t: Tables, tournament: Id, items: set<Id>, r: Id)
    requires Tenancy(t) && items <= t.stageItems.Keys && RankingIn(t, tournament, r).Some?
    requires forall i | i in items :: t.stages[t.stageItems[i].stage].tournament == tournament
    ensures Tenancy(t.(stageItems := Moved(t.stageItems, items, r)))
  {
  }

  lemma SameTenancy(t: Tables, t': Tables)
    requires t'.stageItems == t.stageItems && t'.stages == t.stages && t'.rankings == t.rankings
    ensures (Tenancy(t') <==> Tenancy(t)) && (ParityOk(t') <==> ParityOk(t))
  {
  }

  lemma ResizeIgnoresItems(t: Tables, stageItems: map<Id, StageItem>, counts: Counts, n: int)
    ensures var e := t.(stageItems := stageItems);
            && Resized(e, counts, n) == Resized(t, counts, n).(stageItems := stageItems)
            && (BreaksCheck(e, counts, n) <==> BreaksCheck(t, counts, n))
  {
    var e := t.(stageItems := stageItems);
    assert ResizedSets(e, counts, n) == ResizedSets(t, counts, n);
    assert forall m | m in counts :: BreaksAt(e, counts, n, m) <==> BreaksAt(t, counts, n, m);
  }

  lemma MoveReferences(t: Tables, items: set<Id>, r: Id)
    requires ChainRefers(t) && r in t.rankings
    ensures ChainRefers(t.(stageItems := Moved(t.stageItems, items, r)))
  {
  }

  /** Reassigning a whole stage keeps every invariant. Beyond the checks it makes first, it fails only on a
      ranking of a negative number of sets. */
  lemma SetRankingForStageKeeps(t: Tables, tournament: Id, stage: Id, r: Id)
    requires ProgressOk(t) && Tenancy(t) && ParityOk(t)
    ensures var result := SetRankingForStage(t, tournament, stage, r);
            && (result.Err? ==> result.error.Http? ||
                                (result.error == CheckViolation && r in t.rankings && t.rankings[r].rules.numSets < 0))
            && (result.Ok? ==> ProgressOk(result.value) && Tenancy(result.value) && ParityOk(result.value))
  {
    hide Resized, BreaksCheck, MoveCounts, ProgressOk, Moved;
    var result := SetRankingForStage(t, tournament, stage, r);
    if stage in t.stages && t.stages[stage].tournament == tournament && RankingIn(t, tournament, r).Some? {
      MoveKeeps(t, tournament, ItemsOfStage(t, stage), r);
      var n := t.rankings[r].rules.numSets;
      ResizedFrame(t, MoveCounts(t, tournament, ItemsOfStage(t, stage), r, n), n);
      if result.Ok? { MoveKeepsParity(t, result.value, tournament, stage, r); }
    }
  }

  lemma MoveTouches(t: Tables, tournament: Id, items: set<Id>, r: Id, m: Id)
    requires ChainRefers(t) && AllSetsFit(t) && Tenancy(t) && m in t.matches
    requires items <= t.stageItems.Keys && RankingIn(t, tournament, r).Some?
    requires forall i | i in items :: t.stages[t.stageItems[i].stage].tournament == tournament
    ensures var n := t.rankings[r].rules.numSets;
            && t.matches[m].round in t.rounds && NumSetsOf(t, m) >= 0
            && (if t.rounds[t.matches[m].round].stageItem in items
                then m in MoveCounts(t, tournament, items, r, n) || NumSetsOf(t, m) == n
                else m !in MoveCounts(t, tournament, items, r, n))
  {
    assert SetsFit(t, m);
    hide IdsBelowSequence, RowsAre, MatchSetsRefer, AllSetsFit;
  }

  /** No match has a negative number of sets, so one that still has another ranking than `r` is resized to a negative
      number. */
  lemma NegativeMove(t: Tables, tournament: Id, items: set<Id>, r: Id)
    requires ChainRefers(t) && AllSetsFit(t) && Tenancy(t)
    requires items <= t.stageItems.Keys && RankingIn(t, tournament, r).Some? && t.rankings[r].rules.numSets < 0
    requires forall i | i in items :: t.stages[t.stageItems[i].stage].tournament == tournament
    ensures forall m | m in t.matches :: t.matches[m].round in t.rounds
    ensures MoveCounts(t, tournament, items, r, t.rankings[r].rules.numSets) == map[] <==>
              forall m | m in t.matches :: t.rounds[t.matches[m].round].stageItem !in items
  {
    hide ChainRefers, AllSetsFit, Tenancy, NumSetsOf, MoveCounts;
    var counts := MoveCounts(t, tournament, items, r, t.rankings[r].rules.numSets);
    MoveCountsKnown(t, tournament, items, r, t.rankings[r].rules.numSets);
    forall m | m in t.matches
      ensures t.matches[m].round in t.rounds
      ensures t.rounds[t.matches[m].round].stageItem in items <==> m in counts
    {
      MoveTouches(t, tournament, items, r, m);
    }
    EmptyOrHasMember(counts.Keys);
    assert counts.Keys == {} ==> counts == map[];
  }

  lemma MoveCountsKnown(t: Tables, tournament: Id, items: set<Id>, r: Id, n: int)
    ensures MoveCounts(t, tournament, items, r, n).Keys <= t.matches.Keys
  {
  }

  /** The match is one of the stage. */
  predicate InStage(t: Tables, stage: Id, m: Id)
    requires m in t.matches
  {
    && t.matches[m].round in t.rounds && t.rounds[t.matches[m].round].stageItem in t.stageItems
    && t.stageItems[t.rounds[t.matches[m].round].stageItem].stage == stage
  }

  /** Why a reassignment is refused, in the order in which the request looks. */
  ghost function MoveRefused(t: Tables, tournament: Id, stage: Id, r: Id): (e: Option<Error>) {
    if stage !in t.stages || t.stages[stage].tournament != tournament || r !in t.rankings
       || t.rankings[r].tournament != tournament
    then Some(Http(404))
    else if t.rankings[r].rules.numSets % 2 == 0
            && (exists i | i in t.stageItems ::
                  t.stageItems[i].stage == stage && t.stageItems[i].kind == SingleElimination)
    then Some(Http(422))
    else if t.rankings[r].rules.numSets < 0 && (exists m | m in t.matches :: InStage(t, stage, m))
    then Some(CheckViolation)
    else None
  }

  /** A reassignment goes through exactly when nothing refuses it; then every item of the stage has the ranking, every
      match of the stage is resized to its number of sets, and nothing else changes. */
  lemma SetRankingForStageStores(t: Tables, tournament: Id, stage: Id, r: Id)
    requires ProgressOk(t) && Tenancy(t)
    ensures var result, refused := SetRankingForStage(t, tournament, stage, r), MoveRefused(t, tournament, stage, r);
            && (refused.Some? ==> result == Err(refused.value))
            && (refused.None? ==> result.Ok?)
    ensures SetRankingForStage(t, tournament, stage, r).Ok? ==>
              StageReassigned(t, SetRankingForStage(t, tournament, stage, r).value, stage, r)
  {
    hide ProgressOk, Tenancy, MoveCounts, Moved, TryResize, CountsFit, InStage, StageReassigned;
    if stage in t.stages && t.stages[stage].tournament == tournament && RankingIn(t, tournament, r).Some? {
      var n, items := t.rankings[r].rules.numSets, ItemsOfStage(t, stage);
      var counts := MoveCounts(t, tournament, items, r, n);
      StageCounts(t, tournament, stage, r);
      ResizesExactly(t, counts, n);
      if SetRankingForStage(t, tournament, stage, r).Ok? {
        StageMoves(t, TryResize(t, counts, n).value, tournament, stage, r);
      }
    }
  }

  lemma StageCounts(t: Tables, tournament: Id, stage: Id, r: Id)
    requires ProgressOk(t) && Tenancy(t) && RankingIn(t, tournament, r).Some?
    requires stage in t.stages && t.stages[stage].tournament == tournament
    ensures var n := t.rankings[r].rules.numSets;
            var counts := MoveCounts(t, tournament, ItemsOfStage(t, stage), r, n);
            && CountsFit(t, counts)
            && (n < 0 ==> (counts == map[] <==> forall m | m in t.matches :: !InStage(t, stage, m)))
            && (forall m | m in t.matches :: if InStage(t, stage, m) then m in counts || NumSetsOf(t, m) == n
                                             else m !in counts)
  {
    hide MoveCounts, CountsFit, AllSetsFit, NumSetsOf, Tenancy, ChainRefers, InStage;
    var n, items := t.rankings[r].rules.numSets, ItemsOfStage(t, stage);
    MoveCountsFit(t, tournament, items, r);
    forall m | m in t.matches
      ensures t.matches[m].round in t.rounds
      ensures InStage(t, stage, m) <==> t.rounds[t.matches[m].round].stageItem in items
      ensures if InStage(t, stage, m) then m in MoveCounts(t, tournament, items, r, n) || NumSetsOf(t, m) == n
              else m !in MoveCounts(t, tournament, items, r, n)
    {
      MoveTouches(t, tournament, items, r, m);
      StageHasItem(t, stage, m);
    }
    if n < 0 { NegativeMove(t, tournament, items, r); }
  }

  lemma StageHasItem(t: Tables, stage: Id, m: Id)
    requires m in t.matches && t.matches[m].round in t.rounds
    ensures InStage(t, stage, m) <==> t.rounds[t.matches[m].round].stageItem in ItemsOfStage(t, stage)
  {
  }

  lemma StageMoves(t: Tables, t1: Tables, tournament: Id, stage: Id, r: Id)
    requires ProgressOk(t) && RankingIn(t, tournament, r).Some?
    requires t1 == t.(matches := t1.matches, matchSets := t1.matchSets) && t1.matches.Keys == t.matches.Keys
    requires var n := t.rankings[r].rules.numSets;
             var counts := MoveCounts(t, tournament, ItemsOfStage(t, stage), r, n);
             && (forall m | m in t.matches :: if InStage(t, stage, m) then m in counts || NumSetsOf(t, m) == n
                                              else m !in counts)
             && (forall m | m in t.matches :: if m in counts then MatchResized(t, t1, m, n)
                                              else MatchUntouched(t, t1, m))
    ensures StageReassigned(t, t1.(stageItems := Moved(t.stageItems, ItemsOfStage(t, stage), r)), stage, r)
  {
    hide MoveCounts, InStage, NumSetsOf;
    var t' := t1.(stageItems := Moved(t.stageItems, ItemsOfStage(t, stage), r));
    forall m | m in t.matches
      ensures if InStage(t, stage, m) then MatchResized(t, t', m, t.rankings[r].rules.numSets)
              else MatchUntouched(t, t', m)
    {
      SameSetsElsewhere(t, t1, t', m, t.rankings[r].rules.numSets);
      assert SetsFit(t, m);
      if MatchUntouched(t, t', m) && NumSetsOf(t, m) == t.rankings[r].rules.numSets {
        AlreadyResized(t, t', m, t.rankings[r].rules.numSets);
      }
    }
  }

  lemma SameSetsElsewhere(t: Tables, t1: Tables, t': Tables, m: Id, n: int)
    requires m in t.matches && t'.matches == t1.matches && t'.matchSets == t1.matchSets
    ensures MatchResized(t, t', m, n) <==> MatchResized(t, t1, m, n)
    ensures MatchUntouched(t, t', m) <==> MatchUntouched(t, t1, m)
  {
  }

  /** What a reassignment of a stage leaves behind. */
  ghost predicate StageReassigned(t: Tables, t': Tables, stage: Id, r: Id) {
    && r in t.rankings
    && t' == t.(stageItems := t'.stageItems, matches := t'.matches, matchSets := t'.matchSets)
    && t'.stageItems.Keys == t.stageItems.Keys && t'.matches.Keys == t.matches.Keys
    && (forall i | i in t.stageItems ::
          t'.stageItems[i] == if t.stageItems[i].stage == stage then t.stageItems[i].(ranking := r)
                              else t.stageItems[i])
    && forall m | m in t.matches ::
         if InStage(t, stage, m) then MatchResized(t, t', m, t.rankings[r].rules.numSets) else MatchUntouched(t, t', m)
  }

  lemma MoveKeepsParity(t: Tables, t': Tables, tournament: Id, stage: Id, r: Id)
    requires RankingIn(t, tournament, r).Some? && t'.rankings == t.rankings
    requires t'.stageItems == Moved(t.stageItems, ItemsOfStage(t, stage), r)
    requires t.rankings[r].rules.numSets % 2 == 0 ==> forall i | i in ItemsOfStage(t, stage) ::
              t.stageItems[i].kind != SingleElimination
    ensures ParityOk(t) ==> ParityOk(t')
  {
  }
}
