/** The set rows of matches: creation with a match, the progress steps of one match, and the resize
    that follows a change of a ranking's number of sets. */
module MatchSets {
  import opened Schema
  import opened Progress

  const ZERO := Score(0, 0)

  /** How a request or statement ended: Ok leaves the promised tables, an error leaves the old ones. */
  ghost predicate Ended(result: Result<Tables>, before: Tables, after: Tables, error: Option<Error>) {
    match result
    case Ok(t) => error == None && after == t
    case Err(e) => error == Some(e) && after == before
  }

  /** The ids in ascending order. */
  function Ids(ids: set<Id>): (order: seq<Id>)
    ensures |order| == |ids| && forall x :: x in order <==> x in ids
    ensures forall i, j | 0 <= i < j < |order| :: order[i] < order[j]
  {
    SortedBy(ids, map x | x in ids :: x)
  }

  // ---------------------------------------------------------------- reading

  function RowsOf(t: Tables, m: Id): Rows {
    if m in t.matchSets then t.matchSets[m] else map[]
  }

  /** The ranking a round's stage item uses, if the joins find it. */
  function RankingOfRound(t: Tables, r: Id): Option<Ranking> {
    if r in t.rounds && t.rounds[r].stageItem in t.stageItems
       && t.stageItems[t.rounds[r].stageItem].ranking in t.rankings
    then Some(t.rankings[t.stageItems[t.rounds[r].stageItem].ranking])
    else None
  }

  function NumSetsForRound(t: Tables, r: Id): int {
    var ranking := RankingOfRound(t, r);
    if ranking.Some? then ranking.value.rules.numSets else 1
  }

  function NumSetsOf(t: Tables, m: Id): int
    requires m in t.matches
  {
    NumSetsForRound(t, t.matches[m].round)
  }

  function PlayAllSetsOf(t: Tables, m: Id): bool
    requires m in t.matches
  {
    var ranking := RankingOfRound(t, t.matches[m].round);
    if ranking.Some? then ranking.value.rules.playAllSets else true
  }

  function StateOfMatch(t: Tables, m: Id): State
    requires m in t.matches
  {
    MatchState(t.matches[m].progress, RowsOf(t, m), PlayAllSetsOf(t, m))
  }

  function MatchesOfItem(t: Tables, i: Id): set<Id> {
    set m | m in t.matches && t.matches[m].round in t.rounds
            && t.rounds[t.matches[m].round].stageItem == i
  }

  function MatchesOfRanking(t: Tables, r: Id): set<Id> {
    set m | m in t.matches && t.matches[m].round in t.rounds
            && t.rounds[t.matches[m].round].stageItem in t.stageItems
            && t.stageItems[t.rounds[t.matches[m].round].stageItem].ranking == r
  }

  // ---------------------------------------------------------------- the invariant

  ghost predicate SetsFit(t: Tables, m: Id)
    requires m in t.matches
  {
    var n := NumSetsOf(t, m);
    Fits(t.matches[m].progress, n) && RowsAre(RowsOf(t, m), n)
  }

  ghost predicate AllSetsFit(t: Tables) {
    forall m | m in t.matches :: SetsFit(t, m)
  }

  /** The references a match's set count is looked up through. */
  ghost predicate ChainRefers(t: Tables) {
    && StageItemsRefer(t.stageItems, t.stages.Keys, t.rankings.Keys)
    && RoundsRefer(t.rounds, t.stageItems.Keys)
    && MatchSetsRefer(t.matchSets, t.matches.Keys)
    && IdsBelowSequence(t)
    && forall m | m in t.matches :: t.matches[m].round in t.rounds
  }

  /** Every match has exactly the set rows 1..num_sets of its ranking, and a pointer into them. */
  ghost predicate ProgressOk(t: Tables) {
    ChainRefers(t) && AllSetsFit(t)
  }

  /** Under the invariant the number of set rows, which the progress steps count, is the number of
      sets the ranking asks for. */
  lemma RowCountIsNumSets(t: Tables, m: Id)
    requires ProgressOk(t) && m in t.matches
    ensures RowsAre(RowsOf(t, m), NumSetsOf(t, m))
    ensures |RowsOf(t, m)| == NumSetsOf(t, m)
  {
    assert SetsFit(t, m);
    CountRows(RowsOf(t, m), NumSetsOf(t, m));
    assert t.matches[m].round in t.rounds;
  }

  // ---------------------------------------------------------------- creating a match

  /** The rows generate_series(first, last) inserts, all at 0-0. */
  function NewSets(first: int, last: int): (rows: Rows)
    ensures forall k: int :: k in rows <==> first <= k <= last
    ensures forall k | k in rows :: rows[k] == ZERO
    decreases if last < first then 0 else last - first + 1
  {
    if last < first then map[] else NewSets(first, last - 1)[last := ZERO]
  }

  function Max(x: int, y: int): int { if x < y then y else x }
  function Min(x: int, y: int): int { if x < y then x else y }

  /** A match row as inserted: every column the insert does not name has its default. */
  function Inserted(row: Match): Match {
    row.(referee := None, refereeName := None, completedAt := None, progress := RESET)
  }

  /** The match and its set rows, under the next id. */
  function WithMatch(t: Tables, row: Match): Tables {
    t.(matches := t.matches[t.nextId := Inserted(row)],
       matchSets := t.matchSets[t.nextId := NewSets(1, Max(NumSetsForRound(t, row.round), 1))],
       nextId := t.nextId + 1)
  }

  function CreateMatch(t: Tables, row: Match): Result<Tables> {
    if !MatchRefers(Inserted(row), t.rounds.Keys, t.inputs.Keys, t.matches.Keys, t.courts.Keys)
    then Err(ForeignKeyViolation)
    else Ok(WithMatch(t, row))
  }

  method SqlCreateMatchSets(db: Database, m: Id, numSets: int)
    modifies db`matchSets
    ensures db.matchSets == old(db.matchSets)[m := NewSets(1, Max(numSets, 1))]
  {
    db.matchSets := db.matchSets[m := NewSets(1, Max(numSets, 1))];
  }

  method SqlCreateMatch(db: Database, row: Match) returns (id: Id, error: Option<Error>)
    modifies db`matches, db`matchSets, db`nextId
    ensures id == old(db.nextId)
    ensures Ended(CreateMatch(old(db.Snapshot()), row), old(db.Snapshot()), db.Snapshot(), error)
  {
    id, error := db.nextId, None;
    if !MatchRefers(Inserted(row), db.rounds.Keys, db.inputs.Keys, db.matches.Keys, db.courts.Keys) {
      return id, Some(ForeignKeyViolation);
    }
    var numSets := NumSetsForRound(db.Snapshot(), row.round);
    db.matches, db.nextId := db.matches[id := Inserted(row)], id + 1;
    SqlCreateMatchSets(db, id, numSets);
  }

  /** A match fits its sets independently of every row but its own. */
  lemma FitsFrame(t: Tables, t': Tables, m: Id)
    requires m in t.matches && m in t'.matches
    requires t'.matches[m].progress == t.matches[m].progress
    requires NumSetsOf(t', m) == NumSetsOf(t, m)
    requires RowsOf(t', m).Keys == RowsOf(t, m).Keys
    ensures SetsFit(t', m) <==> SetsFit(t, m)
  {
  }

  lemma WithMatchRefers(t: Tables, row: Match)
    requires ChainRefers(t) && row.round in t.rounds
    ensures t.nextId !in t.matches && ChainRefers(WithMatch(t, row))
  {
  }

  /** Adding a match keeps the invariant exactly when the ranking it comes under asks for at least one
      set: a match always gets a set row, and its pointer has to fit. Every other match fits as before. */
  lemma WithMatchFits(t: Tables, row: Match)
    requires ProgressOk(t) && row.round in t.rounds
    ensures var t' := WithMatch(t, row);
            && ChainRefers(t') && (forall m | m in t.matches :: SetsFit(t', m))
            && (ProgressOk(t') <==> NumSetsForRound(t, row.round) >= 1)
  {
    var t' := WithMatch(t, row);
    var id, n := t.nextId, NumSetsForRound(t, row.round);
    WithMatchRefers(t, row);
    forall m | m in t.matches ensures SetsFit(t', m) {
      FitsFrame(t, t', m);
    }
    assert NumSetsOf(t', id) == n;
    assert SetsFit(t', id) <==> n >= 1 by {
      if n < 1 { assert 1 in RowsOf(t', id); }
    }
  }

  /** The same of the statement that creates a match. */
  lemma CreateMatchFits(t: Tables, row: Match)
    requires ProgressOk(t) && CreateMatch(t, row).Ok?
    ensures ProgressOk(CreateMatch(t, row).value) <==> NumSetsForRound(t, row.round) >= 1
  {
    WithMatchFits(t, row);
  }

  // ---------------------------------------------------------------- progress of one match

  function SetProgress(t: Tables, m: Id, p: Pointer): Tables
    requires m in t.matches
  {
    t.(matches := t.matches[m := t.matches[m].(progress := p)])
  }

  function AfterStep(t: Tables, m: Id, step: Result<Pointer>): Result<Tables>
    requires m in t.matches
  {
    match step
    case Ok(p) => Ok(SetProgress(t, m, p))
    case Err(e) => Err(e)
  }

  function StartMatch(t: Tables, m: Id): Result<Tables> {
    if m !in t.matches then Err(NotFound) else
      var rows := RowsOf(t, m);
      var decided := IsDecided(t.matches[m].progress, rows, PlayAllSetsOf(t, m));
      AfterStep(t, m, Start(t.matches[m].progress, |rows|, decided))
  }

  function EndMatch(t: Tables, m: Id): Result<Tables> {
    if m !in t.matches then Err(NotFound) else AfterStep(t, m, End(t.matches[m].progress))
  }

  function ReopenMatch(t: Tables, m: Id): Result<Tables> {
    if m !in t.matches then Err(NotFound) else AfterStep(t, m, Reopen(t.matches[m].progress))
  }

  function Zeroed(rows: Rows): Rows {
    map k | k in rows :: ZERO
  }

  /** Scores back to 0-0, the pointer back to the start, and no completion time. */
  function ResetMatch(t: Tables, m: Id): Result<Tables> {
    if m !in t.matches then Err(NotFound)
    else Ok(t.(matches := t.matches[m := t.matches[m].(progress := RESET, completedAt := None)],
               matchSets := t.matchSets[m := Zeroed(RowsOf(t, m))]))
  }

  function EditScore(t: Tables, m: Id, k: int, score: Score): Result<Tables> {
    if m !in t.matches || k !in RowsOf(t, m) then Err(NotFound)
    else Ok(t.(matchSets := t.matchSets[m := RowsOf(t, m)[k := score]]))
  }

  method LockMatchPointer(db: Database, m: Id) returns (lock: Result<(Pointer, int)>)
    ensures lock == if m !in db.matches then Err(NotFound)
                    else Ok((db.matches[m].progress, |RowsOf(db.Snapshot(), m)|))
  {
    if m !in db.matches {
      return Err(NotFound);
    }
    return Ok((db.matches[m].progress, |RowsOf(db.Snapshot(), m)|));
  }

  method UpdateMatchPointer(db: Database, m: Id, p: Pointer)
    modifies db`matches
    ensures db.matches == if m in old(db.matches) then old(db.matches)[m := old(db.matches)[m].(progress := p)]
                          else old(db.matches)
  {
    if m in db.matches {
      db.matches := db.matches[m := db.matches[m].(progress := p)];
    }
  }

  method SqlStartMatch(db: Database, m: Id) returns (error: Option<Error>)
    modifies db`matches
    ensures Ended(StartMatch(old(db.Snapshot()), m), old(db.Snapshot()), db.Snapshot(), error)
  {
    var lock := LockMatchPointer(db, m);
    if lock.Err? { return Some(lock.error); }
    var (p, numSets) := lock.value;
    var decided := IsDecided(p, RowsOf(db.Snapshot(), m), PlayAllSetsOf(db.Snapshot(), m));
    var next := Start(p, numSets, decided);
    if next.Err? { return Some(next.error); }
    UpdateMatchPointer(db, m, next.value);
    return None;
  }

  method SqlEndMatch(db: Database, m: Id) returns (error: Option<Error>)
    modifies db`matches
    ensures Ended(EndMatch(old(db.Snapshot()), m), old(db.Snapshot()), db.Snapshot(), error)
  {
    var lock := LockMatchPointer(db, m);
    if lock.Err? { return Some(lock.error); }
    var next := End(lock.value.0);
    if next.Err? { return Some(next.error); }
    UpdateMatchPointer(db, m, next.value);
    return None;
  }

  method SqlReopenMatch(db: Database, m: Id) returns (error: Option<Error>)
    modifies db`matches
    ensures Ended(ReopenMatch(old(db.Snapshot()), m), old(db.Snapshot()), db.Snapshot(), error)
  {
    var lock := LockMatchPointer(db, m);
    if lock.Err? { return Some(lock.error); }
    var next := Reopen(lock.value.0);
    if next.Err? { return Some(next.error); }
    UpdateMatchPointer(db, m, next.value);
    return None;
  }

  method SqlResetMatch(db: Database, m: Id) returns (error: Option<Error>)
    modifies db`matches, db`matchSets
    ensures Ended(ResetMatch(old(db.Snapshot()), m), old(db.Snapshot()), db.Snapshot(), error)
  {
    var lock := LockMatchPointer(db, m);
    if lock.Err? { return Some(lock.error); }
    db.matchSets := db.matchSets[m := Zeroed(RowsOf(db.Snapshot(), m))];
    db.matches := db.matches[m := db.matches[m].(progress := RESET, completedAt := None)];
    return None;
  }

  method SqlScoreEditMatchSet(db: Database, m: Id, k: int, score: Score) returns (error: Option<Error>)
    modifies db`matchSets
    ensures Ended(EditScore(old(db.Snapshot()), m, k, score), old(db.Snapshot()), db.Snapshot(), error)
  {
    if m !in db.matches || k !in RowsOf(db.Snapshot(), m) { return Some(NotFound); }
    db.matchSets := db.matchSets[m := RowsOf(db.Snapshot(), m)[k := score]];
    return None;
  }

  /** Every progress step and every score edit keeps the invariant. */
  lemma StepsKeepProgressOk(t: Tables, m: Id, k: int, score: Score)
    requires ProgressOk(t)
    ensures StartMatch(t, m).Ok? ==> ProgressOk(StartMatch(t, m).value)
    ensures EndMatch(t, m).Ok? ==> ProgressOk(EndMatch(t, m).value)
    ensures ReopenMatch(t, m).Ok? ==> ProgressOk(ReopenMatch(t, m).value)
    ensures ResetMatch(t, m).Ok? ==> ProgressOk(ResetMatch(t, m).value)
    ensures EditScore(t, m, k, score).Ok? ==> ProgressOk(EditScore(t, m, k, score).value)
  {
    if m in t.matches {
      RowCountIsNumSets(t, m);
      var p := t.matches[m].progress;
      var decided := IsDecided(p, RowsOf(t, m), PlayAllSetsOf(t, m));
      var start := Start(p, |RowsOf(t, m)|, decided);
      if start.Ok? { SetProgressKeeps(t, m, start.value); }
      if End(p).Ok? { SetProgressKeeps(t, m, End(p).value); }
      if Reopen(p).Ok? { SetProgressKeeps(t, m, Reopen(p).value); }
      ResetKeeps(t, m);
      if k in RowsOf(t, m) { EditKeeps(t, m, k, score); }
    }
  }

  /** A reset match starts over: every set is there, at 0-0, and the match is not started. */
  lemma ResetStartsOver(t: Tables, m: Id)
    requires ProgressOk(t) && m in t.matches
    ensures var t' := ResetMatch(t, m).value;
            && m in t'.matches && StateOfMatch(t', m) == NotStarted && t'.matches[m].completedAt == None
            && RowsOf(t', m).Keys == RowsOf(t, m).Keys && forall k | k in RowsOf(t', m) :: RowsOf(t', m)[k] == ZERO
  {
    var t' := ResetMatch(t, m).value;
    assert SetsFit(t, m);
    IdleIsNotStarted(RowsOf(t', m), NumSetsOf(t, m), PlayAllSetsOf(t', m));
  }

  /** Some set of the match has this state. */
  ghost predicate HasSet(t: Tables, m: Id, s: State)
    requires m in t.matches
  {
    exists k :: k in RowsOf(t, m) && StateOf(t.matches[m].progress, k) == s
  }

  lemma StatesOnScreen(t: Tables, m: Id)
    requires ProgressOk(t) && m in t.matches
    ensures var p, n := t.matches[m].progress, NumSetsOf(t, m);
            && (HasSet(t, m, InProgress) <==> p.inProgress) && (HasSet(t, m, Completed) <==> p.completed > 0)
            && |RowsOf(t, m)| == n && Fits(p, n) && RowsAre(RowsOf(t, m), n)
  {
    var p := t.matches[m].progress;
    RowCountIsNumSets(t, m);
    assert SetsFit(t, m);
    if p.inProgress { assert p.completed + 1 in RowsOf(t, m) && StateOf(p, p.completed + 1) == InProgress; }
    if p.completed > 0 { assert 1 in RowsOf(t, m) && StateOf(p, 1) == Completed; }
  }

  /** A match can be started exactly when it has a set, no set is being played, and the match is not over. */
  lemma StartsExactly(t: Tables, m: Id)
    requires ProgressOk(t)
    ensures StartMatch(t, m).Ok? <==>
              && m in t.matches && RowsOf(t, m) != map[] && !HasSet(t, m, InProgress)
              && StateOfMatch(t, m) != Completed
    ensures StartMatch(t, m).Err? ==>
              StartMatch(t, m).error == if m in t.matches then IllegalTransition else NotFound
  {
    if m in t.matches {
      StatesOnScreen(t, m);
      var p, rows, n := t.matches[m].progress, RowsOf(t, m), NumSetsOf(t, m);
      MatchStatesAgree(p, rows, n, PlayAllSetsOf(t, m));
      assert rows == map[] <==> n == 0 by { assert n > 0 ==> 1 in rows; }
      if p.completed == 0 { NothingWon(p, rows, PlayAllSetsOf(t, m)); }
      hide IsDecided, HasSet, MatchState;
    }
  }

  /** A set can be ended exactly when one is being played, and one can be reopened exactly when one is completed. */
  lemma EndsExactly(t: Tables, m: Id)
    requires ProgressOk(t)
    ensures EndMatch(t, m).Ok? <==> m in t.matches && HasSet(t, m, InProgress)
    ensures ReopenMatch(t, m).Ok? <==> m in t.matches && HasSet(t, m, Completed)
    ensures EndMatch(t, m).Err? ==> EndMatch(t, m).error == if m in t.matches then IllegalTransition else NotFound
    ensures ReopenMatch(t, m).Err? ==>
              ReopenMatch(t, m).error == if m in t.matches then IllegalTransition else NotFound
  {
    if m in t.matches { StatesOnScreen(t, m); }
  }

  /** Whatever a step does, it does to one match: that match keeps its other columns and every other match its row and
      its sets; its own sets keep their scores, but for a reset. */
  lemma StepsTouchOneMatch(t: Tables, m: Id)
    ensures forall r | r in [StartMatch(t, m), EndMatch(t, m), ReopenMatch(t, m)] && r.Ok? ::
              && m in t.matches && m in r.value.matches
              && r.value == t.(matches := t.matches[m := t.matches[m].(progress := r.value.matches[m].progress)])
    ensures ResetMatch(t, m).Ok? <==> m in t.matches
    ensures ResetMatch(t, m).Ok? ==>
              var t' := ResetMatch(t, m).value;
              && t' == t.(matches := t'.matches, matchSets := t'.matchSets) && t'.matches.Keys == t.matches.Keys
              && t'.matches[m] == t.matches[m].(progress := RESET, completedAt := None)
              && forall x | x in t.matches && x != m ::
                   t'.matches[x] == t.matches[x] && RowsOf(t', x) == RowsOf(t, x)
  {
  }

  /** A score edit writes both sides of one set of one match, each where it belongs, and nothing else. */
  lemma EditsOneScore(t: Tables, m: Id, k: int, score: Score)
    ensures EditScore(t, m, k, score).Ok? <==> m in t.matches && k in RowsOf(t, m)
    ensures EditScore(t, m, k, score).Err? ==> EditScore(t, m, k, score).error == NotFound
    ensures EditScore(t, m, k, score).Ok? ==>
              var t' := EditScore(t, m, k, score).value;
              && t' == t.(matchSets := t'.matchSets)
              && RowsOf(t', m).Keys == RowsOf(t, m).Keys
              && RowsOf(t', m)[k].first == score.first && RowsOf(t', m)[k].second == score.second
              && (forall j | j in RowsOf(t, m) && j != k :: RowsOf(t', m)[j] == RowsOf(t, m)[j])
              && (forall x | x != m :: RowsOf(t', x) == RowsOf(t, x))
  {
  }

  lemma SetProgressKeeps(t: Tables, m: Id, p: Pointer)
    requires ProgressOk(t) && m in t.matches && Fits(p, NumSetsOf(t, m))
    ensures ProgressOk(SetProgress(t, m, p))
  {
    var t' := SetProgress(t, m, p);
    forall x | x in t'.matches ensures SetsFit(t', x) {
      assert SetsFit(t, x);
      if x != m { FitsFrame(t, t', x); }
    }
  }

  lemma ResetKeeps(t: Tables, m: Id)
    requires ProgressOk(t) && m in t.matches
    ensures ProgressOk(ResetMatch(t, m).value)
  {
    var t' := ResetMatch(t, m).value;
    forall x | x in t'.matches ensures SetsFit(t', x) {
      assert SetsFit(t, x);
      if x != m { FitsFrame(t, t', x); }
    }
  }

  lemma EditKeeps(t: Tables, m: Id, k: int, score: Score)
    requires ProgressOk(t) && m in t.matches && k in RowsOf(t, m)
    ensures ProgressOk(t.(matchSets := t.matchSets[m := RowsOf(t, m)[k := score]]))
  {
    var t' := t.(matchSets := t.matchSets[m := RowsOf(t, m)[k := score]]);
    forall x | x in t'.matches ensures SetsFit(t', x) {
      FitsFrame(t, t', x);
    }
  }
}
