/** Progress of one match: the compact pointer, the per-set states derived from it, and the state of
    the match, which the program computes in two different ways. */
module Progress {
  import opened Schema

  /** The states of a set; a match has the same three. */
  datatype State = NotStarted | InProgress | Completed

  /** The CASE expression every query uses to derive the state of set number `k`. */
  function StateOf(p: Pointer, k: int): State {
    if k <= p.completed then Completed
    else if k == p.completed + 1 && p.inProgress then InProgress
    else NotStarted
  }

  /** A pointer into `n` sets: never past the last one, and no set in progress beyond it. */
  predicate Fits(p: Pointer, n: int) {
    0 <= p.completed <= n && (p.inProgress ==> p.completed < n)
  }

  // ---------------------------------------------------------------- pointer steps

  function Start(p: Pointer, numSets: int, decided: bool): Result<Pointer> {
    if p.inProgress then Err(IllegalTransition)
    else if p.completed >= numSets then Err(IllegalTransition)
    else if decided then Err(IllegalTransition)
    else Ok(Pointer(p.completed, true))
  }

  function End(p: Pointer): Result<Pointer> {
    if !p.inProgress then Err(IllegalTransition) else Ok(Pointer(p.completed + 1, false))
  }

  function Reopen(p: Pointer): Result<Pointer> {
    if p.completed <= 0 then Err(IllegalTransition) else Ok(Pointer(p.completed - 1, true))
  }

  const RESET := Pointer(0, false)

  /** A start is possible when no set is open, the last is not completed and the match is not decided; an end when a set
      is open; a reopening when the first set is completed. Each step keeps the pointer inside its sets and changes the
      derived states in exactly the way its name says: start opens the first set not started, end completes the open
      set, reopen opens the last completed set and drops the one that was open. */
  lemma StepsMoveOneSet(p: Pointer, n: int, decided: bool, k: int)
    requires Fits(p, n) && 1 <= k <= n
    ensures Start(p, n, decided).Ok? <==>
              !decided && StateOf(p, n) != Completed && forall j | 1 <= j <= n :: StateOf(p, j) != InProgress
    ensures End(p).Ok? <==> exists j | 1 <= j <= n :: StateOf(p, j) == InProgress
    ensures Reopen(p).Ok? <==> StateOf(p, 1) == Completed
    ensures var r := Start(p, n, decided);
            r.Ok? ==> Fits(r.value, n) && StateOf(p, p.completed + 1) == NotStarted &&
                      StateOf(r.value, k) == if k == p.completed + 1 then InProgress else StateOf(p, k)
    ensures var r := End(p);
            r.Ok? ==> Fits(r.value, n) &&
                      StateOf(r.value, k) == if StateOf(p, k).InProgress? then Completed else StateOf(p, k)
    ensures var r := Reopen(p);
            r.Ok? ==> Fits(r.value, n) && StateOf(p, p.completed) == Completed &&
                      StateOf(r.value, k) == if k == p.completed then InProgress
                                             else if StateOf(p, k).InProgress? then NotStarted
                                             else StateOf(p, k)
    ensures Fits(RESET, n) && StateOf(RESET, k) == NotStarted
  {
    if p.inProgress { assert StateOf(p, p.completed + 1) == InProgress; }
  }

  /** End and reopen undo each other; reopening while a set is open loses that set's progress, so
      ending again does not bring it back. */
  lemma EndReopenInverse(p: Pointer)
    ensures End(p).Ok? && p.completed >= 0 ==> Reopen(End(p).value) == Ok(p)
    ensures Reopen(p).Ok? ==> (End(Reopen(p).value) == Ok(p) <==> !p.inProgress)
  {
  }

  // ---------------------------------------------------------------- the state of a match

  function StatesOf(p: Pointer, rows: Rows): set<State> {
    set k | k in rows :: StateOf(p, k)
  }

  function WonByFirst(p: Pointer, rows: Rows): set<int> {
    set k | k in rows && StateOf(p, k) == Completed && rows[k].first > rows[k].second
  }

  function WonBySecond(p: Pointer, rows: Rows): set<int> {
    set k | k in rows && StateOf(p, k) == Completed && rows[k].second > rows[k].first
  }

  /** Whether one side holds a best-of-n majority of set wins. */
  predicate IsDecided(p: Pointer, rows: Rows, playAllSets: bool) {
    && !playAllSets && |rows| > 1
    && (|WonByFirst(p, rows)| >= |rows| / 2 + 1 || |WonBySecond(p, rows)| >= |rows| / 2 + 1)
  }

  /** The state of a match as computed from the list of its set states. */
  function MatchState(p: Pointer, rows: Rows, playAllSets: bool): State {
    var states := StatesOf(p, rows);
    if states == {} || states == {NotStarted} then NotStarted
    else if states == {Completed} then Completed
    else if InProgress !in states && IsDecided(p, rows, playAllSets) then Completed
    else InProgress
  }

  /** The state of a match as computed from the pointer alone. */
  function MatchStateFromPointer(p: Pointer, numSets: int, decided: bool): State {
    if p.completed == 0 && !p.inProgress then NotStarted
    else if !p.inProgress && (p.completed >= numSets || decided) then Completed
    else InProgress
  }

  ghost predicate RowsAre(rows: Rows, n: int) {
    forall k: int :: k in rows <==> 1 <= k <= n
  }

  lemma {:induction false} CountUpTo(s: set<int>, n: int)
    requires n >= 0 && forall k: int :: k in s <==> 1 <= k <= n
    ensures |s| == n
    decreases n
  {
    if n == 0 {
      EmptyOrHasMember(s);
    } else {
      CountUpTo(s - {n}, n - 1);
    }
  }

  lemma CountRows(rows: Rows, n: int)
    requires n >= 0 && RowsAre(rows, n)
    ensures |rows| == n
  {
    CountUpTo(rows.Keys, n);
    assert |rows| == |rows.Keys|;
  }

  /** The two computations agree whenever the rows are exactly 1..n and the pointer fits them. */
  lemma MatchStatesAgree(p: Pointer, rows: Rows, n: int, playAllSets: bool)
    requires Fits(p, n) && RowsAre(rows, n)
    ensures MatchState(p, rows, playAllSets)
         == MatchStateFromPointer(p, n, IsDecided(p, rows, playAllSets))
  {
    var states := StatesOf(p, rows);
    if n >= 1 {
      assert StateOf(p, 1) in states && StateOf(p, n) in states;
      if p.inProgress {
        assert StateOf(p, p.completed + 1) in states;
      } else if p.completed == 0 {
        assert states == {NotStarted};
      } else if p.completed == n {
        assert states == {Completed};
      }
      assert StateOf(p, 1) == Completed || p.completed == 0;
    } else {
      assert states == {};
    }
  }

  /** What the state of a match means: it has not started while no set has, and it is over when every set is
      completed, or, with no set open and not all to be played, a side has won more than half of several sets. */
  lemma MatchStateMeans(p: Pointer, rows: Rows, playAllSets: bool)
    ensures MatchState(p, rows, playAllSets) == NotStarted <==> forall k | k in rows :: StateOf(p, k) == NotStarted
    ensures MatchState(p, rows, playAllSets) == Completed <==>
              && (exists k | k in rows :: StateOf(p, k) != NotStarted)
              && ((forall k | k in rows :: StateOf(p, k) == Completed)
                  || (!playAllSets && |rows| > 1 && (forall k | k in rows :: StateOf(p, k) != InProgress)
                      && (2 * |WonByFirst(p, rows)| > |rows| || 2 * |WonBySecond(p, rows)| > |rows|)))
  {
    var states := StatesOf(p, rows);
    EmptyOrHasMember(rows.Keys);
    assert rows.Keys == {} ==> rows == map[];
    assert forall k | k in rows :: StateOf(p, k) in states;
    forall s: State ensures states == {s} <==> rows != map[] && forall k | k in rows :: StateOf(p, k) == s {
      if rows != map[] && forall k | k in rows :: StateOf(p, k) == s {
        var k :| k in rows;
        assert forall x :: x in states <==> x in {s};
      }
    }
    assert states == {} <==> rows == map[] by {
      if rows != map[] {
        var k :| k in rows;
        assert StateOf(p, k) in states;
      }
    }
    hide WonByFirst, WonBySecond;
  }

  /** Before the first set is completed no side has a majority. */
  lemma NothingWon(p: Pointer, rows: Rows, playAllSets: bool)
    requires p.completed == 0 && forall k | k in rows :: k >= 1
    ensures !IsDecided(p, rows, playAllSets)
  {
    assert WonByFirst(p, rows) == {} && WonBySecond(p, rows) == {};
  }

  /** Without the fit they can differ: one set row, but a pointer that claims two completed sets of
      three. The list of states makes the match over, the pointer makes it one being played. */
  lemma MatchStatesCanDiffer()
    ensures exists p, rows, n, playAll ::
      RowsAre(rows, 1) && n == 3 &&
      MatchState(p, rows, playAll) != MatchStateFromPointer(p, n, IsDecided(p, rows, playAll))
  {
    var p, rows: Rows := Pointer(2, false), map[1 := Score(0, 0)];
    assert StatesOf(p, rows) == {Completed} by { assert StateOf(p, 1) in StatesOf(p, rows); }
    assert MatchState(p, rows, true) == Completed;
    assert MatchStateFromPointer(p, 3, IsDecided(p, rows, true)) == InProgress;
    assert RowsAre(rows, 1);
  }

  /** A match counts as not started exactly when its pointer is the reset pointer. */
  lemma NotStartedIsReset(p: Pointer, rows: Rows, n: int, playAllSets: bool)
    requires n >= 1 && Fits(p, n) && RowsAre(rows, n)
    ensures MatchState(p, rows, playAllSets) == NotStarted <==> p == RESET
  {
    MatchStatesAgree(p, rows, n, playAllSets);
  }

  /** An idle match counts as not started however many sets it has and however it is played. */
  lemma IdleIsNotStarted(rows: Rows, n: int, playAllSets: bool)
    requires RowsAre(rows, n)
    ensures MatchState(RESET, rows, playAllSets) == NotStarted
  {
    var states := StatesOf(RESET, rows);
    forall s | s in states ensures s == NotStarted {}
    assert states == {} || states == {NotStarted} by {
      if states != {} { assert {NotStarted} <= states; }
    }
  }
}
