/** The court screen: which set is being played, which match comes next, and when a set may be ended.
    The screen works on lists of sets with derived states; the store works on a pointer. */
module ScoreTracking {
  import opened Schema
  import opened Progress
  import opened MatchSets
  import opened Rankings

  datatype SetView = SetView(number: int, first: int, second: int, state: State)

  /** The sets of a match as queries deliver them: in order, each with its state derived from the pointer. */
  function DerivedSets(p: Pointer, scores: seq<Score>): (sets: seq<SetView>)
    ensures |sets| == |scores|
    ensures forall k | 0 <= k < |sets| ::
              sets[k] == SetView(k + 1, scores[k].first, scores[k].second, StateOf(p, k + 1))
  {
    seq(|scores|, k requires 0 <= k < |scores| => SetView(k + 1, scores[k].first, scores[k].second, StateOf(p, k + 1)))
  }

  // ---------------------------------------------------------------- the view

  datatype View =
    | NothingPlayed
    | Playing(current: SetView)
    | BetweenSets(completed: SetView, next: SetView, all: seq<SetView>)
    | Over

  /** `sets.find`. */
  function Find(sets: seq<SetView>, state: State): Option<SetView> {
    if sets == [] then None
    else if sets[0].state == state then Some(sets[0])
    else Find(sets[1..], state)
  }

  function Reversed(sets: seq<SetView>): seq<SetView> {
    if sets == [] then [] else Reversed(sets[1..]) + [sets[0]]
  }

  function ViewOf(sets: seq<SetView>, matchState: Option<State>): View {
    if matchState == Some(Completed) then Over else
      var inProgress := Find(sets, InProgress);
      if inProgress.Some? then Playing(inProgress.value) else
        var lastCompleted, nextNotStarted := Find(Reversed(sets), Completed), Find(sets, NotStarted);
        if lastCompleted.Some? && nextNotStarted.Some? then BetweenSets(lastCompleted.value, nextNotStarted.value, sets)
        else if forall s | s in sets :: s.state == NotStarted then NothingPlayed
        else Over
  }

  lemma {:induction false} FindFirst(sets: seq<SetView>, state: State, k: nat)
    requires k <= |sets| && forall j | 0 <= j < k :: sets[j].state != state
    ensures k < |sets| && sets[k].state == state ==> Find(sets, state) == Some(sets[k])
    ensures k == |sets| ==> Find(sets, state) == None
  {
    if k > 0 {
      FindFirst(sets[1..], state, k - 1);
    }
  }

  lemma {:induction false} ReversedAt(sets: seq<SetView>, k: nat)
    requires k < |sets|
    ensures |Reversed(sets)| == |sets| && Reversed(sets)[k] == sets[|sets| - 1 - k]
  {
    if |sets| > 1 {
      ReversedAt(sets[1..], if k < |sets| - 1 then k else 0);
    }
  }

  /** Searching the list of states gives what arithmetic on the progress gives: the open set, or the last
      completed and the next one, or nothing played, or everything played. */
  lemma ViewIsPointer(p: Pointer, scores: seq<Score>, matchState: Option<State>)
    requires Fits(p, |scores|)
    ensures var sets := DerivedSets(p, scores);
            ViewOf(sets, matchState)
            == if matchState == Some(Completed) then Over
               else if p.inProgress then Playing(sets[p.completed])
               else if p.completed == 0 then NothingPlayed
               else if p.completed < |sets| then BetweenSets(sets[p.completed - 1], sets[p.completed], sets)
               else Over
  {
    var sets, c := DerivedSets(p, scores), p.completed;
    FindFirst(sets, InProgress, if p.inProgress then c else |sets|);
    if !p.inProgress {
      FindFirst(sets, NotStarted, c);
      LastCompleted(p, scores);
      assert sets != [] ==> sets[0] in sets;
    }
  }

  lemma LastCompleted(p: Pointer, scores: seq<Score>)
    requires Fits(p, |scores|) && !p.inProgress
    ensures var sets := DerivedSets(p, scores);
            Find(Reversed(sets), Completed) == if p.completed == 0 then None else Some(sets[p.completed - 1])
  {
    var sets, c := DerivedSets(p, scores), p.completed;
    var n := |sets|;
    if n == 0 {
      assert Reversed(sets) == [];
    } else {
      forall k | 0 <= k < n
        ensures |Reversed(sets)| == n && Reversed(sets)[k] == sets[n - 1 - k] { ReversedAt(sets, k); }
      assert |Reversed(sets)| == n by { ReversedAt(sets, 0); }
      FindFirst(Reversed(sets), Completed, n - c);
    }
  }

  // ---------------------------------------------------------------- visible sets

  function Started(sets: seq<SetView>): seq<SetView> {
    if sets == [] then [] else (if sets[0].state != NotStarted then [sets[0]] else []) + Started(sets[1..])
  }

  function VisibleSets(sets: seq<SetView>, matchState: State): seq<SetView> {
    if matchState != Completed then sets else Started(sets)
  }

  lemma {:induction false} StartedIsPrefix(sets: seq<SetView>, c: nat)
    requires c <= |sets| && (forall k | 0 <= k < c :: sets[k].state != NotStarted)
    requires forall k | c <= k < |sets| :: sets[k].state == NotStarted
    ensures Started(sets) == sets[..c]
  {
    if sets != [] {
      StartedIsPrefix(sets[1..], if c > 0 then c - 1 else 0);
      assert c > 0 ==> sets[..c] == [sets[0]] + sets[1..][..c - 1];
    }
  }

  /** On a completed match the visible sets are exactly the completed ones, in order: the sets a decided
      match left unplayed are hidden. On any other match all sets are visible. */
  lemma VisibleAreCompleted(p: Pointer, scores: seq<Score>)
    requires Fits(p, |scores|) && !p.inProgress
    ensures forall s: State | s != Completed :: VisibleSets(DerivedSets(p, scores), s) == DerivedSets(p, scores)
    ensures VisibleSets(DerivedSets(p, scores), Completed) == DerivedSets(p, scores)[..p.completed]
  {
    StartedIsPrefix(DerivedSets(p, scores), p.completed);
  }

  // ---------------------------------------------------------------- the next match on a court

  datatype CourtMatch = CourtMatch(id: Id, court: Option<Id>, start: Option<int>, state: State)

  /** By start time, matches without one last, ties by id. */
  function Compare(a: CourtMatch, b: CourtMatch): int {
    if a.start != b.start then
      if a.start.None? then 1
      else if b.start.None? then -1
      else if a.start.value < b.start.value then -1 else 1
    else a.id - b.id
  }

  predicate Earlier(a: CourtMatch, b: CourtMatch) {
    Compare(a, b) < 0
  }

  lemma CompareIsAnOrder(a: CourtMatch, b: CourtMatch, c: CourtMatch)
    ensures Compare(a, a) == 0
    ensures a.id != b.id ==> (Earlier(a, b) <==> !Earlier(b, a))
    ensures Earlier(a, b) && Earlier(b, c) ==> Earlier(a, c)
  {
  }

  /** The order of a court's schedule, column by column. */
  predicate Precedes(a: CourtMatch, b: CourtMatch) {
    || (a.start.Some? && b.start.None?)
    || (a.start.Some? && b.start.Some? && a.start.value < b.start.value)
    || (a.start == b.start && a.id < b.id)
  }

  /** Which is what the comparison sorts by. */
  lemma ComparesSchedule(a: CourtMatch, b: CourtMatch)
    ensures Compare(a, b) < 0 <==> Precedes(a, b)
    ensures Compare(a, b) == 0 <==> a.start == b.start && a.id == b.id
  {
  }

  predicate DistinctIds(matches: seq<CourtMatch>) {
    forall i, j | 0 <= i < j < |matches| :: matches[i].id != matches[j].id
  }

  predicate Ascending(matches: seq<CourtMatch>) {
    forall i, j | 0 <= i < j < |matches| :: Earlier(matches[i], matches[j])
  }

  /** What is asked for: the first match that is not completed among those on the court after the
      current one, if the current one is on the court's list at all. */
  ghost predicate IsNext(matches: seq<CourtMatch>, current: CourtMatch, next: Option<CourtMatch>) {
    match next
    case Some(m) => Candidate(matches, current, m) && forall x | Candidate(matches, current, x) ::
        x == m || Precedes(m, x)
    case None => forall x | x in matches :: !Candidate(matches, current, x)
  }

  ghost predicate Candidate(matches: seq<CourtMatch>, current: CourtMatch, x: CourtMatch) {
    && x in matches && OnCourt(x, current) && x.state != Completed
    && exists here | here in matches :: here.id == current.id && OnCourt(here, current) && Precedes(here, x)
  }

  predicate OnCourt(x: CourtMatch, current: CourtMatch) {
    current.court.Some? && x.court == current.court
  }

  /** The answer does not depend on the order the matches are listed in. */
  lemma NextIgnoresOrder(a: seq<CourtMatch>, b: seq<CourtMatch>, current: CourtMatch, m: Option<CourtMatch>,
    n: Option<CourtMatch>)
    requires forall x :: x in a <==> x in b
    requires IsNext(a, current, m) && IsNext(b, current, n)
    ensures m == n
  {
    forall x ensures Candidate(a, current, x) <==> Candidate(b, current, x) {}
  }

  method FilterCourt(matches: seq<CourtMatch>, current: CourtMatch) returns (same: seq<CourtMatch>)
    requires DistinctIds(matches)
    ensures DistinctIds(same) && forall x :: x in same <==> x in matches && OnCourt(x, current)
  {
    same := [];
    for i := 0 to |matches|
      invariant forall x :: x in same <==> x in matches[..i] && OnCourt(x, current)
      invariant DistinctIds(same)
    {
      assert matches[..i + 1] == matches[..i] + [matches[i]];
      if OnCourt(matches[i], current) {
        forall k | 0 <= k < |same| ensures same[k].id != matches[i].id { assert same[k] in same; }
        same := same + [matches[i]];
      }
    }
    assert matches[..|matches|] == matches;
  }

  /** Insertion into a sorted list; with distinct ids any correct sort gives the same list. */
  method Insert(sorted: seq<CourtMatch>, x: CourtMatch) returns (longer: seq<CourtMatch>)
    requires Ascending(sorted) && forall k | 0 <= k < |sorted| :: sorted[k].id != x.id
    ensures Ascending(longer) && forall y :: y in longer <==> y in sorted || y == x
  {
    var k := 0;
    while k < |sorted| && Compare(sorted[k], x) < 0
      invariant k <= |sorted| && forall j | 0 <= j < k :: Earlier(sorted[j], x)
    {
      k := k + 1;
    }
    longer := sorted[..k] + [x] + sorted[k..];
    assert sorted == sorted[..k] + sorted[k..];
    LaterFollow(sorted, x, k);
    hide Earlier;
  }

  lemma LaterFollow(sorted: seq<CourtMatch>, x: CourtMatch, k: nat)
    requires Ascending(sorted) && k <= |sorted| && forall j | 0 <= j < |sorted| :: sorted[j].id != x.id
    requires k < |sorted| ==> Compare(sorted[k], x) >= 0
    ensures forall j | k <= j < |sorted| :: Earlier(x, sorted[j])
  {
    hide Compare;
    forall j | k <= j < |sorted| ensures Earlier(x, sorted[j]) {
      CompareIsAnOrder(x, sorted[k], sorted[j]);
      assert j > k ==> Earlier(sorted[k], sorted[j]);
    }
  }

  method SortSchedule(matches: seq<CourtMatch>) returns (sorted: seq<CourtMatch>)
    requires DistinctIds(matches)
    ensures Ascending(sorted) && forall x :: x in sorted <==> x in matches
  {
    sorted := [];
    for i := 0 to |matches|
      invariant Ascending(sorted) && forall x :: x in sorted <==> x in matches[..i]
    {
      assert matches[..i + 1] == matches[..i] + [matches[i]];
      forall k | 0 <= k < |sorted| ensures sorted[k].id != matches[i].id {
        assert sorted[k] in sorted;
      }
      sorted := Insert(sorted, matches[i]);
    }
    assert matches[..|matches|] == matches;
  }

  method GetNextMatchOnCourt(matches: seq<CourtMatch>, current: CourtMatch) returns (next: Option<CourtMatch>)
    requires DistinctIds(matches)
    ensures IsNext(matches, current, next)
  {
    if current.court.None? { return None; }
    var same := FilterCourt(matches, current);
    var sorted := SortSchedule(same);
    assert forall x :: x in sorted <==> x in matches && OnCourt(x, current);
    var here := 0;
    while here < |sorted| && sorted[here].id != current.id
      invariant here <= |sorted| && forall j | 0 <= j < here :: sorted[j].id != current.id
    {
      here := here + 1;
    }
    if here == |sorted| {
      assert forall x | x in sorted :: x.id != current.id;
      return None;
    }
    forall x | Candidate(matches, current, x) ensures exists j | here < j < |sorted| :: sorted[j] == x {
      AfterHere(matches, sorted, current, here, x);
    }
    var i := here + 1;
    while i < |sorted|
      invariant here < i <= |sorted| && forall j | here < j < i :: sorted[j].state == Completed
    {
      if sorted[i].state != Completed {
        assert sorted[here] in sorted && sorted[i] in sorted && Earlier(sorted[here], sorted[i]);
        ComparesSchedule(sorted[here], sorted[i]);
        LaterAreAfter(sorted, i);
        assert Candidate(matches, current, sorted[i]);
        return Some(sorted[i]);
      }
      i := i + 1;
    }
    return None;
  }

  lemma SameIdSameMatch(matches: seq<CourtMatch>, x: CourtMatch, y: CourtMatch)
    requires DistinctIds(matches) && x in matches && y in matches && x.id == y.id
    ensures x == y
  {
  }

  lemma AfterHere(matches: seq<CourtMatch>, sorted: seq<CourtMatch>, current: CourtMatch, here: nat, x: CourtMatch)
    requires DistinctIds(matches) && Ascending(sorted) && here < |sorted| && sorted[here].id == current.id
    requires forall y :: y in sorted <==> y in matches && OnCourt(y, current)
    requires Candidate(matches, current, x)
    ensures exists j | here < j < |sorted| :: sorted[j] == x
  {
    assert x in sorted && sorted[here] in sorted;
    var j :| 0 <= j < |sorted| && sorted[j] == x;
    var listed :| listed in matches && listed.id == current.id && OnCourt(listed, current) && Precedes(listed, x);
    ComparesSchedule(listed, x);
    SameIdSameMatch(matches, listed, sorted[here]);
    CompareIsAnOrder(x, sorted[here], x);
    CompareIsAnOrder(x, x, x);
    AscendingAt(sorted, j, here);
  }

  lemma LaterAreAfter(sorted: seq<CourtMatch>, i: nat)
    requires Ascending(sorted) && i < |sorted|
    ensures forall j | i < j < |sorted| :: Precedes(sorted[i], sorted[j])
  {
    hide Compare, Precedes;
    forall j | i < j < |sorted| ensures Precedes(sorted[i], sorted[j]) {
      assert Earlier(sorted[i], sorted[j]);
      ComparesSchedule(sorted[i], sorted[j]);
    }
  }

  lemma AscendingAt(sorted: seq<CourtMatch>, j: nat, here: nat)
    requires Ascending(sorted) && j < |sorted| && here < |sorted|
    ensures j < here ==> Earlier(sorted[j], sorted[here])
  {
  }

  // ---------------------------------------------------------------- ending a set

  /** Whether the end-set button is disabled for set `k` at this score. */
  predicate EndSetDisabled(k: int, score: Score, rules: Rules, swapped: bool) {
    var limit := if k == rules.numSets && rules.lastSetMaxPoints.Some? then rules.lastSetMaxPoints.value
                 else rules.maxPoints;
    var s1 := if swapped then score.second else score.first;
    var s2 := if swapped then score.first else score.second;
    || Max(s1, s2) < limit
    || (rules.twoPointAdvantage && (if s1 < s2 then s2 - s1 else s1 - s2) < 2)
    || (!rules.drawsAllowed && s1 == s2)
  }

  /** A set may be ended exactly when a side has reached the limit, which is another one for the last set if the
      ranking says so, leads by two where that is asked for, and is not level where draws are not allowed. */
  lemma GateOpens(k: int, score: Score, rules: Rules, swapped: bool)
    ensures !EndSetDisabled(k, score, rules, swapped) <==>
              && (k != rules.numSets || rules.lastSetMaxPoints.None? ==>
                    score.first >= rules.maxPoints || score.second >= rules.maxPoints)
              && (k == rules.numSets && rules.lastSetMaxPoints.Some? ==>
                    score.first >= rules.lastSetMaxPoints.value || score.second >= rules.lastSetMaxPoints.value)
              && (rules.twoPointAdvantage ==> score.first >= score.second + 2 || score.second >= score.first + 2)
              && (score.first == score.second ==> rules.drawsAllowed)
  {
  }

  /** Swapping the sides on the screen changes nothing, and without draws a set that may be ended has a winner. */
  lemma GateFacts(k: int, score: Score, rules: Rules)
    ensures EndSetDisabled(k, score, rules, true) <==> EndSetDisabled(k, score, rules, false)
    ensures !rules.drawsAllowed && !EndSetDisabled(k, score, rules, false) ==> score.first != score.second
  {
  }

  lemma SmallerSet(a: set<int>, b: set<int>)
    requires a <= b
    ensures |a| <= |b|
  {
    assert b == a + (b - a);
  }

  /** Sets 1..c are completed and were ended through the gate. */
  ghost predicate EndedThroughGate(rows: Rows, rules: Rules, c: int) {
    forall k | k in rows && k <= c :: !EndSetDisabled(k, rows[k], rules, false)
  }

  /** In a best-of-n match whose sets were ended through the gate every completed set has one winner; never
      more than one side has a majority; a majority comes no earlier than after (n + 1) / 2 sets and is
      never lost; and once all n sets are played there is one. */
  lemma BestOfNDecides(rows: Rows, rules: Rules, c: int, later: int)
    requires BestOfN(rules) && RulesSound(rules) && RowsAre(rows, rules.numSets)
    requires 0 <= c <= later <= rules.numSets && EndedThroughGate(rows, rules, later)
    ensures var n, p := rules.numSets, Pointer(c, false);
            && |WonByFirst(p, rows)| + |WonBySecond(p, rows)| == c
            && !(|WonByFirst(p, rows)| >= n / 2 + 1 && |WonBySecond(p, rows)| >= n / 2 + 1)
            && (IsDecided(p, rows, false) ==> c >= (n + 1) / 2 && IsDecided(Pointer(later, false), rows, false))
            && (c == n ==> IsDecided(p, rows, false))
  {
    CountRows(rows, rules.numSets);
    WinsAddUp(rows, rules, c);
    WinsAddUp(rows, rules, later);
    var p, q := Pointer(c, false), Pointer(later, false);
    assert WonByFirst(p, rows) <= WonByFirst(q, rows) && WonBySecond(p, rows) <= WonBySecond(q, rows);
    SmallerSet(WonByFirst(p, rows), WonByFirst(q, rows));
    SmallerSet(WonBySecond(p, rows), WonBySecond(q, rows));
    hide WonByFirst, WonBySecond;
  }

  lemma WinsAddUp(rows: Rows, rules: Rules, c: int)
    requires BestOfN(rules) && RulesSound(rules) && RowsAre(rows, rules.numSets)
    requires 0 <= c <= rules.numSets && EndedThroughGate(rows, rules, c)
    ensures var p := Pointer(c, false); |WonByFirst(p, rows)| + |WonBySecond(p, rows)| == c
  {
    var p := Pointer(c, false);
    var first, second := WonByFirst(p, rows), WonBySecond(p, rows);
    forall k: int ensures k in first + second <==> 1 <= k <= c {
      if k in rows { GateFacts(k, rows[k], rules); }
    }
    CountUpTo(first + second, c);
    assert first !! second;
  }
}
