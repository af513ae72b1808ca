/** The round-robin schedule: the table of pairings produced by rotating a list, and the top-up that gives
    a resized item every match it lacks. */
module RoundRobin {
  import opened Schema
  import opened Progress
  import opened MatchSets
  import opened Deletion
  import opened ItemMatches
  import opened StageItemResize

  // ---------------------------------------------------------------- the table of pairings

  /** With an odd number of teams one more, non-existent, team stands for a bye. */
  function RoundsOf(n: int): (rounds: int)
    ensures rounds % 2 == 1
  {
    if n % 2 == 1 then n else n - 1
  }

  /** Who stands at position `i` after `r` rotations of 1..rounds around the fixed 0. */
  function At(rounds: nat, r: nat, i: nat): nat
    requires r <= rounds && i <= rounds
  {
    if i == 0 then 0 else if i > r then i - r else i - r + rounds
  }

  function PairingsOf(rounds: nat, r: nat): (pairs: seq<(nat, nat)>)
    requires r < rounds
    ensures |pairs| == (rounds + 1) / 2
  {
    seq((rounds + 1) / 2, m requires 0 <= m < (rounds + 1) / 2 => (At(rounds, r, m), At(rounds, r, rounds - m)))
  }

  function Combinations(n: int): (table: seq<seq<(nat, nat)>>)
    ensures |table| == if RoundsOf(n) < 0 then 0 else RoundsOf(n)
  {
    if RoundsOf(n) < 0 then [] else seq(RoundsOf(n), r requires 0 <= r < RoundsOf(n) => PairingsOf(RoundsOf(n), r))
  }

  /** `list.remove`: without the first occurrence. */
  function Remove(t: seq<nat>, v: nat): (rest: seq<nat>)
    requires v in t
    ensures |rest| == |t| - 1
  {
    if t[0] == v then t[1..] else [t[0]] + Remove(t[1..], v)
  }

  lemma {:induction false} RemoveLast(t: seq<nat>, v: nat)
    requires t != [] && t[|t| - 1] == v && v !in t[..|t| - 1]
    ensures Remove(t, v) == t[..|t| - 1]
  {
    if |t| > 1 {
      assert t[0] in t[..|t| - 1];
      assert t[1..][..|t| - 2] == t[..|t| - 1][1..];
      RemoveLast(t[1..], v);
    }
  }

  predicate Rotated(t: seq<nat>, rounds: nat, r: nat)
    requires r <= rounds
  {
    |t| == rounds + 1 && forall i | 0 <= i <= rounds :: t[i] == At(rounds, r, i)
  }

  lemma RotateOnce(t: seq<nat>, rounds: nat, r: nat)
    requires r < rounds && Rotated(t, rounds, r)
    ensures rounds - r in t
    ensures var rest := Remove(t, rounds - r); Rotated(rest[..1] + [rounds - r] + rest[1..], rounds, r + 1)
  {
    assert t[rounds] == rounds - r;
    assert t[rounds] in t;
    RemoveLast(t, rounds - r);
  }

  method GetRoundRobinCombinations(n: int) returns (table: seq<seq<(nat, nat)>>)
    ensures table == Combinations(n)
  {
    var rounds := if n % 2 == 1 then n else n - 1;
    table := [];
    if rounds < 0 { return; }
    var perRound := (rounds + 1) / 2;
    var t: seq<nat> := [];
    for i := 0 to rounds + 1
      invariant |t| == i && forall k | 0 <= k < i :: t[k] == k
    {
      t := t + [i];
    }
    for r := 0 to rounds
      invariant Rotated(t, rounds, r)
      invariant |table| == r && forall k | 0 <= k < r :: table[k] == PairingsOf(rounds, k)
    {
      var pairs: seq<(nat, nat)> := [];
      for m := 0 to perRound
        invariant |pairs| == m && forall k | 0 <= k < m :: pairs[k] == PairingsOf(rounds, r)[k]
      {
        pairs := pairs + [(t[m], t[|t| - 1 - m])];
      }
      table := table + [pairs];
      RotateOnce(t, rounds, r);
      t := Remove(t, rounds - r);
      t := t[..1] + [rounds - r] + t[1..];
    }
  }

  /** The table pairs `a` with `b` in round `r`, as the m-th match. */
  predicate Meets(table: seq<seq<(nat, nat)>>, r: int, m: int, a: int, b: int) {
    0 <= r < |table| && 0 <= m < |table[r]| && (table[r][m] == (a, b) || table[r][m] == (b, a))
  }

  /** The round in which a < b meet: the sum of their positions must be the number of rounds. */
  function MeetingRound(rounds: nat, a: int, b: int): int {
    if a == 0 then rounds - b
    else if (a + b) % 2 == 0 then rounds - (a + b) / 2
    else if a + b <= rounds then (rounds - a - b) / 2
    else (3 * rounds - a - b) / 2
  }

  /** The position of `a` in that round. */
  function PositionIn(rounds: nat, r: int, a: int): int {
    if a == 0 then 0 else if a + r <= rounds then a + r else a + r - rounds
  }

  lemma MeetingExists(rounds: nat, a: int, b: int)
    requires rounds % 2 == 1 && 0 <= a < b <= rounds
    ensures var r := MeetingRound(rounds, a, b);
            var m := Min(PositionIn(rounds, r, a), PositionIn(rounds, r, b));
            && 0 <= r < rounds && 0 <= m < (rounds + 1) / 2
            && ((At(rounds, r, m) == a && At(rounds, r, rounds - m) == b)
                || (At(rounds, r, m) == b && At(rounds, r, rounds - m) == a))
  {
    var h := rounds / 2;
    assert rounds == 2 * h + 1;
  }

  lemma MeetingUnique(rounds: nat, a: int, b: int, r: int, m: int)
    requires rounds % 2 == 1 && 0 <= a < b <= rounds && 0 <= r < rounds && 0 <= m < (rounds + 1) / 2
    requires (At(rounds, r, m) == a && At(rounds, r, rounds - m) == b)
             || (At(rounds, r, m) == b && At(rounds, r, rounds - m) == a)
    ensures r == MeetingRound(rounds, a, b) && m == Min(PositionIn(rounds, r, a), PositionIn(rounds, r, b))
  {
    var h := rounds / 2;
    assert rounds == 2 * h + 1;
  }

  /** Any two teams meet exactly once, and nobody meets himself. */
  lemma EveryPairMeetsOnce(n: int, a: int, b: int)
    requires 0 <= a < b < n
    ensures exists r, m :: Meets(Combinations(n), r, m, a, b)
    ensures forall r, m, r', m' ::
              Meets(Combinations(n), r, m, a, b) && Meets(Combinations(n), r', m', a, b) ==> r == r' && m == m'
  {
    var rounds := RoundsOf(n);
    MeetingExists(rounds, a, b);
    var r := MeetingRound(rounds, a, b);
    var m := Min(PositionIn(rounds, r, a), PositionIn(rounds, r, b));
    assert Meets(Combinations(n), r, m, a, b);
    forall r', m' | Meets(Combinations(n), r', m', a, b) ensures r' == r && m' == m {
      MeetingUnique(rounds, a, b, r', m');
    }
  }

  lemma NobodyMeetsHimself(n: int, r: int, m: int, a: int, b: int)
    requires Meets(Combinations(n), r, m, a, b)
    ensures a != b && 0 <= a <= RoundsOf(n) && 0 <= b <= RoundsOf(n)
  {
    var rounds := RoundsOf(n);
    assert Combinations(n)[r][m] == (At(rounds, r, m), At(rounds, r, rounds - m));
    var h := rounds / 2;
    assert rounds == 2 * h + 1;
  }

  // ---------------------------------------------------------------- enough rounds

  function RoundsNeeded(n: int): int {
    if n < 1 then 0 else if n % 2 == 0 then n - 1 else n
  }

  function EnoughRounds(t: Tables, i: Id, expected: int): Tables {
    WithRounds(t, i, Max(expected - |RoundsOfItem(t, i)|, 0))
  }

  method EnsureRoundCountForRoundRobin(db: Database, i: Id, n: int)
    requires i in db.stageItems && forall r | r in db.rounds :: r < db.nextId
    modifies db`rounds, db`nextId
    ensures db.Snapshot() == EnoughRounds(old(db.Snapshot()), i, RoundsNeeded(n))
  {
    ghost var before := db.Snapshot();
    ghost var k := 0;
    var expected := RoundsNeeded(n);
    while |RoundsOfItem(db.Snapshot(), i)| < expected
      invariant db.Snapshot() == WithRounds(before, i, k)
      invariant |RoundsOfItem(db.Snapshot(), i)| == |RoundsOfItem(before, i)| + k
      invariant k > 0 ==> |RoundsOfItem(db.Snapshot(), i)| <= expected
    {
      WithRoundsForm(before, i, k + 1);
      var r, error := SqlCreateRound(db, i, Lifecycle.Active);
      k := k + 1;
    }
  }

  // ---------------------------------------------------------------- existing pairs

  predicate PlaysPair(m: Match, pair: set<Id>) {
    m.input1.Some? && m.input2.Some? && {m.input1.value, m.input2.value} == pair
  }

  /** Every unordered pair of inputs some match of the item plays. */
  function PairsOf(t: Tables, i: Id): set<set<Id>> {
    set m | m in MatchesOfItem(t, i) && t.matches[m].input1.Some? && t.matches[m].input2.Some?
      :: {t.matches[m].input1.value, t.matches[m].input2.value}
  }

  function MatchesOfPair(t: Tables, i: Id, pair: set<Id>): set<Id> {
    set m | m in MatchesOfItem(t, i) && PlaysPair(t.matches[m], pair)
  }

  lemma PairHasMatch(t: Tables, i: Id, pair: set<Id>)
    ensures pair in PairsOf(t, i) <==> MatchesOfPair(t, i, pair) != {}
  {
    if pair in PairsOf(t, i) {
      var m :| m in MatchesOfItem(t, i) && PlaysPair(t.matches[m], pair);
      assert m in MatchesOfPair(t, i, pair);
    }
    EmptyOrHasMember(MatchesOfPair(t, i, pair));
  }

  function NewMatch(round: Id, x: Id, y: Id): Match {
    Match(round, Some(x), Some(y), None, None, None, None, None, None, None, None, None, RESET)
  }

  // ---------------------------------------------------------------- the top-up

  /** One cell of the table: skip byes and pairs that have a match, else create one. */
  function TopUpCell(t: Tables, i: Id, round: Id, inputs: seq<Id>, n: int, cell: (nat, nat)): Tables
    requires n <= |inputs|
  {
    if cell.0 >= n || cell.1 >= n then t
    else if {inputs[cell.0], inputs[cell.1]} in PairsOf(t, i) then t
    else WithMatch(t, NewMatch(round, inputs[cell.0], inputs[cell.1]))
  }

  function TopUpRound(t: Tables, i: Id, round: Id, inputs: seq<Id>, n: int, cells: seq<(nat, nat)>): (t': Tables)
    requires n <= |inputs|
    ensures t' == t.(matches := t'.matches, matchSets := t'.matchSets, nextId := t'.nextId) && t.nextId <= t'.nextId
  {
    if cells == [] then t else
      TopUpCell(TopUpRound(t, i, round, inputs, n, cells[..|cells| - 1]), i, round, inputs, n, cells[|cells| - 1])
  }

  function TopUp(t: Tables, i: Id, rounds: seq<Id>, inputs: seq<Id>, n: int, table: seq<seq<(nat, nat)>>): (t': Tables)
    requires n <= |inputs| && |table| <= |rounds|
    ensures t' == t.(matches := t'.matches, matchSets := t'.matchSets, nextId := t'.nextId) && t.nextId <= t'.nextId
  {
    if table == [] then t else
      var k := |table| - 1;
      TopUpRound(TopUp(t, i, rounds, inputs, n, table[..k]), i, rounds[k], inputs, n, table[k])
  }

  /** What a top-up needs of the database: ids below the sequence, the rounds are rounds of the item, the
      inputs exist. */
  ghost predicate Ready(t: Tables, i: Id, rounds: seq<Id>, inputs: seq<Id>) {
    && (forall m | m in t.matches :: m < t.nextId)
    && (forall r | r in rounds :: r in t.rounds && t.rounds[r].stageItem == i)
    && (forall x | x in inputs :: x in t.inputs)
  }

  /** What every part of a top-up does: no existing match changes, pairs that had a match get no other,
      pairs that had none get at most one, which has not started. */
  ghost predicate ToppedUp(t: Tables, t': Tables, i: Id) {
    && t' == t.(matches := t'.matches, matchSets := t'.matchSets, nextId := t'.nextId)
    && t.nextId <= t'.nextId && PairsOf(t, i) <= PairsOf(t', i)
    && (forall m | m in t'.matches :: m < t'.nextId)
    && (forall m | m in t.matches :: m in t'.matches && t'.matches[m] == t.matches[m] && RowsOf(t', m) == RowsOf(t, m))
    && (forall m | m in t'.matches && m !in t.matches :: t'.matches[m].progress == RESET && m in MatchesOfItem(t', i))
    && (forall pair | pair in PairsOf(t, i) :: MatchesOfPair(t', i, pair) == MatchesOfPair(t, i, pair))
    && (forall pair | pair in PairsOf(t', i) && pair !in PairsOf(t, i) :: |MatchesOfPair(t', i, pair)| == 1)
  }

  lemma WithMatchOfItem(t: Tables, i: Id, row: Match)
    requires t.nextId !in t.matches && row.round in t.rounds && t.rounds[row.round].stageItem == i
    ensures MatchesOfItem(WithMatch(t, row), i) == MatchesOfItem(t, i) + {t.nextId}
  {
  }

  lemma WithMatchPairs(t: Tables, i: Id, round: Id, x: Id, y: Id)
    requires t.nextId !in t.matches && round in t.rounds && t.rounds[round].stageItem == i
    ensures var t' := WithMatch(t, NewMatch(round, x, y));
            && PairsOf(t', i) == PairsOf(t, i) + {{x, y}}
            && (forall pair :: MatchesOfPair(t', i, pair) ==
                  if pair == {x, y} then MatchesOfPair(t, i, pair) + {t.nextId} else MatchesOfPair(t, i, pair))
  {
    var t' := WithMatch(t, NewMatch(round, x, y));
    WithMatchOfItem(t, i, NewMatch(round, x, y));
    hide MatchesOfItem;
    assert t'.matches[t.nextId].input1 == Some(x) && t'.matches[t.nextId].input2 == Some(y);
    forall pair ensures pair in PairsOf(t', i) <==> pair in PairsOf(t, i) + {{x, y}} {
      PairHasMatch(t, i, pair);
      PairHasMatch(t', i, pair);
    }
  }

  lemma CellTopsUp(t: Tables, i: Id, round: Id, inputs: seq<Id>, n: int, cell: (nat, nat))
    requires n <= |inputs| && round in t.rounds && t.rounds[round].stageItem == i
    requires forall m | m in t.matches :: m < t.nextId
    ensures ToppedUp(t, TopUpCell(t, i, round, inputs, n, cell), i)
    ensures cell.0 < n && cell.1 < n ==>
              {inputs[cell.0], inputs[cell.1]} in PairsOf(TopUpCell(t, i, round, inputs, n, cell), i)
  {
    if cell.0 < n && cell.1 < n {
      var x, y := inputs[cell.0], inputs[cell.1];
      if {x, y} !in PairsOf(t, i) {
        AddedTopsUp(t, i, round, x, y);
      }
    }
    hide PairsOf, MatchesOfPair, WithMatch;
  }

  lemma AddedTopsUp(t: Tables, i: Id, round: Id, x: Id, y: Id)
    requires round in t.rounds && t.rounds[round].stageItem == i && {x, y} !in PairsOf(t, i)
    requires forall m | m in t.matches :: m < t.nextId
    ensures ToppedUp(t, WithMatch(t, NewMatch(round, x, y)), i)
    ensures {x, y} in PairsOf(WithMatch(t, NewMatch(round, x, y)), i)
  {
    hide PairsOf, MatchesOfPair, MatchesOfItem;
    WithMatchPairs(t, i, round, x, y);
    WithMatchOfItem(t, i, NewMatch(round, x, y));
    PairHasMatch(t, i, {x, y});
  }

  lemma ToppedUpTwice(t: Tables, s: Tables, t': Tables, i: Id)
    requires ToppedUp(t, s, i) && ToppedUp(s, t', i)
    ensures ToppedUp(t, t', i)
  {
    hide PairsOf, MatchesOfPair;
    forall m | m in t'.matches && m !in t.matches ensures t'.matches[m].progress == RESET && m in MatchesOfItem(t', i) {
      assert m in s.matches ==> t'.matches[m] == s.matches[m];
    }
  }

  /** The pairs of these cells that are in range have a match. */
  ghost predicate CellsCovered(t: Tables, i: Id, inputs: seq<Id>, n: int, cells: seq<(nat, nat)>)
    requires n <= |inputs|
  {
    forall k | 0 <= k < |cells| && cells[k].0 < n && cells[k].1 < n ::
        {inputs[cells[k].0], inputs[cells[k].1]} in PairsOf(t, i)
  }

  lemma OneMoreCovered(s: Tables, t: Tables, i: Id, inputs: seq<Id>, n: int, cells: seq<(nat, nat)>)
    requires n <= |inputs| && cells != [] && PairsOf(s, i) <= PairsOf(t, i)
    requires CellsCovered(s, i, inputs, n, cells[..|cells| - 1])
    requires var last := cells[|cells| - 1];
             last.0 < n && last.1 < n ==> {inputs[last.0], inputs[last.1]} in PairsOf(t, i)
    ensures CellsCovered(t, i, inputs, n, cells)
  {
    hide PairsOf;
    var last := |cells| - 1;
    forall k | 0 <= k < |cells| && cells[k].0 < n && cells[k].1 < n
      ensures {inputs[cells[k].0], inputs[cells[k].1]} in PairsOf(t, i)
    {
      assert k < last ==> cells[..last][k] == cells[k];
    }
  }

  lemma {:induction false} RoundTopsUp(t: Tables, i: Id, round: Id, inputs: seq<Id>, n: int, cells: seq<(nat, nat)>)
    requires n <= |inputs| && round in t.rounds && t.rounds[round].stageItem == i
    requires forall m | m in t.matches :: m < t.nextId
    ensures ToppedUp(t, TopUpRound(t, i, round, inputs, n, cells), i)
    ensures CellsCovered(TopUpRound(t, i, round, inputs, n, cells), i, inputs, n, cells)
  {
    if cells == [] {
      NothingTopsUp(t, i);
    } else {
      hide PairsOf, MatchesOfPair, TopUpCell, MatchesOfItem, CellsCovered;
      var last := |cells| - 1;
      RoundTopsUp(t, i, round, inputs, n, cells[..last]);
      var s, t' := TopUpRound(t, i, round, inputs, n, cells[..last]), TopUpRound(t, i, round, inputs, n, cells);
      CellTopsUp(s, i, round, inputs, n, cells[last]);
      ToppedUpTwice(t, s, t', i);
      OneMoreCovered(s, t', i, inputs, n, cells);
    }
  }

  lemma NothingTopsUp(t: Tables, i: Id)
    requires forall m | m in t.matches :: m < t.nextId
    ensures ToppedUp(t, t, i)
  {
  }

  /** The top-up for any table of combinations: existing matches stay as they are, and every pair the table
      lists has a match. */
  lemma {:induction false} TableTopsUp(t: Tables, i: Id, rounds: seq<Id>, inputs: seq<Id>, n: int,
    table: seq<seq<(nat, nat)>>)
    requires n <= |inputs| && |table| <= |rounds| && Ready(t, i, rounds, inputs)
    ensures ToppedUp(t, TopUp(t, i, rounds, inputs, n, table), i)
    ensures forall r, k | 0 <= r < |table| && 0 <= k < |table[r]| && table[r][k].0 < n && table[r][k].1 < n ::
              {inputs[table[r][k].0], inputs[table[r][k].1]} in PairsOf(TopUp(t, i, rounds, inputs, n, table), i)
  {
    if table == [] {
      NothingTopsUp(t, i);
    } else {
      hide PairsOf, MatchesOfPair, TopUpRound, MatchesOfItem, ToppedUp, CellsCovered;
      var last := |table| - 1;
      TableTopsUp(t, i, rounds, inputs, n, table[..last]);
      var s := TopUp(t, i, rounds, inputs, n, table[..last]);
      assert rounds[last] in rounds;
      KeptByTopUp(t, s, i);
      RoundTopsUp(s, i, rounds[last], inputs, n, table[last]);
      KeptByTopUp(s, TopUp(t, i, rounds, inputs, n, table), i);
      CoveredCells(TopUp(t, i, rounds, inputs, n, table), i, inputs, n, table[last]);
      ToppedUpTwice(t, s, TopUp(t, i, rounds, inputs, n, table), i);
    }
  }

  lemma KeptByTopUp(t: Tables, t': Tables, i: Id)
    requires ToppedUp(t, t', i)
    ensures PairsOf(t, i) <= PairsOf(t', i) && t'.rounds == t.rounds && forall m | m in t'.matches :: m < t'.nextId
  {
    hide PairsOf, MatchesOfPair;
  }

  lemma CoveredCells(t: Tables, i: Id, inputs: seq<Id>, n: int, cells: seq<(nat, nat)>)
    requires n <= |inputs| && CellsCovered(t, i, inputs, n, cells)
    ensures forall k | 0 <= k < |cells| && cells[k].0 < n && cells[k].1 < n ::
              {inputs[cells[k].0], inputs[cells[k].1]} in PairsOf(t, i)
  {
    hide PairsOf;
  }

  /** When every listed pair already has a match, the top-up changes nothing. */
  lemma {:induction false} CoveredRound(t: Tables, i: Id, round: Id, inputs: seq<Id>, n: int, cells: seq<(nat, nat)>)
    requires n <= |inputs|
    requires forall k | 0 <= k < |cells| && cells[k].0 < n && cells[k].1 < n ::
              {inputs[cells[k].0], inputs[cells[k].1]} in PairsOf(t, i)
    ensures TopUpRound(t, i, round, inputs, n, cells) == t
  {
    hide PairsOf;
    if cells != [] {
      CoveredRound(t, i, round, inputs, n, cells[..|cells| - 1]);
    }
  }

  lemma {:induction false} CoveredTable(t: Tables, i: Id, rounds: seq<Id>, inputs: seq<Id>, n: int,
    table: seq<seq<(nat, nat)>>)
    requires n <= |inputs| && |table| <= |rounds|
    requires forall r, k | 0 <= r < |table| && 0 <= k < |table[r]| && table[r][k].0 < n && table[r][k].1 < n ::
               {inputs[table[r][k].0], inputs[table[r][k].1]} in PairsOf(t, i)
    ensures TopUp(t, i, rounds, inputs, n, table) == t
  {
    hide PairsOf;
    if table != [] {
      var last := |table| - 1;
      CoveredTable(t, i, rounds, inputs, n, table[..last]);
      CoveredRound(t, i, rounds[last], inputs, n, table[last]);
    }
  }

  // ---------------------------------------------------------------- the whole top-up

  lemma EnoughRoundsForm(t: Tables, i: Id, n: int)
    requires forall r | r in t.rounds :: r < t.nextId
    ensures var t1 := EnoughRounds(t, i, RoundsNeeded(n));
            && |Combinations(n)| == RoundsNeeded(n) <= |RoundsOfItem(t1, i)|
            && t1 == t.(rounds := t1.rounds, nextId := t1.nextId) && t.nextId <= t1.nextId
            && (forall r | r in t.rounds :: r in t1.rounds && t1.rounds[r] == t.rounds[r])
            && (forall r | r in t1.rounds && r !in t.rounds :: t1.rounds[r].stageItem == i)
            && (forall r | r in t1.rounds :: r < t1.nextId)
            && BySlot(t1, i) == BySlot(t, i) && InputsOfItem(t1, i) == InputsOfItem(t, i)
  {
    WithRoundsForm(t, i, Max(RoundsNeeded(n) - |RoundsOfItem(t, i)|, 0));
    hide WithRounds;
    SameInputsSameSlots(t, EnoughRounds(t, i, RoundsNeeded(n)), i);
  }

  function AddMissing(t: Tables, i: Id, n: int): (t': Tables)
    requires n <= |InputsOfItem(t, i)| && forall r | r in t.rounds :: r < t.nextId
    ensures t' == t.(rounds := t'.rounds, matches := t'.matches, matchSets := t'.matchSets, nextId := t'.nextId)
    ensures n <= |InputsOfItem(t', i)| && forall r | r in t'.rounds :: r < t'.nextId
  {
    EnoughRoundsForm(t, i, n);
    var t1 := EnoughRounds(t, i, RoundsNeeded(n));
    var t' := TopUp(t1, i, Ids(RoundsOfItem(t1, i)), BySlot(t1, i), n, Combinations(n));
    SameInputsSameSlots(t, t', i);
    t'
  }

  /** New rounds have no matches. */
  lemma EnoughRoundsKeepsPairs(t: Tables, i: Id, n: int)
    requires (forall r | r in t.rounds :: r < t.nextId) && forall m | m in t.matches :: t.matches[m].round in t.rounds
    ensures var t1 := EnoughRounds(t, i, RoundsNeeded(n));
            && MatchesOfItem(t1, i) == MatchesOfItem(t, i) && PairsOf(t1, i) == PairsOf(t, i)
            && forall pair :: MatchesOfPair(t1, i, pair) == MatchesOfPair(t, i, pair)
  {
    EnoughRoundsForm(t, i, n);
    hide EnoughRounds, BySlot, Combinations;
    SamePairs(t, EnoughRounds(t, i, RoundsNeeded(n)), i);
  }

  lemma SamePairs(t: Tables, t1: Tables, i: Id)
    requires t1.matches == t.matches && forall m | m in t.matches :: t.matches[m].round in t.rounds
    requires forall r | r in t.rounds :: r in t1.rounds && t1.rounds[r] == t.rounds[r]
    ensures MatchesOfItem(t1, i) == MatchesOfItem(t, i) && PairsOf(t1, i) == PairsOf(t, i)
    ensures forall pair :: MatchesOfPair(t1, i, pair) == MatchesOfPair(t, i, pair)
  {
    forall m ensures m in MatchesOfItem(t1, i) <==> m in MatchesOfItem(t, i) {}
    hide MatchesOfItem;
    forall pair ensures MatchesOfPair(t1, i, pair) == MatchesOfPair(t, i, pair) {}
    forall pair ensures pair in PairsOf(t1, i) <==> pair in PairsOf(t, i) {
      PairHasMatch(t, i, pair);
      PairHasMatch(t1, i, pair);
    }
  }

  /** What a top-up leaves behind. */
  ghost predicate EveryPairPlays(t: Tables, t': Tables, i: Id) {
    && (forall m | m in t.matches :: m in t'.matches && t'.matches[m] == t.matches[m] && RowsOf(t', m) == RowsOf(t, m))
    && (forall x, y | x in InputsOfItem(t, i) && y in InputsOfItem(t, i) && x != y ::
          && {x, y} in PairsOf(t', i)
          && if {x, y} in PairsOf(t, i) then MatchesOfPair(t', i, {x, y}) == MatchesOfPair(t, i, {x, y})
             else |MatchesOfPair(t', i, {x, y})| == 1)
  }

  /** Whatever matches a resized round-robin item had, the top-up leaves them alone, every two inputs have
      a match afterwards, and a pair that had none has exactly one. Running it again changes nothing. */
  lemma AddMissingCompletes(t: Tables, i: Id, n: int)
    requires SlotsAre(t, i, n) && IdsBelowSequence(t) && forall m | m in t.matches :: t.matches[m].round in t.rounds
    ensures n <= |InputsOfItem(t, i)| && EveryPairPlays(t, AddMissing(t, i, n), i)
    ensures AddMissing(AddMissing(t, i, n), i, n) == AddMissing(t, i, n)
  {
    hide EnoughRounds, BySlot, PairsOf, AddMissing, SlotsAre, InputsOfItem, RoundsOfItem, EveryPairPlays, ToppedUp;
    SlotsCount(t, i, n);
    var t1, t' := EnoughRounds(t, i, RoundsNeeded(n)), AddMissing(t, i, n);
    AddMissingTopsUp(t, i, n);
    EnoughRoundsForm(t, i, n);
    TopUpFrame(t1, t', i);
    TableCovers(t, t', i, n);
    PairsPlay(t, t1, t', i, n);
    SecondTopUp(t1, t', i, n);
  }

  /** The top-up is a top-up for the table of all pairs. */
  lemma AddMissingTopsUp(t: Tables, i: Id, n: int)
    requires n <= |InputsOfItem(t, i)| == |BySlot(t, i)| && (forall r | r in t.rounds :: r < t.nextId)
    requires forall m | m in t.matches :: m < t.nextId
    ensures ToppedUp(EnoughRounds(t, i, RoundsNeeded(n)), AddMissing(t, i, n), i)
    ensures forall r, k | 0 <= r < |Combinations(n)| && 0 <= k < |Combinations(n)[r]|
                          && Combinations(n)[r][k].0 < n && Combinations(n)[r][k].1 < n ::
              {BySlot(t, i)[Combinations(n)[r][k].0], BySlot(t, i)[Combinations(n)[r][k].1]}
                in PairsOf(AddMissing(t, i, n), i)
  {
    hide EnoughRounds, BySlot, PairsOf, TopUp, InputsOfItem, RoundsOfItem, ToppedUp, Combinations;
    var t1 := EnoughRounds(t, i, RoundsNeeded(n));
    EnoughRoundsForm(t, i, n);
    ReadyForTopUp(t1, i);
    TableTopsUp(t1, i, Ids(RoundsOfItem(t1, i)), BySlot(t, i), n, Combinations(n));
  }

  lemma SlotsCount(t: Tables, i: Id, n: int)
    requires SlotsAre(t, i, n)
    ensures n == |InputsOfItem(t, i)| == |BySlot(t, i)|
  {
  }

  lemma ReadyForTopUp(t1: Tables, i: Id)
    requires forall m | m in t1.matches :: m < t1.nextId
    ensures Ready(t1, i, Ids(RoundsOfItem(t1, i)), BySlot(t1, i))
  {
  }

  lemma TopUpFrame(t1: Tables, t': Tables, i: Id)
    requires ToppedUp(t1, t', i)
    ensures t' == t1.(matches := t'.matches, matchSets := t'.matchSets, nextId := t'.nextId) && t1.nextId <= t'.nextId
    ensures InputsOfItem(t', i) == InputsOfItem(t1, i) && BySlot(t', i) == BySlot(t1, i)
    ensures RoundsOfItem(t', i) == RoundsOfItem(t1, i)
  {
    hide PairsOf, MatchesOfPair;
    SameInputsSameSlots(t1, t', i);
  }

  /** Two inputs of the item are two different positions, which the table pairs. */
  lemma TableCovers(t: Tables, t': Tables, i: Id, n: int)
    requires SlotsAre(t, i, n) && |BySlot(t, i)| == n
    requires forall r, k | 0 <= r < |Combinations(n)| && 0 <= k < |Combinations(n)[r]|
                           && Combinations(n)[r][k].0 < n && Combinations(n)[r][k].1 < n ::
               {BySlot(t, i)[Combinations(n)[r][k].0], BySlot(t, i)[Combinations(n)[r][k].1]} in PairsOf(t', i)
    ensures forall x, y | x in InputsOfItem(t, i) && y in InputsOfItem(t, i) && x != y :: {x, y} in PairsOf(t', i)
  {
    hide PairsOf, Combinations, InputsOfItem, SlotsAre;
    var order := BySlot(t, i);
    BySlotFacts(t, i);
    hide BySlot;
    forall x, y | x in InputsOfItem(t, i) && y in InputsOfItem(t, i) && x != y ensures {x, y} in PairsOf(t', i) {
      assert x in order && y in order;
      var a :| 0 <= a < |order| && order[a] == x;
      var b :| 0 <= b < |order| && order[b] == y;
      EveryPairMeetsOnce(n, Min(a, b), Max(a, b));
      var r, k :| Meets(Combinations(n), r, k, Min(a, b), Max(a, b));
      assert {order[a], order[b]} == {order[b], order[a]};
    }
  }

  lemma PairsPlay(t: Tables, t1: Tables, t': Tables, i: Id, n: int)
    requires (forall r | r in t.rounds :: r < t.nextId) && forall m | m in t.matches :: t.matches[m].round in t.rounds
    requires t1 == EnoughRounds(t, i, RoundsNeeded(n)) && ToppedUp(t1, t', i)
    requires forall x, y | x in InputsOfItem(t, i) && y in InputsOfItem(t, i) && x != y :: {x, y} in PairsOf(t', i)
    ensures EveryPairPlays(t, t', i)
  {
    hide EnoughRounds, PairsOf, MatchesOfPair, InputsOfItem;
    EnoughRoundsForm(t, i, n);
    EnoughRoundsKeepsPairs(t, i, n);
  }

  lemma SecondTopUp(t1: Tables, t': Tables, i: Id, n: int)
    requires t' == t1.(matches := t'.matches, matchSets := t'.matchSets, nextId := t'.nextId)
    requires n <= |InputsOfItem(t1, i)| && (forall r | r in t'.rounds :: r < t'.nextId)
    requires InputsOfItem(t', i) == InputsOfItem(t1, i) && BySlot(t', i) == BySlot(t1, i)
    requires RoundsOfItem(t', i) == RoundsOfItem(t1, i)
    requires |RoundsOfItem(t1, i)| >= RoundsNeeded(n) && n <= |BySlot(t1, i)|
    requires forall r, k | 0 <= r < |Combinations(n)| && 0 <= k < |Combinations(n)[r]|
                           && Combinations(n)[r][k].0 < n && Combinations(n)[r][k].1 < n ::
               {BySlot(t1, i)[Combinations(n)[r][k].0], BySlot(t1, i)[Combinations(n)[r][k].1]} in PairsOf(t', i)
    ensures AddMissing(t', i, n) == t'
  {
    hide BySlot, PairsOf, TopUp, InputsOfItem, RoundsOfItem, Combinations;
    EnoughRoundsForm(t', i, n);
    CoveredTable(t', i, Ids(RoundsOfItem(t', i)), BySlot(t', i), n, Combinations(n));
  }

  // ---------------------------------------------------------------- set rows of the new matches

  lemma {:induction false} CellsExtend(t: Tables, i: Id, round: Id, inputs: seq<Id>, n: int, cells: seq<(nat, nat)>)
    requires n <= |inputs| && round in t.rounds && t.rounds[round].stageItem == i
    requires forall m | m in t.matches :: m < t.nextId
    ensures var t' := TopUpRound(t, i, round, inputs, n, cells);
            Extended(t, t', i) && forall m | m in t'.matches :: m < t'.nextId
  {
    hide PairsOf, Extended, WithMatch;
    if cells == [] {
      NothingExtends(t, i);
    } else {
      var last := |cells| - 1;
      CellsExtend(t, i, round, inputs, n, cells[..last]);
      var s, t' := TopUpRound(t, i, round, inputs, n, cells[..last]), TopUpRound(t, i, round, inputs, n, cells);
      if cells[last].0 < n && cells[last].1 < n {
        MatchExtends(s, i, NewMatch(round, inputs[cells[last].0], inputs[cells[last].1]));
      }
      NothingExtends(s, i);
      ExtendedTwice(t, s, t', i);
    }
  }

  lemma {:induction false} TableExtends(t: Tables, i: Id, rounds: seq<Id>, inputs: seq<Id>, n: int,
    table: seq<seq<(nat, nat)>>)
    requires n <= |inputs| && |table| <= |rounds| && Ready(t, i, rounds, inputs)
    ensures var t' := TopUp(t, i, rounds, inputs, n, table);
            Extended(t, t', i) && forall m | m in t'.matches :: m < t'.nextId
  {
    hide TopUpRound, Extended;
    if table == [] {
      NothingExtends(t, i);
    } else {
      var last := |table| - 1;
      TableExtends(t, i, rounds, inputs, n, table[..last]);
      assert rounds[last] in rounds;
      CellsExtend(TopUp(t, i, rounds, inputs, n, table[..last]), i, rounds[last], inputs, n, table[last]);
      ExtendedTwice(t, TopUp(t, i, rounds, inputs, n, table[..last]), TopUp(t, i, rounds, inputs, n, table), i);
    }
  }

  lemma AddMissingExtends(t: Tables, i: Id, n: int)
    requires n <= |InputsOfItem(t, i)|
    requires (forall r | r in t.rounds :: r < t.nextId) && forall m | m in t.matches :: m < t.nextId
    ensures Extended(t, AddMissing(t, i, n), i)
  {
    hide TopUp, BySlot, InputsOfItem, RoundsOfItem, Ready, Combinations, Extended, WithRounds;
    var k := Max(RoundsNeeded(n) - |RoundsOfItem(t, i)|, 0);
    var t1 := EnoughRounds(t, i, RoundsNeeded(n));
    EnoughRoundsForm(t, i, n);
    SlotsListed(t, i);
    RoundsExtend(t, i, k);
    ReadyForTopUp(t1, i);
    TableExtends(t1, i, Ids(RoundsOfItem(t1, i)), BySlot(t1, i), n, Combinations(n));
    ExtendedTwice(t, t1, AddMissing(t, i, n), i);
  }

  /** Some two inputs of the item have no match with each other. */
  ghost predicate LacksPair(t: Tables, i: Id) {
    exists x, y :: x in InputsOfItem(t, i) && y in InputsOfItem(t, i) && x != y && {x, y} !in PairsOf(t, i)
  }

  /** The top-up adds a match exactly when some two inputs lack one. */
  lemma AddMissingAdds(t: Tables, i: Id, n: int)
    requires SlotsAre(t, i, n) && IdsBelowSequence(t) && forall m | m in t.matches :: t.matches[m].round in t.rounds
    ensures n <= |InputsOfItem(t, i)|
    ensures AddMissing(t, i, n).matches.Keys != t.matches.Keys <==> LacksPair(t, i)
  {
    hide EnoughRounds, BySlot, AddMissing, SlotsAre, InputsOfItem, Extended, PairsOf, Combinations, TopUp;
    AddMissingCompletes(t, i, n);
    AddMissingExtends(t, i, n);
    var t' := AddMissing(t, i, n);
    if LacksPair(t, i) {
      var x, y :| x in InputsOfItem(t, i) && y in InputsOfItem(t, i) && x != y && {x, y} !in PairsOf(t, i);
      NewPairNewMatch(t, t', i, {x, y});
    } else {
      NothingLacking(t, i, n);
    }
  }

  lemma NewPairNewMatch(t: Tables, t': Tables, i: Id, pair: set<Id>)
    requires Extended(t, t', i) && pair in PairsOf(t', i) && pair !in PairsOf(t, i)
    requires forall m | m in t.matches :: t.matches[m].round in t.rounds
    ensures t'.matches.Keys != t.matches.Keys
  {
    PairHasMatch(t', i, pair);
    EmptyOrHasMember(MatchesOfPair(t', i, pair));
    var m :| m in MatchesOfPair(t', i, pair);
    if m in t.matches { OldPair(t, t', i, pair, m); }
  }

  lemma OldPair(t: Tables, t': Tables, i: Id, pair: set<Id>, m: Id)
    requires Extended(t, t', i) && m in t.matches && m in MatchesOfPair(t', i, pair) && t.matches[m].round in t.rounds
    ensures pair in PairsOf(t, i)
  {
    PairHasMatch(t, i, pair);
    assert m in MatchesOfPair(t, i, pair);
  }

  lemma NothingLacking(t: Tables, i: Id, n: int)
    requires SlotsAre(t, i, n) && !LacksPair(t, i) && n <= |InputsOfItem(t, i)|
    requires (forall r | r in t.rounds :: r < t.nextId) && forall m | m in t.matches :: t.matches[m].round in t.rounds
    ensures AddMissing(t, i, n).matches == t.matches
  {
    hide EnoughRounds, BySlot, SlotsAre, InputsOfItem, PairsOf, Combinations, TopUp;
    var t1 := EnoughRounds(t, i, RoundsNeeded(n));
    EnoughRoundsForm(t, i, n);
    EnoughRoundsKeepsPairs(t, i, n);
    SlotsCount(t, i, n);
    TablePairs(t1, i, n, BySlot(t1, i));
    CoveredTable(t1, i, Ids(RoundsOfItem(t1, i)), BySlot(t1, i), n, Combinations(n));
  }

  lemma TablePairs(t: Tables, i: Id, n: int, order: seq<Id>)
    requires !LacksPair(t, i) && order == BySlot(t, i) && n <= |order|
    ensures forall r, k | 0 <= r < |Combinations(n)| && 0 <= k < |Combinations(n)[r]|
                          && Combinations(n)[r][k].0 < n && Combinations(n)[r][k].1 < n ::
              {order[Combinations(n)[r][k].0], order[Combinations(n)[r][k].1]} in PairsOf(t, i)
  {
    hide PairsOf, Combinations, InputsOfItem, Slots;
    BySlotFacts(t, i);
    OrderIsDistinct(order, Slots(t));
    hide BySlot;
    forall r, k | 0 <= r < |Combinations(n)| && 0 <= k < |Combinations(n)[r]|
                  && Combinations(n)[r][k].0 < n && Combinations(n)[r][k].1 < n
      ensures {order[Combinations(n)[r][k].0], order[Combinations(n)[r][k].1]} in PairsOf(t, i)
    {
      var a, b := Combinations(n)[r][k].0, Combinations(n)[r][k].1;
      assert Meets(Combinations(n), r, k, a, b);
      NobodyMeetsHimself(n, r, k, a, b);
      assert order[a] in order && order[b] in order && order[a] != order[b];
    }
  }

  /** The matches a top-up creates fit the item's ranking exactly when it asks for a set, or none is created. */
  lemma AddMissingKeepsProgress(t: Tables, i: Id, n: int)
    requires ChainRefers(t) && i in t.stageItems && SlotsAre(t, i, n)
    ensures n <= |InputsOfItem(t, i)| && (forall r | r in t.rounds :: r < t.nextId)
    ensures ProgressOk(AddMissing(t, i, n)) <==> ProgressOk(t) && (NumSetsOfItem(t, i) >= 1 || !LacksPair(t, i))
  {
    hide ProgressOk, EnoughRounds, BySlot, AddMissing, InputsOfItem, Extended, LacksPair, NumSetsOfItem;
    SequenceAhead(t);
    AddMissingAdds(t, i, n);
    AddMissingExtends(t, i, n);
    ExtendedFits(t, AddMissing(t, i, n), i);
  }

  lemma SequenceAhead(t: Tables)
    requires ChainRefers(t)
    ensures (forall r | r in t.rounds :: r < t.nextId) && forall m | m in t.matches :: m < t.nextId
    ensures IdsBelowSequence(t) && forall m | m in t.matches :: t.matches[m].round in t.rounds
  {
  }

  lemma SlotsListed(t: Tables, i: Id)
    ensures |BySlot(t, i)| == |InputsOfItem(t, i)|
  {
  }

  // ---------------------------------------------------------------- building a new item

  /** One round of a new item: its cells one by one, without looking for existing matches. */
  function BuiltCells(t: Tables, round: Id, inputs: seq<Id>, n: int, cells: seq<(nat, nat)>): Tables
    requires n <= |inputs|
  {
    if cells == [] then t else
      var s, cell := BuiltCells(t, round, inputs, n, cells[..|cells| - 1]), cells[|cells| - 1];
      if cell.0 < n && cell.1 < n then WithMatch(s, NewMatch(round, inputs[cell.0], inputs[cell.1])) else s
  }

  function BuiltTable(t: Tables, rounds: seq<Id>, inputs: seq<Id>, n: int, table: seq<seq<(nat, nat)>>): Tables
    requires n <= |inputs| && |table| <= |rounds|
  {
    if table == [] then t else
      var k := |table| - 1;
      BuiltCells(BuiltTable(t, rounds, inputs, n, table[..k]), rounds[k], inputs, n, table[k])
  }

  /** Every match of the item plays a cell of the table before cell m of round r. */
  ghost predicate PlaysOnlyBefore(t: Tables, i: Id, inputs: seq<Id>, n: int, r: int, m: int)
    requires n <= |inputs|
  {
    forall pair | pair in PairsOf(t, i) :: exists r', m', a, b ::
      && Meets(Combinations(n), r', m', a, b) && (r' < r || (r' == r && m' < m))
      && 0 <= a < n && 0 <= b < n && pair == {inputs[a], inputs[b]}
  }

  lemma PairIsNew(t: Tables, i: Id, inputs: seq<Id>, n: int, r: int, m: int, a: int, b: int)
    requires n <= |inputs| && PlaysOnlyBefore(t, i, inputs, n, r, m)
    requires forall x, y | 0 <= x < y < |inputs| :: inputs[x] != inputs[y]
    requires Meets(Combinations(n), r, m, a, b) && 0 <= a < n && 0 <= b < n
    ensures {inputs[a], inputs[b]} !in PairsOf(t, i)
  {
    hide Combinations, PairsOf;
    NobodyMeetsHimself(n, r, m, a, b);
    if {inputs[a], inputs[b]} in PairsOf(t, i) {
      var r', m', c, d :| && Meets(Combinations(n), r', m', c, d) && (r' < r || (r' == r && m' < m))
                          && 0 <= c < n && 0 <= d < n && {inputs[a], inputs[b]} == {inputs[c], inputs[d]};
      SameCell(inputs, n, r, m, a, b, r', m', c, d);
    }
  }

  lemma SameCell(inputs: seq<Id>, n: int, r: int, m: int, a: int, b: int, r': int, m': int, c: int, d: int)
    requires n <= |inputs| && 0 <= a < n && 0 <= b < n && 0 <= c < n && 0 <= d < n
    requires forall x, y | 0 <= x < y < |inputs| :: inputs[x] != inputs[y]
    requires Meets(Combinations(n), r, m, a, b) && Meets(Combinations(n), r', m', c, d)
    requires {inputs[a], inputs[b]} == {inputs[c], inputs[d]}
    ensures r == r' && m == m'
  {
    hide Combinations;
    NobodyMeetsHimself(n, r, m, a, b);
    NobodyMeetsHimself(n, r', m', c, d);
    assert inputs[c] in {inputs[a], inputs[b]} && inputs[d] in {inputs[a], inputs[b]};
    EveryPairMeetsOnce(n, Min(a, b), Max(a, b));
    assert Meets(Combinations(n), r', m', Min(a, b), Max(a, b)) && Meets(Combinations(n), r, m, Min(a, b), Max(a, b));
  }

  lemma BeforeNextCell(t: Tables, i: Id, round: Id, inputs: seq<Id>, n: int, r: int, m: int, a: int, b: int)
    requires n <= |inputs| && PlaysOnlyBefore(t, i, inputs, n, r, m)
    requires Meets(Combinations(n), r, m, a, b) && 0 <= a < n && 0 <= b < n
    requires t.nextId !in t.matches && round in t.rounds && t.rounds[round].stageItem == i
    ensures PlaysOnlyBefore(WithMatch(t, NewMatch(round, inputs[a], inputs[b])), i, inputs, n, r, m + 1)
  {
    hide Combinations, PairsOf, WithMatch;
    WithMatchPairs(t, i, round, inputs[a], inputs[b]);
    var t' := WithMatch(t, NewMatch(round, inputs[a], inputs[b]));
    forall pair | pair in PairsOf(t', i)
      ensures exists r', m', c, d ::
        && Meets(Combinations(n), r', m', c, d) && (r' < r || (r' == r && m' < m + 1))
        && 0 <= c < n && 0 <= d < n && pair == {inputs[c], inputs[d]}
    {
      if pair == {inputs[a], inputs[b]} {
        assert Meets(Combinations(n), r, m, a, b);
      } else {
        assert pair in PairsOf(t, i);
        var r', m', c, d :| && Meets(Combinations(n), r', m', c, d) && (r' < r || (r' == r && m' < m))
                            && 0 <= c < n && 0 <= d < n && pair == {inputs[c], inputs[d]};
      }
    }
  }

  lemma LaterIsBefore(t: Tables, i: Id, inputs: seq<Id>, n: int, r: int, m: int, r1: int, m1: int)
    requires n <= |inputs| && PlaysOnlyBefore(t, i, inputs, n, r, m) && (r < r1 || (r == r1 && m <= m1))
    ensures PlaysOnlyBefore(t, i, inputs, n, r1, m1)
  {
    hide Combinations, PairsOf;
    forall pair | pair in PairsOf(t, i)
      ensures exists r', m', c, d ::
        && Meets(Combinations(n), r', m', c, d) && (r' < r1 || (r' == r1 && m' < m1))
        && 0 <= c < n && 0 <= d < n && pair == {inputs[c], inputs[d]}
    {
      var r', m', c, d :| && Meets(Combinations(n), r', m', c, d) && (r' < r || (r' == r && m' < m))
                          && 0 <= c < n && 0 <= d < n && pair == {inputs[c], inputs[d]};
    }
  }

  lemma {:induction false} BuiltCellsTopUp(t: Tables, i: Id, round: Id, inputs: seq<Id>, n: int, r: nat, m: nat)
    requires n <= |inputs| && r < |Combinations(n)| && m <= |Combinations(n)[r]|
    requires PlaysOnlyBefore(t, i, inputs, n, r, 0) && forall x, y | 0 <= x < y < |inputs| :: inputs[x] != inputs[y]
    requires (forall x | x in t.matches :: x < t.nextId) && round in t.rounds && t.rounds[round].stageItem == i
    ensures var cells := Combinations(n)[r][..m];
            var t' := TopUpRound(t, i, round, inputs, n, cells);
            && BuiltCells(t, round, inputs, n, cells) == t' && PlaysOnlyBefore(t', i, inputs, n, r, m)
            && t'.rounds == t.rounds && forall x | x in t'.matches :: x < t'.nextId
  {
    hide PairsOf, PlaysOnlyBefore, WithMatch, Combinations, MatchesOfItem;
    if m > 0 {
      var cells := Combinations(n)[r][..m];
      assert cells[..m - 1] == Combinations(n)[r][..m - 1];
      BuiltCellsTopUp(t, i, round, inputs, n, r, m - 1);
      var s, cell := TopUpRound(t, i, round, inputs, n, cells[..m - 1]), cells[m - 1];
      LaterIsBefore(s, i, inputs, n, r, m - 1, r, m);
      if cell.0 < n && cell.1 < n {
        assert Meets(Combinations(n), r, m - 1, cell.0, cell.1);
        PairIsNew(s, i, inputs, n, r, m - 1, cell.0, cell.1);
        BeforeNextCell(s, i, round, inputs, n, r, m - 1, cell.0, cell.1);
        NextIsBelow(s, NewMatch(round, inputs[cell.0], inputs[cell.1]));
      }
    }
  }

  lemma NextIsBelow(t: Tables, row: Match)
    requires forall x | x in t.matches :: x < t.nextId
    ensures forall x | x in WithMatch(t, row).matches :: x < WithMatch(t, row).nextId
    ensures WithMatch(t, row).rounds == t.rounds
  {
  }

  /** On an item without matches the builder and the top-up do the same: no pair comes twice in the table. */
  lemma {:induction false} BuildIsTopUp(t: Tables, i: Id, rounds: seq<Id>, inputs: seq<Id>, n: int, r: nat)
    requires n <= |inputs| && r <= |Combinations(n)| <= |rounds| && Ready(t, i, rounds, inputs)
    requires MatchesOfItem(t, i) == {} && forall x, y | 0 <= x < y < |inputs| :: inputs[x] != inputs[y]
    ensures var table := Combinations(n)[..r];
            var t' := TopUp(t, i, rounds, inputs, n, table);
            && BuiltTable(t, rounds, inputs, n, table) == t' && PlaysOnlyBefore(t', i, inputs, n, r, 0)
            && t'.rounds == t.rounds && forall x | x in t'.matches :: x < t'.nextId
  {
    hide PlaysOnlyBefore, Combinations, TopUpRound, BuiltCells, PairsOf;
    if r == 0 {
      NothingPlayed(t, i, inputs, n);
    } else {
      var table := Combinations(n)[..r];
      assert table[..r - 1] == Combinations(n)[..r - 1];
      BuildIsTopUp(t, i, rounds, inputs, n, r - 1);
      var s, cells := TopUp(t, i, rounds, inputs, n, table[..r - 1]), Combinations(n)[r - 1];
      assert cells[..|cells|] == cells && rounds[r - 1] in rounds;
      BuiltCellsTopUp(s, i, rounds[r - 1], inputs, n, r - 1, |cells|);
      LaterIsBefore(TopUp(t, i, rounds, inputs, n, table), i, inputs, n, r - 1, |cells|, r, 0);
    }
  }

  lemma NothingPlayed(t: Tables, i: Id, inputs: seq<Id>, n: int)
    requires n <= |inputs| && MatchesOfItem(t, i) == {}
    ensures PlaysOnlyBefore(t, i, inputs, n, 0, 0)
  {
    assert PairsOf(t, i) == {};
  }

  /** A new item of n inputs and without rounds: creating its rounds and building its matches is a top-up. */
  lemma NewItemIsTopUp(t: Tables, i: Id, n: int)
    requires n <= |InputsOfItem(t, i)| && RoundsOfItem(t, i) == {} && MatchesOfItem(t, i) == {}
    requires (forall r | r in t.rounds :: r < t.nextId) && forall m | m in t.matches :: m < t.nextId
    requires forall m | m in t.matches :: t.matches[m].round in t.rounds
    ensures var t1 := WithRounds(t, i, RoundsNeeded(n));
            var rounds := Ids(RoundsOfItem(t1, i));
            && |rounds| == |Combinations(n)| && n <= |BySlot(t1, i)|
            && BuiltTable(t1, rounds, BySlot(t1, i), n, Combinations(n)) == AddMissing(t, i, n)
  {
    hide TopUp, BuiltTable, Combinations, WithRounds, Ready, InputsOfItem, RoundsOfItem, PlaysOnlyBefore, BySlot,
      Slots, MatchesOfItem, PairsOf, Ids, SortedBy;
    var t1 := EnoughRounds(t, i, RoundsNeeded(n));
    WithRoundsForm(t, i, RoundsNeeded(n));
    EnoughRoundsForm(t, i, n);
    EnoughRoundsKeepsPairs(t, i, n);
    SlotsListed(t, i);
    ReadyForTopUp(t1, i);
    BySlotFacts(t1, i);
    OrderIsDistinct(BySlot(t1, i), Slots(t1));
    BuildIsTopUp(t1, i, Ids(RoundsOfItem(t1, i)), BySlot(t1, i), n, |Combinations(n)|);
    assert Combinations(n)[..|Combinations(n)|] == Combinations(n);
  }

  // ---------------------------------------------------------------- the program

  method TopUpOneCell(db: Database, i: Id, round: Id, inputs: seq<Id>, n: int, cell: (nat, nat), existing: set<set<Id>>)
    returns (pairs: set<set<Id>>)
    requires n <= |inputs| && Ready(db.Snapshot(), i, [round], inputs) && existing == PairsOf(db.Snapshot(), i)
    modifies db`matches, db`matchSets, db`nextId
    ensures db.Snapshot() == TopUpCell(old(db.Snapshot()), i, round, inputs, n, cell)
    ensures pairs == PairsOf(db.Snapshot(), i) && Ready(db.Snapshot(), i, [round], inputs)
  {
    hide PairsOf;
    assert round in [round];
    if cell.0 >= n || cell.1 >= n { return existing; }
    var x, y := inputs[cell.0], inputs[cell.1];
    if {x, y} in existing { return existing; }
    assert x in inputs && y in inputs;
    WithMatchPairs(db.Snapshot(), i, round, x, y);
    hide WithMatch;
    var id, error := SqlCreateMatch(db, NewMatch(round, x, y));
    return existing + {{x, y}};
  }

  /** The inner loop: one round's pairings. */
  method AddMissingInRound(db: Database, i: Id, round: Id, inputs: seq<Id>, n: int, cells: seq<(nat, nat)>,
    existing: set<set<Id>>)
    returns (pairs: set<set<Id>>)
    requires n <= |inputs| && Ready(db.Snapshot(), i, [round], inputs) && existing == PairsOf(db.Snapshot(), i)
    modifies db`matches, db`matchSets, db`nextId
    ensures db.Snapshot() == TopUpRound(old(db.Snapshot()), i, round, inputs, n, cells)
    ensures pairs == PairsOf(db.Snapshot(), i) && forall m | m in db.matches :: m < db.nextId
  {
    hide PairsOf, TopUpCell;
    ghost var before := db.Snapshot();
    pairs := existing;
    for k := 0 to |cells|
      invariant db.Snapshot() == TopUpRound(before, i, round, inputs, n, cells[..k])
      invariant pairs == PairsOf(db.Snapshot(), i)
      invariant Ready(db.Snapshot(), i, [round], inputs)
    {
      assert cells[..k + 1][..k] == cells[..k];
      pairs := TopUpOneCell(db, i, round, inputs, n, cells[k], pairs);
    }
    assert cells[..|cells|] == cells;
  }

  method TopUpTable(db: Database, i: Id, rounds: seq<Id>, inputs: seq<Id>, n: int, table: seq<seq<(nat, nat)>>)
    requires n <= |inputs| && |table| <= |rounds| && Ready(db.Snapshot(), i, rounds, inputs)
    modifies db`matches, db`matchSets, db`nextId
    ensures db.Snapshot() == TopUp(old(db.Snapshot()), i, rounds, inputs, n, table)
  {
    hide PairsOf, TopUpRound;
    ghost var before := db.Snapshot();
    var existing := PairsOf(db.Snapshot(), i);
    for r := 0 to |table|
      invariant db.Snapshot() == TopUp(before, i, rounds, inputs, n, table[..r])
      invariant existing == PairsOf(db.Snapshot(), i)
      invariant forall m | m in db.matches :: m < db.nextId
    {
      assert table[..r + 1][..r] == table[..r];
      assert rounds[r] in rounds;
      existing := AddMissingInRound(db, i, rounds[r], inputs, n, table[r], existing);
    }
    assert table[..|table|] == table;
  }

  /** The inner loop of the builder. */
  method BuildRound(db: Database, round: Id, inputs: seq<Id>, n: int, cells: seq<(nat, nat)>)
    requires n <= |inputs| && round in db.rounds && forall x | x in inputs :: x in db.inputs
    modifies db`matches, db`matchSets, db`nextId
    ensures db.Snapshot() == BuiltCells(old(db.Snapshot()), round, inputs, n, cells)
  {
    hide WithMatch;
    ghost var before := db.Snapshot();
    for k := 0 to |cells|
      invariant db.Snapshot() == BuiltCells(before, round, inputs, n, cells[..k])
    {
      assert cells[..k + 1][..k] == cells[..k];
      if cells[k].0 < n && cells[k].1 < n {
        assert inputs[cells[k].0] in inputs && inputs[cells[k].1] in inputs;
        var id, error := SqlCreateMatch(db, NewMatch(round, inputs[cells[k].0], inputs[cells[k].1]));
      }
    }
    assert cells[..|cells|] == cells;
  }

  lemma ItemRowsExist(t: Tables, i: Id)
    ensures forall x | x in BySlot(t, i) :: x in t.inputs
    ensures forall r | r in Ids(RoundsOfItem(t, i)) :: r in t.rounds
  {
  }

  /** The outer loop of the builder: round k gets the k-th row of the table. */
  method BuildTable(db: Database, rounds: seq<Id>, inputs: seq<Id>, n: int, table: seq<seq<(nat, nat)>>)
    requires n <= |inputs| && |table| == |rounds|
    requires (forall x | x in inputs :: x in db.inputs) && forall r | r in rounds :: r in db.rounds
    modifies db`matches, db`matchSets, db`nextId
    ensures db.Snapshot() == BuiltTable(old(db.Snapshot()), rounds, inputs, n, table)
  {
    hide BuiltCells;
    ghost var before := db.Snapshot();
    for r := 0 to |rounds|
      invariant db.Snapshot() == BuiltTable(before, rounds, inputs, n, table[..r])
    {
      assert table[..r + 1][..r] == table[..r] && rounds[r] in rounds;
      BuildRound(db, rounds[r], inputs, n, table[r]);
    }
    assert table[..|table|] == table;
  }

  /** The builder of a new round-robin item, whose rounds were created just before. */
  method BuildRoundRobinStageItem(db: Database, i: Id, n: int)
    requires n <= |BySlot(db.Snapshot(), i)| && |RoundsOfItem(db.Snapshot(), i)| == |Combinations(n)|
    modifies db`matches, db`matchSets, db`nextId
    ensures var before := old(db.Snapshot());
            db.Snapshot() == BuiltTable(before, Ids(RoundsOfItem(before, i)), BySlot(before, i), n, Combinations(n))
  {
    hide BuiltTable, Combinations, BySlot, RoundsOfItem, InputsOfItem;
    var table := GetRoundRobinCombinations(n);
    ItemRowsExist(db.Snapshot(), i);
    BuildTable(db, Ids(RoundsOfItem(db.Snapshot(), i)), BySlot(db.Snapshot(), i), n, table);
  }

  method AddMissingRoundRobinMatches(db: Database, i: Id, n: int)
    requires i in db.stageItems && n <= |InputsOfItem(db.Snapshot(), i)|
    requires (forall r | r in db.rounds :: r < db.nextId) && forall m | m in db.matches :: m < db.nextId
    modifies db`rounds, db`matches, db`matchSets, db`nextId
    ensures db.Snapshot() == AddMissing(old(db.Snapshot()), i, n)
  {
    hide TopUp, EnoughRounds, BySlot, InputsOfItem, RoundsOfItem, Ready, Combinations;
    ghost var before := db.Snapshot();
    EnoughRoundsForm(before, i, n);
    SlotsListed(before, i);
    EnsureRoundCountForRoundRobin(db, i, n);
    ReadyForTopUp(db.Snapshot(), i);
    var table := GetRoundRobinCombinations(n);
    TopUpTable(db, i, Ids(RoundsOfItem(db.Snapshot(), i)), BySlot(db.Snapshot(), i), n, table);
  }
}
