/** In which rounds the matches of a round robin are, and who is named first: every match a top-up adds is one cell of
    the table, in the round of the cell's row, so nobody plays twice in a round. */
module RoundRobinRounds {
  import opened Schema
  import opened MatchSets
  import opened Deletion
  import opened StageItemResize
  import opened ItemMatches
  import opened RoundRobin

  // ---------------------------------------------------------------- cells

  /** The match plays cell k of these, in this round; nothing else about it is set. */
  predicate PlaysCell(row: Match, round: Id, inputs: seq<Id>, n: int, cells: seq<(nat, nat)>, k: int) {
    && 0 <= k < |cells| && cells[k].0 < n <= |inputs| && cells[k].1 < n && row.round == round
    && row.input1 == Some(inputs[cells[k].0]) && row.input2 == Some(inputs[cells[k].1])
    && row.winnerFrom1.None? && row.winnerFrom2.None? && row.court.None? && row.referee.None?
    && row.slot1.None? && row.slot2.None? && row.refereeSlot.None?
  }

  ghost predicate PlaysSome(row: Match, round: Id, inputs: seq<Id>, n: int, cells: seq<(nat, nat)>) {
    exists k :: PlaysCell(row, round, inputs, n, cells, k)
  }

  lemma CellOfPrefix(row: Match, round: Id, inputs: seq<Id>, n: int, cells: seq<(nat, nat)>)
    requires cells != [] && PlaysSome(row, round, inputs, n, cells[..|cells| - 1])
    ensures PlaysSome(row, round, inputs, n, cells)
  {
    var last := |cells| - 1;
    var k :| PlaysCell(row, round, inputs, n, cells[..last], k);
    assert cells[..last][k] == cells[k];
    assert PlaysCell(row, round, inputs, n, cells, k);
  }

  lemma NewPlaysCell(round: Id, inputs: seq<Id>, n: int, cells: seq<(nat, nat)>)
    requires cells != [] && n <= |inputs| && cells[|cells| - 1].0 < n && cells[|cells| - 1].1 < n
    ensures var cell := cells[|cells| - 1];
            PlaysSome(Inserted(NewMatch(round, inputs[cell.0], inputs[cell.1])), round, inputs, n, cells)
  {
    var cell := cells[|cells| - 1];
    assert PlaysCell(Inserted(NewMatch(round, inputs[cell.0], inputs[cell.1])), round, inputs, n, cells, |cells| - 1);
  }

  /** A match is unchanged, or new and that of the cell. */
  lemma CellAdds(t: Tables, i: Id, round: Id, inputs: seq<Id>, n: int, cells: seq<(nat, nat)>, m: Id)
    requires n <= |inputs| && cells != []
    ensures var t' := TopUpCell(t, i, round, inputs, n, cells[|cells| - 1]);
            m in t'.matches ==> (m in t.matches && t'.matches[m] == t.matches[m])
                                || PlaysSome(t'.matches[m], round, inputs, n, cells)
  {
    hide PlaysSome, PairsOf, NewMatch, Inserted, WithMatch;
    var cell := cells[|cells| - 1];
    if cell.0 < n && cell.1 < n {
      NewPlaysCell(round, inputs, n, cells);
      OnlyOneMore(t, NewMatch(round, inputs[cell.0], inputs[cell.1]), m);
    }
  }

  lemma OnlyOneMore(t: Tables, row: Match, m: Id)
    ensures var t' := WithMatch(t, row);
            m in t'.matches ==> (m in t.matches && t'.matches[m] == t.matches[m]) || t'.matches[m] == Inserted(row)
  {
    hide Inserted, NewSets, NumSetsForRound;
  }

  lemma {:induction false} RoundFromCells(t: Tables, i: Id, round: Id, inputs: seq<Id>, n: int, cells: seq<(nat, nat)>)
    requires n <= |inputs|
    ensures var t' := TopUpRound(t, i, round, inputs, n, cells);
            forall m | m in t'.matches :: (m in t.matches && t'.matches[m] == t.matches[m])
                                          || PlaysSome(t'.matches[m], round, inputs, n, cells)
  {
    if cells != [] {
      hide PlaysSome, TopUpCell;
      var last := |cells| - 1;
      RoundFromCells(t, i, round, inputs, n, cells[..last]);
      var s, t' := TopUpRound(t, i, round, inputs, n, cells[..last]), TopUpRound(t, i, round, inputs, n, cells);
      forall m | m in t'.matches
        ensures (m in t.matches && t'.matches[m] == t.matches[m]) || PlaysSome(t'.matches[m], round, inputs, n, cells)
      {
        CellAdds(s, i, round, inputs, n, cells, m);
        if m in s.matches && t'.matches[m] == s.matches[m] && PlaysSome(s.matches[m], round, inputs, n, cells[..last]) {
          CellOfPrefix(s.matches[m], round, inputs, n, cells);
        }
      }
    }
  }

  // ---------------------------------------------------------------- the table

  ghost predicate PlaysRow(row: Match, rounds: seq<Id>, inputs: seq<Id>, n: int, table: seq<seq<(nat, nat)>>, r: int) {
    0 <= r < |table| && r < |rounds| && PlaysSome(row, rounds[r], inputs, n, table[r])
  }

  ghost predicate PlaysTable(row: Match, rounds: seq<Id>, inputs: seq<Id>, n: int, table: seq<seq<(nat, nat)>>) {
    exists r :: PlaysRow(row, rounds, inputs, n, table, r)
  }

  lemma RowOfPrefix(row: Match, rounds: seq<Id>, inputs: seq<Id>, n: int, table: seq<seq<(nat, nat)>>)
    requires table != [] && PlaysTable(row, rounds, inputs, n, table[..|table| - 1])
    ensures PlaysTable(row, rounds, inputs, n, table)
  {
    hide PlaysSome;
    var r :| PlaysRow(row, rounds, inputs, n, table[..|table| - 1], r);
    assert PlaysRow(row, rounds, inputs, n, table, r);
  }

  /** Every match a top-up adds plays a cell of the table in the round of its row. */
  lemma {:induction false} TableFromCells(t: Tables, i: Id, rounds: seq<Id>, inputs: seq<Id>, n: int,
    table: seq<seq<(nat, nat)>>)
    requires n <= |inputs| && |table| <= |rounds|
    ensures var t' := TopUp(t, i, rounds, inputs, n, table);
            forall m | m in t'.matches :: (m in t.matches && t'.matches[m] == t.matches[m])
                                          || PlaysTable(t'.matches[m], rounds, inputs, n, table)
  {
    if table != [] {
      hide PlaysSome, TopUpRound, PlaysTable;
      var last := |table| - 1;
      TableFromCells(t, i, rounds, inputs, n, table[..last]);
      var s, t' := TopUp(t, i, rounds, inputs, n, table[..last]), TopUp(t, i, rounds, inputs, n, table);
      RoundFromCells(s, i, rounds[last], inputs, n, table[last]);
      forall m | m in t'.matches
        ensures (m in t.matches && t'.matches[m] == t.matches[m]) || PlaysTable(t'.matches[m], rounds, inputs, n, table)
      {
        if PlaysSome(t'.matches[m], rounds[last], inputs, n, table[last]) {
          LastRowPlays(t'.matches[m], rounds, inputs, n, table);
        } else if PlaysTable(t'.matches[m], rounds, inputs, n, table[..last]) {
          RowOfPrefix(t'.matches[m], rounds, inputs, n, table);
        }
      }
    }
  }

  lemma LastRowPlays(row: Match, rounds: seq<Id>, inputs: seq<Id>, n: int, table: seq<seq<(nat, nat)>>)
    requires table != [] && |table| <= |rounds|
    requires PlaysSome(row, rounds[|table| - 1], inputs, n, table[|table| - 1])
    ensures PlaysTable(row, rounds, inputs, n, table)
  {
    hide PlaysSome;
    assert PlaysRow(row, rounds, inputs, n, table, |table| - 1);
  }

  // ---------------------------------------------------------------- nobody plays twice in a round

  /** A team stands in one place of a row. */
  lemma OnePlacePerRow(n: int, r: int, k: int, k': int, a: int)
    requires 0 <= r < |Combinations(n)| && 0 <= k < |Combinations(n)[r]| && 0 <= k' < |Combinations(n)[r]|
    requires a == Combinations(n)[r][k].0 || a == Combinations(n)[r][k].1
    requires a == Combinations(n)[r][k'].0 || a == Combinations(n)[r][k'].1
    ensures k == k'
  {
    var rounds := RoundsOf(n);
    assert Combinations(n)[r][k] == (At(rounds, r, k), At(rounds, r, rounds - k));
    assert Combinations(n)[r][k'] == (At(rounds, r, k'), At(rounds, r, rounds - k'));
    var h := rounds / 2;
    assert rounds == 2 * h + 1;
  }

  predicate SharesInput(m: Match, m': Match) {
    (m.input1.Some? && PlaysIn(m', m.input1.value)) || (m.input2.Some? && PlaysIn(m', m.input2.value))
  }

  /** Two matches of one round that share an input play the same cell. */
  lemma SharedIsSame(m: Match, m': Match, rounds: seq<Id>, inputs: seq<Id>, n: int)
    requires PlaysTable(m, rounds, inputs, n, Combinations(n)) && PlaysTable(m', rounds, inputs, n, Combinations(n))
    requires forall x, y | 0 <= x < y < |inputs| :: inputs[x] != inputs[y]
    requires forall x, y | 0 <= x < y < |rounds| :: rounds[x] != rounds[y]
    requires m.round == m'.round && SharesInput(m, m')
    ensures m.input1 == m'.input1 && m.input2 == m'.input2 && m.input1.Some? && m.input2.Some?
  {
    hide Combinations;
    var r :| PlaysRow(m, rounds, inputs, n, Combinations(n), r);
    var r' :| PlaysRow(m', rounds, inputs, n, Combinations(n), r');
    assert rounds[r] == rounds[r'] && r == r';
    var k :| PlaysCell(m, rounds[r], inputs, n, Combinations(n)[r], k);
    var k' :| PlaysCell(m', rounds[r], inputs, n, Combinations(n)[r], k');
    var a, b := Combinations(n)[r][k].0, Combinations(n)[r][k].1;
    if PlaysIn(m', inputs[a]) { OnePlacePerRow(n, r, k, k', a); }
    if PlaysIn(m', inputs[b]) { OnePlacePerRow(n, r, k, k', b); }
  }

  // ---------------------------------------------------------------- a top-up

  /** What a top-up from `t` to `t'` puts where: each new match plays a cell in the round of the cell's row, among the
      item's rounds by age and its inputs by slot, and no two new matches of a round share an input. */
  ghost predicate Scheduled(t: Tables, t': Tables, i: Id, n: int) {
    && (forall m | m in t'.matches && m !in t.matches ::
          PlaysTable(t'.matches[m], Ids(RoundsOfItem(t', i)), BySlot(t', i), n, Combinations(n)))
    && (forall m, m' | m in t'.matches && m !in t.matches && m' in t'.matches && m' !in t.matches && m != m'
                       && t'.matches[m].round == t'.matches[m'].round ::
          !SharesInput(t'.matches[m], t'.matches[m']))
    && (forall r | r in t'.rounds && r !in t.rounds :: t'.rounds[r] == Round(i, Lifecycle.Active))
    && |RoundsOfItem(t', i)| == Max(|RoundsOfItem(t, i)|, RoundsNeeded(n))
  }

  lemma TwoOfOnePair(ids: set<Id>, m: Id, m': Id)
    requires m in ids && m' in ids && m != m'
    ensures |ids| > 1
  {
    assert ids == {m} + (ids - {m});
    assert m' in ids - {m};
  }

  lemma SamePairSameMatch(t: Tables, t': Tables, i: Id, m: Id, m': Id)
    requires ToppedUp(t, t', i) && m in t'.matches && m !in t.matches && m' in t'.matches && m' !in t.matches
    requires t'.matches[m].input1 == t'.matches[m'].input1 && t'.matches[m].input2 == t'.matches[m'].input2
    requires t'.matches[m].input1.Some? && t'.matches[m].input2.Some?
    ensures m == m'
  {
    var pair := {t'.matches[m].input1.value, t'.matches[m].input2.value};
    assert m in MatchesOfPair(t', i, pair) && m' in MatchesOfPair(t', i, pair);
    assert pair in PairsOf(t', i);
    hide MatchesOfPair, PairsOf, MatchesOfItem;
    if pair in PairsOf(t, i) { OldPairOldMatch(t, t', i, pair, m); }
    if m != m' { TwoOfOnePair(MatchesOfPair(t', i, pair), m, m'); }
  }

  lemma OldPairOldMatch(t: Tables, t': Tables, i: Id, pair: set<Id>, m: Id)
    requires MatchesOfPair(t', i, pair) == MatchesOfPair(t, i, pair) && m in MatchesOfPair(t', i, pair)
    ensures m in t.matches
  {
    assert m in MatchesOfPair(t, i, pair);
  }

  /** The top-up schedules what it adds. */
  lemma AddMissingSchedules(t: Tables, i: Id, n: int)
    requires n <= |InputsOfItem(t, i)| && (forall r | r in t.rounds :: r < t.nextId)
    requires forall m | m in t.matches :: m < t.nextId
    ensures Scheduled(t, AddMissing(t, i, n), i, n)
  {
    hide EnoughRounds, BySlot, PairsOf, TopUp, InputsOfItem, RoundsOfItem, ToppedUp, Combinations, PlaysTable,
      SharesInput, Slots;
    var t1, t' := EnoughRounds(t, i, RoundsNeeded(n)), AddMissing(t, i, n);
    SlotsListed(t, i);
    EnoughRoundsForm(t, i, n);
    AddMissingTopsUp(t, i, n);
    TopUpFrame(t1, t', i);
    TableFromCells(t1, i, Ids(RoundsOfItem(t1, i)), BySlot(t1, i), n, Combinations(n));
    BySlotFacts(t, i);
    OrderIsDistinct(BySlot(t, i), Slots(t));
    EnoughAreActive(t, i, n);
    forall m, m' | m in t'.matches && m !in t.matches && m' in t'.matches && m' !in t.matches && m != m'
                   && t'.matches[m].round == t'.matches[m'].round
      ensures !SharesInput(t'.matches[m], t'.matches[m'])
    {
      if SharesInput(t'.matches[m], t'.matches[m']) {
        SharedIsSame(t'.matches[m], t'.matches[m'], Ids(RoundsOfItem(t', i)), BySlot(t', i), n);
        SamePairSameMatch(t1, t', i, m, m');
      }
    }
  }

  lemma EnoughAreActive(t: Tables, i: Id, n: int)
    requires forall r | r in t.rounds :: r < t.nextId
    ensures var t1 := EnoughRounds(t, i, RoundsNeeded(n));
            && (forall r | r in t1.rounds && r !in t.rounds :: t1.rounds[r] == Round(i, Lifecycle.Active))
            && |RoundsOfItem(t1, i)| == Max(|RoundsOfItem(t, i)|, RoundsNeeded(n)) && t1.matches == t.matches
  {
    WithRoundsForm(t, i, Max(RoundsNeeded(n) - |RoundsOfItem(t, i)|, 0));
    NewRoundsActive(t, i, Max(RoundsNeeded(n) - |RoundsOfItem(t, i)|, 0));
  }

  /** Of the database before, only ids of matches and rounds matter. */
  lemma SameScheduled(t: Tables, s: Tables, t': Tables, i: Id, n: int)
    requires Scheduled(s, t', i, n) && s.rounds == t.rounds
    requires forall m | m in t'.matches && m !in t.matches :: m !in s.matches
    ensures Scheduled(t, t', i, n)
  {
    hide PlaysTable, SharesInput, Combinations;
    assert RoundsOfItem(s, i) == RoundsOfItem(t, i);
  }
}
