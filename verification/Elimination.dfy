/** Building a single-elimination bracket: the first round pairs the inputs in slot order, and each later
    match waits for the winners of two matches of the round before. */
module Elimination {
  import opened Schema
  import opened Progress
  import opened MatchSets
  import opened SetResize
  import opened Deletion
  import opened ItemMatches
  import opened StageItemResize
  import opened RoundRobin
  import opened Layout

  // ---------------------------------------------------------------- sizes

  /** How many rounds a bracket of `count` teams has; None is refused with 400. */
  function BracketRounds(count: int): Option<nat> {
    if count < 1 then Some(0)
    else if count == 2 then Some(1)
    else if count == 4 then Some(2)
    else if count == 8 then Some(3)
    else if count == 16 then Some(4)
    else if count == 32 then Some(5)
    else None
  }

  function Pow2(r: nat): (p: nat)
    ensures p >= 1 && (r > 0 ==> p % 2 == 0)
  {
    if r == 0 then 1 else 2 * Pow2(r - 1)
  }

  lemma SizesArePowers(count: int)
    ensures count >= 1 && BracketRounds(count).Some? ==>
              BracketRounds(count).value > 0 && count == Pow2(BracketRounds(count).value)
  {
    assert Pow2(1) == 2 && Pow2(2) == 4 && Pow2(3) == 8 && Pow2(4) == 16 && Pow2(5) == 32 by {
      assert Pow2(1) == 2 * Pow2(0);
      assert Pow2(3) == 2 * Pow2(2);
      assert Pow2(5) == 2 * Pow2(4);
    }
  }

  // ---------------------------------------------------------------- the matches

  function FirstMatches(inputs: seq<Id>, round: Id): (rows: seq<Match>)
    ensures |rows| == |inputs| / 2
    ensures forall k | 0 <= k < |rows| :: rows[k] == NewMatch(round, inputs[2 * k], inputs[2 * k + 1])
  {
    seq(|inputs| / 2, k requires 0 <= k < |inputs| / 2 => NewMatch(round, inputs[2 * k], inputs[2 * k + 1]))
  }

  /** A match between the winners of matches `a` and `b`. */
  function NextMatch(round: Id, a: Id, b: Id): Match {
    Match(round, None, None, Some(a), Some(b), None, None, None, None, None, None, None, RESET)
  }

  function NextMatches(prev: seq<Id>, round: Id): (rows: seq<Match>)
    ensures |rows| == |prev| / 2
    ensures forall k | 0 <= k < |rows| :: rows[k] == NextMatch(round, prev[2 * k], prev[2 * k + 1])
  {
    seq(|prev| / 2, k requires 0 <= k < |prev| / 2 => NextMatch(round, prev[2 * k], prev[2 * k + 1]))
  }

  function AllCreated(t: Tables, rows: seq<Match>): Tables {
    if rows == [] then t else WithMatch(AllCreated(t, rows[..|rows| - 1]), rows[|rows| - 1])
  }

  /** The ids of `k` rows inserted one after the other. */
  function NewIds(first: Id, k: nat): (ids: seq<Id>)
    ensures |ids| == k && forall j | 0 <= j < k :: ids[j] == first + j
  {
    seq(k, j => first + j)
  }

  /** An odd number of matches to pair is an IndexError. */
  function BuiltRounds(t: Tables, prev: seq<Id>, rounds: seq<Id>): Result<Tables>
    decreases |rounds|
  {
    if rounds == [] then Ok(t)
    else if |prev| % 2 == 1 then Err(Http(500))
    else BuiltRounds(AllCreated(t, NextMatches(prev, rounds[0])), NewIds(t.nextId, |prev| / 2), rounds[1..])
  }

  /** No round is an AssertionError, an odd number of inputs an IndexError. */
  function Bracket(t: Tables, i: Id): Result<Tables> {
    var rounds, inputs := Ids(RoundsOfItem(t, i)), BySlot(t, i);
    if rounds == [] || |inputs| % 2 == 1 then Err(Http(500))
    else BuiltRounds(AllCreated(t, FirstMatches(inputs, rounds[0])), NewIds(t.nextId, |inputs| / 2), rounds[1..])
  }

  /** The rounds of the size, then the bracket. */
  function BuildBracket(t: Tables, i: Id, count: int): Result<Tables> {
    match BracketRounds(count)
    case None => Err(Http(400))
    case Some(k) => Bracket(WithRounds(t, i, k), i)
  }

  // ---------------------------------------------------------------- what is created

  /** `t'` is `t` with the matches `rows`, numbered from `t`'s sequence on. */
  ghost predicate Created(t: Tables, t': Tables, rows: seq<Match>) {
    && t' == t.(matches := t'.matches, matchSets := t'.matchSets, nextId := t.nextId + |rows|)
    && (forall m | m in t.matches :: m in t'.matches && t'.matches[m] == t.matches[m])
    && (forall m | m in t'.matches :: m in t.matches || t.nextId <= m < t.nextId + |rows|)
    && forall m | t.nextId <= m < t.nextId + |rows| ::
         m in t'.matches && t'.matches[m] == Inserted(rows[m - t.nextId])
  }

  lemma {:induction false} AllCreatedForm(t: Tables, rows: seq<Match>)
    requires forall m | m in t.matches :: m < t.nextId
    ensures Created(t, AllCreated(t, rows), rows)
  {
    hide Created, WithMatch;
    if rows == [] {
      CreatedNone(t);
    } else {
      var n := |rows| - 1;
      AllCreatedForm(t, rows[..n]);
      CreatedOneMore(t, AllCreated(t, rows[..n]), rows);
    }
  }

  lemma CreatedNone(t: Tables)
    ensures Created(t, t, [])
  {
  }

  lemma CreatedOneMore(t: Tables, s: Tables, rows: seq<Match>)
    requires rows != [] && Created(t, s, rows[..|rows| - 1]) && forall m | m in t.matches :: m < t.nextId
    ensures Created(t, WithMatch(s, rows[|rows| - 1]), rows)
  {
    hide Inserted, NewSets, NumSetsForRound, Max;
    assert s.nextId !in s.matches;
  }

  ghost predicate RowsOfItem(t: Tables, i: Id, rows: seq<Match>) {
    forall row | row in rows :: row.round in t.rounds && t.rounds[row.round].stageItem == i
  }

  lemma {:induction false} AllCreatedExtends(t: Tables, i: Id, rows: seq<Match>)
    requires RowsOfItem(t, i, rows) && forall m | m in t.matches :: m < t.nextId
    ensures var t' := AllCreated(t, rows);
            Extended(t, t', i) && t'.rounds == t.rounds && forall m | m in t'.matches :: m < t'.nextId
  {
    hide Extended, WithMatch;
    if rows == [] {
      NothingExtends(t, i);
    } else {
      var n := |rows| - 1;
      assert rows == rows[..n] + [rows[n]] && rows[n] in rows;
      AllCreatedExtends(t, i, rows[..n]);
      var s := AllCreated(t, rows[..n]);
      MatchExtends(s, i, rows[n]);
      ExtendedTwice(t, s, AllCreated(t, rows), i);
      WithMatchForm(s, i, rows[n]);
    }
  }

  /** Rows that stay inside the item keep the shape. */
  lemma {:induction false} AllCreatedIntact(t: Tables, rows: seq<Match>)
    requires Intact(t) && forall row | row in rows :: MatchInside(t, row) && row.court.None?
    ensures Intact(AllCreated(t, rows))
    ensures forall row: Match :: MatchInside(t, row) ==> MatchInside(AllCreated(t, rows), row)
  {
    hide Intact, WithMatch, MatchInside;
    if rows != [] {
      var n := |rows| - 1;
      assert rows == rows[..n] + [rows[n]] && rows[n] in rows;
      AllCreatedIntact(t, rows[..n]);
      var s := AllCreated(t, rows[..n]);
      MatchIntact(s, rows[n]);
      forall row: Match | MatchInside(s, row) ensures MatchInside(AllCreated(t, rows), row) {
        MoreMatchesInside(s, rows[n], row);
      }
    }
  }

  lemma SequenceAheadOf(t: Tables)
    requires Intact(t)
    ensures (forall m | m in t.matches :: m < t.nextId) && forall r | r in t.rounds :: r < t.nextId
  {
    IntactRefers(t);
  }

  lemma {:induction false} AllCreatedFrame(t: Tables, rows: seq<Match>)
    ensures var t' := AllCreated(t, rows);
            t' == t.(matches := t'.matches, matchSets := t'.matchSets, nextId := t'.nextId)
  {
    if rows != [] { AllCreatedFrame(t, rows[..|rows| - 1]); }
  }

  lemma {:induction false} BuiltRoundsFrame(t: Tables, prev: seq<Id>, rounds: seq<Id>)
    requires BuiltRounds(t, prev, rounds).Ok?
    ensures var t' := BuiltRounds(t, prev, rounds).value;
            t' == t.(matches := t'.matches, matchSets := t'.matchSets, nextId := t'.nextId)
    decreases |rounds|
  {
    hide AllCreated;
    if rounds != [] {
      AllCreatedFrame(t, NextMatches(prev, rounds[0]));
      BuiltRoundsFrame(AllCreated(t, NextMatches(prev, rounds[0])), NewIds(t.nextId, |prev| / 2), rounds[1..]);
    }
  }

  lemma BuildBracketFrame(t: Tables, i: Id, count: int)
    requires BuildBracket(t, i, count).Ok?
    ensures var t' := BuildBracket(t, i, count).value;
            t' == t.(rounds := t'.rounds, matches := t'.matches, matchSets := t'.matchSets, nextId := t'.nextId)
  {
    hide AllCreated, BuiltRounds, WithRounds, BracketRounds, RoundsOfItem, BySlot;
    var t1 := WithRounds(t, i, BracketRounds(count).value);
    var rounds, inputs := Ids(RoundsOfItem(t1, i)), BySlot(t1, i);
    AllCreatedFrame(t1, FirstMatches(inputs, rounds[0]));
    BuiltRoundsFrame(AllCreated(t1, FirstMatches(inputs, rounds[0])), NewIds(t1.nextId, |inputs| / 2), rounds[1..]);
  }

  // ---------------------------------------------------------------- the shape of the bracket

  /** With w matches numbered from `first` on, match number w + e after them waits for the winners of the
      numbers 2e and 2e + 1. */
  function TreeRow(first: Id, w: nat, round: Id, m: Id): Match {
    var e := m - first - w;
    NextMatch(round, first + 2 * e, first + 2 * e + 1)
  }

  /** Which round match c belongs to when the first round has w matches and each later one half as many. */
  function Depth(w: nat, c: nat): nat {
    if c < w || w == 0 then 0 else 1 + Depth(w / 2, c - w)
  }

  predicate InRound(rounds: seq<Id>, k: nat, r: Id) {
    k < |rounds| && r == rounds[k]
  }

  lemma InSomeRound(rounds: seq<Id>, k: nat, r: Id)
    requires InRound(rounds, k, r)
    ensures r in rounds
  {
  }

  /** The next w - 1 matches of a bracket whose last w matches are numbered from `first` on. */
  ghost predicate TreeAbove(t: Tables, t': Tables, first: Id, w: nat, rounds: seq<Id>) {
    && t' == t.(matches := t'.matches, matchSets := t'.matchSets, nextId := first + 2 * w - 1)
    && (forall m | m in t.matches :: m in t'.matches && t'.matches[m] == t.matches[m])
    && (forall m | m in t'.matches :: m in t.matches || first + w <= m < first + 2 * w - 1)
    && forall m | first + w <= m < first + 2 * w - 1 ::
         && m in t'.matches && InRound(rounds, Depth(w / 2, m - first - w), t'.matches[m].round)
         && t'.matches[m] == TreeRow(first, w, t'.matches[m].round, m)
  }

  lemma {:induction false} BuiltRoundsForm(t: Tables, first: Id, w: nat, rounds: seq<Id>)
    requires w == Pow2(|rounds|) && t.nextId == first + w && forall m | m in t.matches :: m < t.nextId
    ensures var r := BuiltRounds(t, NewIds(first, w), rounds);
            r.Ok? && TreeAbove(t, r.value, first, w, rounds)
    decreases |rounds|
  {
    hide Pow2, AllCreated, BuiltRounds, Created, TreeAbove;
    if rounds == [] {
      NoTreeYet(t, first, w);
    } else {
      PowHalves(|rounds|);
      var h, rows := w / 2, NextMatches(NewIds(first, w), rounds[0]);
      var s := AllCreated(t, rows);
      AllCreatedForm(t, rows);
      CreatedBelow(t, s, rows);
      BuiltRoundsForm(s, first + w, h, rounds[1..]);
      UnfoldRounds(t, NewIds(first, w), rounds);
      TreeGrows(t, s, BuiltRounds(s, NewIds(first + w, h), rounds[1..]).value, first, w, rounds, rows);
    }
  }

  lemma CreatedBelow(t: Tables, t': Tables, rows: seq<Match>)
    requires Created(t, t', rows) && forall m | m in t.matches :: m < t.nextId
    ensures t'.nextId == t.nextId + |rows| && forall m | m in t'.matches :: m < t'.nextId
  {
  }

  lemma NoTreeYet(t: Tables, first: Id, w: nat)
    requires w == Pow2(0) && t.nextId == first + w
    ensures BuiltRounds(t, NewIds(first, w), []) == Ok(t) && TreeAbove(t, t, first, w, [])
  {
  }

  lemma PowHalves(r: nat)
    requires r > 0
    ensures Pow2(r) % 2 == 0 && Pow2(r) / 2 == Pow2(r - 1)
  {
  }

  lemma UnfoldRounds(t: Tables, prev: seq<Id>, rounds: seq<Id>)
    requires rounds != [] && |prev| % 2 == 0
    ensures BuiltRounds(t, prev, rounds)
         == BuiltRounds(AllCreated(t, NextMatches(prev, rounds[0])), NewIds(t.nextId, |prev| / 2), rounds[1..])
  {
    hide AllCreated;
  }

  lemma FirstOfTree(first: Id, w: nat, round: Id, m: Id)
    requires w % 2 == 0 && first + w <= m < first + w + w / 2
    ensures var rows := NextMatches(NewIds(first, w), round);
            m - first - w < |rows| && Inserted(rows[m - first - w]) == TreeRow(first, w, round, m)
  {
  }

  lemma SameTreeRow(first: Id, w: nat, round: Id, m: Id)
    requires w % 2 == 0
    ensures TreeRow(first + w, w / 2, round, m) == TreeRow(first, w, round, m)
  {
  }

  lemma TreeGrows(t: Tables, s: Tables, t': Tables, first: Id, w: nat, rounds: seq<Id>, rows: seq<Match>)
    requires rounds != [] && w % 2 == 0 && t.nextId == first + w && forall m | m in t.matches :: m < t.nextId
    requires rows == NextMatches(NewIds(first, w), rounds[0]) && Created(t, s, rows)
    requires TreeAbove(s, t', first + w, w / 2, rounds[1..])
    ensures TreeAbove(t, t', first, w, rounds)
  {
    hide TreeRow, NextMatches, NewIds, Inserted, Created, TreeAbove, Depth, InRound;
    CreatedThenTree(t, s, t', rows, first + w, w / 2, rounds[1..]);
    forall m | first + w <= m < first + 2 * w - 1
      ensures m in t'.matches && InRound(rounds, Depth(w / 2, m - first - w), t'.matches[m].round)
      ensures t'.matches[m] == TreeRow(first, w, t'.matches[m].round, m)
    {
      if m < first + w + w / 2 {
        FirstOfTree(first, w, rounds[0], m);
        TreeRound(first, w, rounds[0], m);
        CreatedAt(t, s, rows, m);
        FirstDepth(w / 2, m - first - w, rounds);
      } else {
        TreeLater(s, t', first + w, w / 2, rounds, m);
        NextDepth(w / 2, m - first - w);
        SameTreeRow(first, w, t'.matches[m].round, m);
      }
    }
    IsTree(t, t', first, w, rounds);
  }

  lemma FirstDepth(w: nat, c: nat, rounds: seq<Id>)
    requires c < w && rounds != []
    ensures Depth(w, c) == 0 && InRound(rounds, Depth(w, c), rounds[0])
  {
  }

  lemma NextDepth(w: nat, c: nat)
    requires 0 < w <= c
    ensures Depth(w, c) == 1 + Depth(w / 2, c - w)
  {
  }

  lemma IsTree(t: Tables, t': Tables, first: Id, w: nat, rounds: seq<Id>)
    requires t' == t.(matches := t'.matches, matchSets := t'.matchSets, nextId := first + 2 * w - 1)
    requires forall m | m in t.matches :: m in t'.matches && t'.matches[m] == t.matches[m]
    requires forall m | m in t'.matches :: m in t.matches || first + w <= m < first + 2 * w - 1
    requires forall m | first + w <= m < first + 2 * w - 1 ::
               && m in t'.matches && InRound(rounds, Depth(w / 2, m - first - w), t'.matches[m].round)
               && t'.matches[m] == TreeRow(first, w, t'.matches[m].round, m)
    ensures TreeAbove(t, t', first, w, rounds)
  {
  }

  lemma CreatedAt(t: Tables, s: Tables, rows: seq<Match>, m: Id)
    requires Created(t, s, rows) && t.nextId <= m < t.nextId + |rows|
    ensures m in s.matches && s.matches[m] == Inserted(rows[m - t.nextId])
  {
  }

  /** First the rows, then a tree above them. */
  lemma CreatedThenTree(t: Tables, s: Tables, t': Tables, rows: seq<Match>, first: Id, w: nat, rest: seq<Id>)
    requires Created(t, s, rows) && TreeAbove(s, t', first, w, rest) && first + w == t.nextId + |rows|
    ensures t' == t.(matches := t'.matches, matchSets := t'.matchSets, nextId := first + 2 * w - 1)
    ensures forall m | m in t.matches :: m in t'.matches && t'.matches[m] == t.matches[m]
    ensures forall m | m in s.matches :: m in t'.matches && t'.matches[m] == s.matches[m]
    ensures forall m | m in t'.matches ::
              m in t.matches || t.nextId <= m < t.nextId + |rows| || first + w <= m < first + 2 * w - 1
  {
    hide TreeRow, Inserted;
  }

  lemma TreeRound(first: Id, w: nat, round: Id, m: Id)
    ensures TreeRow(first, w, round, m).round == round
  {
  }

  lemma TreeLater(s: Tables, t': Tables, first: Id, w: nat, rounds: seq<Id>, m: Id)
    requires rounds != [] && TreeAbove(s, t', first, w, rounds[1..]) && first + w <= m < first + 2 * w - 1
    ensures m in t'.matches && InRound(rounds, 1 + Depth(w / 2, m - first - w), t'.matches[m].round)
    ensures t'.matches[m] == TreeRow(first, w, t'.matches[m].round, m)
  {
    hide TreeRow, Depth;
  }

  /** The whole bracket over `inputs`, numbered from the sequence on: with w = half the inputs, match c < w pairs
      inputs 2c and 2c + 1 in the first round, and the w - 1 matches after them form the tree above, level by level in
      the rounds after it. */
  ghost predicate BracketOver(t: Tables, t': Tables, inputs: seq<Id>, rounds: seq<Id>) {
    var first, w := t.nextId, |inputs| / 2;
    && t' == t.(matches := t'.matches, matchSets := t'.matchSets, nextId := first + 2 * w - 1)
    && (forall m | m in t.matches :: m in t'.matches && t'.matches[m] == t.matches[m])
    && (forall m | m in t'.matches :: m in t.matches || first <= m < first + 2 * w - 1)
    && (forall m | first <= m < first + w ::
          && m in t'.matches && InRound(rounds, Depth(w, m - first), t'.matches[m].round)
          && t'.matches[m] == NewMatch(t'.matches[m].round, inputs[2 * (m - first)], inputs[2 * (m - first) + 1]))
    && forall m | first + w <= m < first + 2 * w - 1 ::
         && m in t'.matches && InRound(rounds, Depth(w, m - first), t'.matches[m].round)
         && t'.matches[m] == TreeRow(first, w, t'.matches[m].round, m)
  }

  /** With 2^r inputs and r rounds the builder succeeds, and this is what it builds. */
  lemma BracketForm(t: Tables, i: Id)
    requires RoundsOfItem(t, i) != {} && |InputsOfItem(t, i)| == Pow2(|RoundsOfItem(t, i)|)
    requires forall m | m in t.matches :: m < t.nextId
    ensures Bracket(t, i).Ok? && BracketOver(t, Bracket(t, i).value, BySlot(t, i), Ids(RoundsOfItem(t, i)))
  {
    hide RoundsOfItem, InputsOfItem, Pow2, BuiltRounds, AllCreated, BySlot;
    BySlotCounts(t, i);
    var rounds, inputs := Ids(RoundsOfItem(t, i)), BySlot(t, i);
    PowHalves(|rounds|);
    var rows := FirstMatches(inputs, rounds[0]);
    var s := AllCreated(t, rows);
    AllCreatedForm(t, rows);
    BuiltRoundsForm(s, t.nextId, |inputs| / 2, rounds[1..]);
    FirstAndTree(t, s, BuiltRounds(s, NewIds(t.nextId, |inputs| / 2), rounds[1..]).value, inputs, rounds, rows);
  }

  lemma FirstAndTree(t: Tables, s: Tables, t': Tables, inputs: seq<Id>, rounds: seq<Id>, rows: seq<Match>)
    requires rounds != [] && |inputs| % 2 == 0 && forall m | m in t.matches :: m < t.nextId
    requires rows == FirstMatches(inputs, rounds[0]) && Created(t, s, rows)
    requires TreeAbove(s, t', t.nextId, |inputs| / 2, rounds[1..])
    ensures BracketOver(t, t', inputs, rounds)
  {
    hide NewMatch, FirstMatches, TreeRow, Created, TreeAbove, Depth, InRound;
    var first, w := t.nextId, |inputs| / 2;
    CreatedThenTree(t, s, t', rows, first, w, rounds[1..]);
    FirstKept(t, s, t', first, inputs, rounds, rows);
    forall m | first + w <= m < first + 2 * w - 1
      ensures m in t'.matches && InRound(rounds, Depth(w, m - first), t'.matches[m].round)
      ensures t'.matches[m] == TreeRow(first, w, t'.matches[m].round, m)
    {
      TreeLater(s, t', first, w, rounds, m);
      NextDepth(w, m - first);
    }
  }

  lemma FirstKept(t: Tables, s: Tables, t': Tables, first: Id, inputs: seq<Id>, rounds: seq<Id>, rows: seq<Match>)
    requires rounds != [] && |inputs| % 2 == 0 && first == t.nextId
    requires rows == FirstMatches(inputs, rounds[0]) && Created(t, s, rows)
    requires forall m | m in s.matches :: m in t'.matches && t'.matches[m] == s.matches[m]
    ensures forall m | first <= m < first + |inputs| / 2 ::
              && m in t'.matches && InRound(rounds, Depth(|inputs| / 2, m - first), t'.matches[m].round)
              && t'.matches[m] == NewMatch(t'.matches[m].round, inputs[2 * (m - first)], inputs[2 * (m - first) + 1])
  {
    hide NewMatch, FirstMatches, Inserted, Depth, InRound;
    forall m | first <= m < first + |inputs| / 2
      ensures m in t'.matches && InRound(rounds, Depth(|inputs| / 2, m - first), t'.matches[m].round)
      ensures t'.matches[m] == NewMatch(t'.matches[m].round, inputs[2 * (m - first)], inputs[2 * (m - first) + 1])
    {
      FirstRow(inputs, rounds[0], m - first);
      assert m in s.matches && s.matches[m] == Inserted(rows[m - first]);
      FirstDepth(|inputs| / 2, m - first, rounds);
    }
  }

  lemma FirstRow(inputs: seq<Id>, round: Id, c: nat)
    requires c < |inputs| / 2
    ensures |FirstMatches(inputs, round)| == |inputs| / 2
    ensures Inserted(FirstMatches(inputs, round)[c]) == NewMatch(round, inputs[2 * c], inputs[2 * c + 1])
    ensures NewMatch(round, inputs[2 * c], inputs[2 * c + 1]).round == round
  {
  }

  // ---------------------------------------------------------------- what the shape means

  /** Every input plays in exactly one match of the bracket. */
  lemma EveryInputPlaysOnce(t: Tables, t': Tables, inputs: seq<Id>, rounds: seq<Id>, k: nat)
    requires BracketOver(t, t', inputs, rounds) && |inputs| % 2 == 0 && k < |inputs|
    requires forall a, b | 0 <= a < b < |inputs| :: inputs[a] != inputs[b]
    requires forall m | m in t.matches :: m < t.nextId
    ensures t.nextId + k / 2 in t'.matches && PlaysIn(t'.matches[t.nextId + k / 2], inputs[k])
    ensures forall m | m in t'.matches && m >= t.nextId && PlaysIn(t'.matches[m], inputs[k]) :: m == t.nextId + k / 2
  {
    hide Depth, InRound;
    var first, w := t.nextId, |inputs| / 2;
    assert first <= first + k / 2 < first + w;
    forall m | m in t'.matches && m >= first && PlaysIn(t'.matches[m], inputs[k]) ensures m == first + k / 2 {
      assert first <= m < first + 2 * w - 1;
      OnlyPairPlays(t, t', inputs, rounds, k, m);
    }
  }

  lemma OnlyPairPlays(t: Tables, t': Tables, inputs: seq<Id>, rounds: seq<Id>, k: nat, m: Id)
    requires BracketOver(t, t', inputs, rounds) && |inputs| % 2 == 0 && k < |inputs|
    requires forall a, b | 0 <= a < b < |inputs| :: inputs[a] != inputs[b]
    requires m in t'.matches && t.nextId <= m < t.nextId + |inputs| - 1 && PlaysIn(t'.matches[m], inputs[k])
    ensures m == t.nextId + k / 2
  {
    hide Depth, InRound;
    var c := m - t.nextId;
    assert c < |inputs| / 2;
    assert inputs[k] == inputs[2 * c] || inputs[k] == inputs[2 * c + 1];
    assert k == 2 * c || k == 2 * c + 1;
  }

  /** Every match of the bracket but the final feeds exactly one later match, and the final feeds none. */
  lemma EveryMatchFeedsOnce(t: Tables, t': Tables, inputs: seq<Id>, rounds: seq<Id>, c: nat)
    requires BracketOver(t, t', inputs, rounds) && |inputs| % 2 == 0 && c < |inputs| - 1
    requires forall m | m in t.matches :: m < t.nextId
    ensures var w := |inputs| / 2;
            && (c < |inputs| - 2 ==> t.nextId + w + c / 2 in t'.matches
                                     && WaitsFor(t'.matches[t.nextId + w + c / 2], t.nextId + c))
            && (forall m | m in t'.matches && m >= t.nextId && WaitsFor(t'.matches[m], t.nextId + c) ::
                  c < |inputs| - 2 && m == t.nextId + w + c / 2)
  {
    hide Depth, InRound;
    var first, w := t.nextId, |inputs| / 2;
    forall m | m in t'.matches && m >= first && WaitsFor(t'.matches[m], first + c)
      ensures c < |inputs| - 2 && m == first + w + c / 2
    {
      assert first <= m < first + 2 * w - 1;
      assert m >= first + w;
    }
    assert c < |inputs| - 2 ==> first + w <= first + w + c / 2 < first + 2 * w - 1;
  }

  /** A match comes one level after the two it waits for. */
  lemma {:induction false} DepthFollows(w: nat, c: nat)
    requires w <= c < 2 * w - 1 && Halves(w)
    ensures Depth(w, c) == Depth(w, 2 * (c - w)) + 1 && Depth(w, 2 * (c - w) + 1) == Depth(w, 2 * (c - w))
    decreases w
  {
    if 2 * (c - w) >= w {
      DepthFollows(w / 2, c - w);
    }
  }

  /** A power of two. */
  predicate Halves(w: nat) {
    w == 1 || (w > 1 && w % 2 == 0 && Halves(w / 2))
  }

  // ---------------------------------------------------------------- what it keeps

  lemma FirstInside(t: Tables, i: Id, inputs: seq<Id>, round: Id)
    requires round in t.rounds && t.rounds[round].stageItem == i
    requires forall x | x in inputs :: x in t.inputs && t.inputs[x].stageItem == i
    ensures RowsOfItem(t, i, FirstMatches(inputs, round))
    ensures forall row | row in FirstMatches(inputs, round) :: MatchInside(t, row) && row.court.None?
  {
    var rows := FirstMatches(inputs, round);
    forall row | row in rows
      ensures row.round == round && MatchInside(t, row) && row.court.None?
    {
      var k :| 0 <= k < |rows| && rows[k] == row;
      assert inputs[2 * k] in inputs && inputs[2 * k + 1] in inputs;
    }
  }

  lemma NextInside(t: Tables, i: Id, prev: seq<Id>, round: Id)
    requires round in t.rounds && t.rounds[round].stageItem == i
    requires i in t.stageItems && t.stageItems[i].kind == SingleElimination
    requires forall m | m in prev :: m in MatchesOfItem(t, i)
    ensures forall row | row in NextMatches(prev, round) :: MatchInside(t, row) && row.court.None?
  {
    var rows := NextMatches(prev, round);
    forall row | row in rows ensures MatchInside(t, row) && row.court.None? {
      var k :| 0 <= k < |rows| && rows[k] == row;
      assert prev[2 * k] in prev && prev[2 * k + 1] in prev;
    }
  }

  lemma NextRowsOfItem(t: Tables, i: Id, prev: seq<Id>, round: Id)
    requires round in t.rounds && t.rounds[round].stageItem == i
    ensures RowsOfItem(t, i, NextMatches(prev, round))
  {
    var rows := NextMatches(prev, round);
    forall row | row in rows ensures row.round == round { var k :| 0 <= k < |rows| && rows[k] == row; }
  }

  lemma CreatedBelong(t: Tables, i: Id, rows: seq<Match>)
    requires RowsOfItem(t, i, rows) && forall m | m in t.matches :: m < t.nextId
    ensures forall m | m in NewIds(t.nextId, |rows|) :: m in MatchesOfItem(AllCreated(t, rows), i)
    ensures AllCreated(t, rows).stageItems == t.stageItems && AllCreated(t, rows).nextId == t.nextId + |rows|
    ensures AllCreated(t, rows).rounds == t.rounds
  {
    AllCreatedForm(t, rows);
    hide AllCreated;
    forall m | m in NewIds(t.nextId, |rows|) ensures m in MatchesOfItem(AllCreated(t, rows), i) {
      var k :| 0 <= k < |rows| && NewIds(t.nextId, |rows|)[k] == m;
      assert rows[k] in rows;
    }
  }

  lemma {:induction false} BuiltRoundsExtend(t: Tables, i: Id, prev: seq<Id>, rounds: seq<Id>)
    requires (forall r | r in rounds :: r in t.rounds && t.rounds[r].stageItem == i)
    requires (forall m | m in t.matches :: m < t.nextId) && BuiltRounds(t, prev, rounds).Ok?
    ensures Extended(t, BuiltRounds(t, prev, rounds).value, i)
    decreases |rounds|
  {
    hide Extended, AllCreated;
    if rounds == [] {
      NothingExtends(t, i);
    } else {
      var s := AllCreated(t, NextMatches(prev, rounds[0]));
      assert rounds[0] in rounds && forall r | r in rounds[1..] :: r in rounds;
      NextRowsOfItem(t, i, prev, rounds[0]);
      AllCreatedExtends(t, i, NextMatches(prev, rounds[0]));
      BuiltRoundsExtend(s, i, NewIds(t.nextId, |prev| / 2), rounds[1..]);
      ExtendedTwice(t, s, BuiltRounds(t, prev, rounds).value, i);
    }
  }

  lemma {:induction false} BuiltRoundsIntact(t: Tables, i: Id, prev: seq<Id>, rounds: seq<Id>)
    requires Intact(t) && i in t.stageItems && t.stageItems[i].kind == SingleElimination
    requires forall r | r in rounds :: r in t.rounds && t.rounds[r].stageItem == i
    requires (forall m | m in prev :: m in MatchesOfItem(t, i)) && BuiltRounds(t, prev, rounds).Ok?
    ensures Intact(BuiltRounds(t, prev, rounds).value)
    decreases |rounds|
  {
    hide Intact, AllCreated, MatchInside, MatchesOfItem;
    if rounds != [] {
      var rows := NextMatches(prev, rounds[0]);
      assert rounds[0] in rounds && forall r | r in rounds[1..] :: r in rounds;
      NextInside(t, i, prev, rounds[0]);
      NextRowsOfItem(t, i, prev, rounds[0]);
      SequenceAheadOf(t);
      AllCreatedIntact(t, rows);
      CreatedBelong(t, i, rows);
      BuiltRoundsIntact(AllCreated(t, rows), i, NewIds(t.nextId, |prev| / 2), rounds[1..]);
    }
  }

  /** The builder adds only matches of its own item, with the set rows it asks for. */
  lemma BuildBracketExtends(t: Tables, i: Id, count: int)
    requires (forall m | m in t.matches :: m < t.nextId) && (forall r | r in t.rounds :: r < t.nextId)
    requires BuildBracket(t, i, count).Ok?
    ensures Extended(t, BuildBracket(t, i, count).value, i)
  {
    hide Extended, AllCreated, MatchInside, MatchesOfItem, WithRounds, BuiltRounds, RoundsOfItem, BySlot;
    var t1 := WithRounds(t, i, BracketRounds(count).value);
    RoundsExtend(t, i, BracketRounds(count).value);
    var rounds, inputs := Ids(RoundsOfItem(t1, i)), BySlot(t1, i);
    ItemListed(t1, i);
    var rows := FirstMatches(inputs, rounds[0]);
    assert rounds[0] in rounds && forall r | r in rounds[1..] :: r in rounds;
    FirstInside(t1, i, inputs, rounds[0]);
    AllCreatedExtends(t1, i, rows);
    BuiltRoundsExtend(AllCreated(t1, rows), i, NewIds(t1.nextId, |inputs| / 2), rounds[1..]);
    ExtendedTwice(t1, AllCreated(t1, rows), BuildBracket(t, i, count).value, i);
    ExtendedTwice(t, t1, BuildBracket(t, i, count).value, i);
  }

  /** And it keeps the shape: first-round matches play with the item's inputs, later ones wait for its matches. */
  lemma BuildBracketIntact(t: Tables, i: Id, count: int)
    requires Intact(t) && i in t.stageItems && t.stageItems[i].kind == SingleElimination
    requires BuildBracket(t, i, count).Ok?
    ensures Intact(BuildBracket(t, i, count).value)
  {
    hide Intact, AllCreated, MatchInside, MatchesOfItem, WithRounds, BuiltRounds, RoundsOfItem, BySlot;
    var t1 := WithRounds(t, i, BracketRounds(count).value);
    RoundsIntact(t, i, BracketRounds(count).value);
    var rounds, inputs := Ids(RoundsOfItem(t1, i)), BySlot(t1, i);
    ItemListed(t1, i);
    var rows := FirstMatches(inputs, rounds[0]);
    assert rounds[0] in rounds && forall r | r in rounds[1..] :: r in rounds;
    FirstInside(t1, i, inputs, rounds[0]);
    AllCreatedIntact(t1, rows);
    SequenceAheadOf(t1);
    CreatedBelong(t1, i, rows);
    BuiltRoundsIntact(AllCreated(t1, rows), i, NewIds(t1.nextId, |inputs| / 2), rounds[1..]);
  }

  lemma ItemListed(t: Tables, i: Id)
    ensures forall r | r in Ids(RoundsOfItem(t, i)) :: r in t.rounds && t.rounds[r].stageItem == i
    ensures forall x | x in BySlot(t, i) :: x in t.inputs && t.inputs[x].stageItem == i
  {
    BySlotFacts(t, i);
  }

  /** On an item without rounds, with as many inputs as its size says, the builder fails for no legal size and
      builds the bracket of that size: one match fewer than teams. */
  lemma BuildBracketForm(t: Tables, i: Id, count: int)
    requires RoundsOfItem(t, i) == {} && count >= 1 && |InputsOfItem(t, i)| == count
    requires (forall m | m in t.matches :: m < t.nextId) && forall r | r in t.rounds :: r < t.nextId
    ensures BuildBracket(t, i, count) == Err(Http(400)) || BuildBracket(t, i, count).Ok?
    ensures BuildBracket(t, i, count).Ok? <==> BracketRounds(count).Some?
    ensures BracketRounds(count).Some? ==>
              var t1 := WithRounds(t, i, BracketRounds(count).value);
              && t1.nextId == t.nextId + BracketRounds(count).value && BySlot(t1, i) == BySlot(t, i)
              && BracketOver(t1, BuildBracket(t, i, count).value, BySlot(t, i), Ids(RoundsOfItem(t1, i)))
              && |BySlot(t, i)| == count && count % 2 == 0
  {
    hide RoundsOfItem, InputsOfItem, Bracket, BracketOver, WithRounds, BySlot, Pow2;
    SizesArePowers(count);
    if BracketRounds(count).Some? {
      var k := BracketRounds(count).value;
      var t1 := WithRounds(t, i, k);
      WithRoundsForm(t, i, k);
      SameInputsSameSlots(t, t1, i);
      BySlotCounts(t, i);
      PowHalves(k);
      BracketForm(t1, i);
    }
  }

  // ---------------------------------------------------------------- the program

  method CreateMatches(db: Database, rows: seq<Match>) returns (ids: seq<Id>)
    requires forall row | row in rows ::
               MatchRefers(Inserted(row), db.rounds.Keys, db.inputs.Keys, db.matches.Keys, db.courts.Keys)
    requires forall m | m in db.matches :: m < db.nextId
    modifies db`matches, db`matchSets, db`nextId
    ensures db.Snapshot() == AllCreated(old(db.Snapshot()), rows) && ids == NewIds(old(db.nextId), |rows|)
  {
    hide WithMatch, Inserted;
    ghost var before := db.Snapshot();
    ids := [];
    for k := 0 to |rows|
      invariant db.Snapshot() == AllCreated(before, rows[..k]) && ids == NewIds(before.nextId, k)
      invariant db.nextId == before.nextId + k
      invariant before.matches.Keys <= db.matches.Keys
    {
      assert rows[..k + 1][..k] == rows[..k] && rows[k] in rows;
      MoreKeysRefer(before, db.Snapshot(), rows[k]);
      CreatedFrame(db.Snapshot(), rows[k]);
      var id, error := SqlCreateMatch(db, rows[k]);
      ids := ids + [id];
    }
    assert rows[..|rows|] == rows;
  }

  lemma MoreKeysRefer(t: Tables, t': Tables, row: Match)
    requires t'.rounds == t.rounds && t'.inputs == t.inputs && t'.courts == t.courts
    requires t.matches.Keys <= t'.matches.Keys
    requires MatchRefers(Inserted(row), t.rounds.Keys, t.inputs.Keys, t.matches.Keys, t.courts.Keys)
    ensures MatchRefers(Inserted(row), t'.rounds.Keys, t'.inputs.Keys, t'.matches.Keys, t'.courts.Keys)
  {
  }

  lemma CreatedFrame(t: Tables, row: Match)
    ensures var t' := WithMatch(t, row);
            && t.matches.Keys <= t'.matches.Keys && t'.nextId == t.nextId + 1
            && t'.rounds == t.rounds && t'.inputs == t.inputs && t'.courts == t.courts
  {
  }

  method BuildSubsequentRounds(db: Database, first: seq<Id>, rounds: seq<Id>) returns (error: Option<Error>)
    requires forall m | m in first :: m in db.matches
    requires (forall r | r in rounds :: r in db.rounds) && forall m | m in db.matches :: m < db.nextId
    modifies db`matches, db`matchSets, db`nextId
    ensures Tried(BuiltRounds(old(db.Snapshot()), first, rounds), db.Snapshot(), error)
  {
    hide AllCreated;
    ghost var before := db.Snapshot();
    var prev := first;
    for k := 0 to |rounds|
      invariant forall m | m in prev :: m in db.matches
      invariant db.rounds == before.rounds && forall m | m in db.matches :: m < db.nextId
      invariant BuiltRounds(before, first, rounds) == BuiltRounds(db.Snapshot(), prev, rounds[k..])
    {
      if |prev| % 2 == 1 { return Some(Http(500)); }
      ghost var t := db.Snapshot();
      var rows := NextMatches(prev, rounds[k]);
      NextRefer(t, prev, rounds[k]);
      AllCreatedForm(t, rows);
      prev := CreateMatches(db, rows);
      assert rounds[k..][1..] == rounds[k + 1..] && rounds[k..][0] == rounds[k];
      CreatedIds(t, db.Snapshot(), rows, prev);
    }
    return None;
  }

  lemma CreatedIds(t: Tables, t': Tables, rows: seq<Match>, ids: seq<Id>)
    requires Created(t, t', rows) && ids == NewIds(t.nextId, |rows|) && forall m | m in t.matches :: m < t.nextId
    ensures (forall m | m in ids :: m in t'.matches) && forall m | m in t'.matches :: m < t'.nextId
  {
  }

  lemma NextRefer(t: Tables, prev: seq<Id>, round: Id)
    requires round in t.rounds && forall m | m in prev :: m in t.matches
    ensures forall row | row in NextMatches(prev, round) ::
              MatchRefers(Inserted(row), t.rounds.Keys, t.inputs.Keys, t.matches.Keys, t.courts.Keys)
  {
    forall row | row in NextMatches(prev, round)
      ensures MatchRefers(Inserted(row), t.rounds.Keys, t.inputs.Keys, t.matches.Keys, t.courts.Keys)
    {
      var k :| 0 <= k < |NextMatches(prev, round)| && NextMatches(prev, round)[k] == row;
      assert prev[2 * k] in prev && prev[2 * k + 1] in prev;
    }
  }

  lemma FirstRefer(t: Tables, inputs: seq<Id>, round: Id)
    requires round in t.rounds && forall x | x in inputs :: x in t.inputs
    ensures forall row | row in FirstMatches(inputs, round) ::
              MatchRefers(Inserted(row), t.rounds.Keys, t.inputs.Keys, t.matches.Keys, t.courts.Keys)
  {
    forall row | row in FirstMatches(inputs, round)
      ensures MatchRefers(Inserted(row), t.rounds.Keys, t.inputs.Keys, t.matches.Keys, t.courts.Keys)
    {
      var k :| 0 <= k < |FirstMatches(inputs, round)| && FirstMatches(inputs, round)[k] == row;
      assert inputs[2 * k] in inputs && inputs[2 * k + 1] in inputs;
    }
  }

  method BuildSingleEliminationStageItem(db: Database, i: Id) returns (error: Option<Error>)
    requires forall m | m in db.matches :: m < db.nextId
    modifies db`matches, db`matchSets, db`nextId
    ensures Tried(Bracket(old(db.Snapshot()), i), db.Snapshot(), error)
  {
    hide AllCreated, BuiltRounds, BySlot, RoundsOfItem;
    var rounds, inputs := Ids(RoundsOfItem(db.Snapshot(), i)), BySlot(db.Snapshot(), i);
    if rounds == [] { return Some(Http(500)); }
    if |inputs| % 2 == 1 { return Some(Http(500)); }
    ghost var t := db.Snapshot();
    ItemListed(t, i);
    assert rounds[0] in rounds;
    var rows := FirstMatches(inputs, rounds[0]);
    FirstRefer(t, inputs, rounds[0]);
    AllCreatedForm(t, rows);
    var prev := CreateMatches(db, rows);
    CreatedIds(t, db.Snapshot(), rows, prev);
    assert forall r | r in rounds[1..] :: r in rounds;
    error := BuildSubsequentRounds(db, prev, rounds[1..]);
  }

  /** Creating the rounds, then the matches. */
  method BuildEliminationMatches(db: Database, i: Id, count: int) returns (error: Option<Error>)
    requires i in db.stageItems && forall m | m in db.matches :: m < db.nextId
    modifies db`rounds, db`matches, db`matchSets, db`nextId
    ensures Tried(BuildBracket(old(db.Snapshot()), i, count), db.Snapshot(), error)
    ensures BracketRounds(count).None? ==> db.Snapshot() == old(db.Snapshot())
  {
    hide Bracket, WithRounds;
    var rounds := BracketRounds(count);
    if rounds.None? { return Some(Http(400)); }
    CreateRounds(db, i, rounds.value);
    error := BuildSingleEliminationStageItem(db, i);
  }
}
