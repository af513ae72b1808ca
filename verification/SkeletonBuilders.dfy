/** The two builders of round skeletons: Swiss rounds cycle through a circle schedule, Mexicano rounds all pair
    neighbouring positions. With an odd number of entrants one position sits out each round. */
module SkeletonBuilders {
  import opened Schema
  import opened MatchSets
  import opened RoundRobin
  import opened RoundRobinRounds
  import opened StageItems

  predicate Odd(count: int) {
    count % 2 == 1
  }

  /** As many rounds as games, or with an odd count games * count / (count - 1), rounded up. */
  function RoundsDue(count: int, games: int): int {
    if Odd(count) && count > 1 then -((-games * count) / (count - 1)) else games
  }

  // ---------------------------------------------------------------- Swiss

  /** `teams` after r rotations: the last goes behind the first. */
  method CircleMethod(n: int) returns (table: seq<seq<(nat, nat)>>)
    requires n >= 2 && n % 2 == 0
    ensures table == Combinations(n)
  {
    var teams: seq<nat> := seq<nat>(n, k requires 0 <= k < n => k);
    table := [];
    for r := 0 to n - 1
      invariant Rotated(teams, n - 1, r)
      invariant |table| == r && forall k | 0 <= k < r :: table[k] == PairingsOf(n - 1, k)
    {
      var pairs := seq(n / 2, m requires 0 <= m < n / 2 => (teams[m], teams[n - 1 - m]));
      assert pairs == PairingsOf(n - 1, r);
      table := table + [pairs];
      LastToSecond(teams, n - 1, r);
      teams := [teams[0]] + [teams[n - 1]] + teams[1..n - 1];
    }
  }

  lemma LastToSecond(teams: seq<nat>, rounds: nat, r: nat)
    requires 0 < rounds && r < rounds && Rotated(teams, rounds, r)
    ensures Rotated([teams[0]] + [teams[rounds]] + teams[1..rounds], rounds, r + 1)
  {
    var next := [teams[0]] + [teams[rounds]] + teams[1..rounds];
    forall i | 0 <= i <= rounds ensures next[i] == At(rounds, r + 1, i) {
      if i >= 2 { assert next[i] == teams[i - 1]; }
    }
  }

  /** The pairs without the one that stands for a bye. */
  function Playing(pairs: seq<(nat, nat)>, bye: int): (matches: seq<(int, int)>)
    ensures |matches| <= |pairs|
    ensures forall x | x in matches :: x.0 != bye && x.1 != bye
    ensures forall k | 0 <= k < |pairs| && pairs[k].0 != bye && pairs[k].1 != bye ::
              (pairs[k].0 as int, pairs[k].1 as int) in matches
    ensures forall x | x in matches :: exists k :: 0 <= k < |pairs| && x == (pairs[k].0 as int, pairs[k].1 as int)
  {
    if pairs == [] then [] else
      var n := |pairs| - 1;
      assert pairs == pairs[..n] + [pairs[n]];
      var before := Playing(pairs[..n], bye);
      assert forall x | x in before :: exists k :: 0 <= k < n && x == (pairs[k].0 as int, pairs[k].1 as int) by {
        forall x | x in before ensures exists k :: 0 <= k < n && x == (pairs[k].0 as int, pairs[k].1 as int) {
          var k :| 0 <= k < n && x == (pairs[..n][k].0 as int, pairs[..n][k].1 as int);
          assert x == (pairs[k].0 as int, pairs[k].1 as int);
        }
      }
      if pairs[n].0 == bye || pairs[n].1 == bye then before
      else before + [(pairs[n].0 as int, pairs[n].1 as int)]
  }

  /** Who is paired with the bye. */
  function SittingOut(pairs: seq<(nat, nat)>, bye: int): (slot: Option<int>)
    ensures slot.None? <==> forall k | 0 <= k < |pairs| :: pairs[k].0 != bye && pairs[k].1 != bye
    ensures slot.Some? ==> exists k :: && 0 <= k < |pairs|
                                       && ((pairs[k].0 == bye && slot.value == pairs[k].1)
                                           || (pairs[k].1 == bye && slot.value == pairs[k].0))
  {
    if pairs == [] then None else
      var n := |pairs| - 1;
      assert pairs == pairs[..n] + [pairs[n]];
      if pairs[n].0 == bye then Some(pairs[n].1) else if pairs[n].1 == bye then Some(pairs[n].0)
      else
        var slot := SittingOut(pairs[..n], bye);
        assert slot.Some? ==> exists k :: 0 <= k < n && (pairs[..n][k].0 == bye || pairs[..n][k].1 == bye);
        slot
  }

  function SwissRound(pairs: seq<(nat, nat)>, count: int): RoundSkeleton {
    RoundSkeleton(Playing(pairs, count), SittingOut(pairs, count))
  }

  /** The schedule for an even number, one more than an odd count. */
  function Base(count: TeamCount): (table: seq<seq<(nat, nat)>>)
    ensures |table| == if Odd(count) then count else count - 1
  {
    Combinations(if Odd(count) then count + 1 else count)
  }

  function SwissSkeleton(count: TeamCount, games: int): (rounds: seq<RoundSkeleton>)
    ensures |rounds| == Max(RoundsDue(count, games), 0)
    ensures forall k | 0 <= k < |rounds| :: rounds[k] == SwissRound(Base(count)[k % |Base(count)|], count)
  {
    var base := Base(count);
    seq(Max(RoundsDue(count, games), 0), k requires 0 <= k => SwissRound(base[k % |base|], count))
  }

  method BuildSwissRound(pairs: seq<(nat, nat)>, count: int) returns (round: RoundSkeleton)
    ensures round == SwissRound(pairs, count)
  {
    var matches: seq<(int, int)>, bye: Option<int> := [], None;
    for k := 0 to |pairs|
      invariant matches == Playing(pairs[..k], count) && bye == SittingOut(pairs[..k], count)
    {
      assert pairs[..k + 1][..k] == pairs[..k];
      var (a, b) := pairs[k];
      if a == count || b == count {
        bye := Some(if a == count then b else a);
      } else {
        matches := matches + [(a as int, b as int)];
      }
    }
    assert pairs[..|pairs|] == pairs;
    return RoundSkeleton(matches, bye);
  }

  method BuildSwissSkeleton(count: TeamCount, games: int) returns (rounds: seq<RoundSkeleton>)
    ensures rounds == SwissSkeleton(count, games)
  {
    hide Combinations, SwissRound;
    var base := CircleMethod(if count % 2 == 1 then count + 1 else count);
    assert base == Base(count);
    hide Base, RoundsDue;
    var needed := RoundsDue(count, games);
    rounds := [];
    if needed <= 0 { return; }
    for i := 0 to needed
      invariant |rounds| == i && forall k | 0 <= k < i :: rounds[k] == SwissRound(base[k % |base|], count)
    {
      var round := BuildSwissRound(base[i % |base|], count);
      rounds := rounds + [round];
    }
  }

  // ---------------------------------------------------------------- what a Swiss round is

  predicate At2(x: (int, int), a: int) {
    x.0 == a || x.1 == a
  }

  /** Everybody stands somewhere in a row of the table. */
  lemma StandsSomewhere(n: int, r: int, a: int) returns (k: int)
    requires n >= 2 && n % 2 == 0 && 0 <= r < |Combinations(n)| && 0 <= a < n
    ensures 0 <= k < |Combinations(n)[r]| && (Combinations(n)[r][k].0 == a || Combinations(n)[r][k].1 == a)
  {
    var rounds := RoundsOf(n);
    var p := PositionIn(rounds, r, a);
    k := Min(p, rounds - p);
    var h := rounds / 2;
    assert rounds == 2 * h + 1;
    assert Combinations(n)[r][k] == (At(rounds, r, k), At(rounds, r, rounds - k));
  }

  /** The number of entrants, and the bye where there is one. */
  function Effective(count: TeamCount): int {
    if Odd(count) then count + 1 else count
  }

  lemma NoSuchNumber(count: TeamCount, r: int, k: int)
    requires !Odd(count) && 0 <= r < |Base(count)| && 0 <= k < |Base(count)[r]|
    ensures Base(count)[r][k].0 != count && Base(count)[r][k].1 != count
  {
    var a, b := Base(count)[r][k].0, Base(count)[r][k].1;
    NobodyMeetsHimself(count, r, k, a, b);
  }

  /** In a Swiss round every position either sits out or plays in exactly one match; somebody sits out exactly when the
      count is odd; and only positions of the item are named. */
  lemma SwissRoundFits(count: TeamCount, r: int, a: int)
    requires 0 <= r < |Base(count)| && 0 <= a < count
    ensures var round := SwissRound(Base(count)[r], count);
            && (round.byeSlot == Some(a) <==> forall x | x in round.matches :: !At2(x, a))
            && (forall x, y | x in round.matches && y in round.matches && At2(x, a) && At2(y, a) :: x == y)
            && (round.byeSlot.Some? <==> Odd(count))
            && (forall x | x in round.matches :: 0 <= x.0 < count && 0 <= x.1 < count && x.0 != x.1)
  {
    var n, pairs := Effective(count), Base(count)[r];
    var round := SwissRound(pairs, count);
    hide Combinations, Playing, SittingOut;
    assert pairs == Combinations(n)[r];
    forall x, y | x in round.matches && y in round.matches && At2(x, a) && At2(y, a) ensures x == y {
      var k :| 0 <= k < |pairs| && x == (pairs[k].0 as int, pairs[k].1 as int);
      var k' :| 0 <= k' < |pairs| && y == (pairs[k'].0 as int, pairs[k'].1 as int);
      OnePlacePerRow(n, r, k, k', a);
    }
    forall x | x in round.matches ensures 0 <= x.0 < count && 0 <= x.1 < count && x.0 != x.1 {
      var k :| 0 <= k < |pairs| && x == (pairs[k].0 as int, pairs[k].1 as int);
      NobodyMeetsHimself(n, r, k, pairs[k].0, pairs[k].1);
    }
    ByeIsForOdd(count, r);
    var k := StandsSomewhere(n, r, a);
    if round.byeSlot.Some? {
      var b := round.byeSlot.value;
      var j :| && 0 <= j < |pairs|
               && ((pairs[j].0 == count && b == pairs[j].1) || (pairs[j].1 == count && b == pairs[j].0));
      if b == a { OnePlacePerRow(n, r, k, j, a); }
      if pairs[k].0 == count || pairs[k].1 == count { OnePlacePerRow(n, r, k, j, count); }
    }
    SitsOrPlays(pairs, count, a, k);
    if round.byeSlot == Some(a) {
      forall x | x in round.matches ensures !At2(x, a) {
        var i :| 0 <= i < |pairs| && x == (pairs[i].0 as int, pairs[i].1 as int);
        if At2(x, a) { OnePlacePerRow(n, r, k, i, a); }
      }
    }
  }

  lemma ByeIsForOdd(count: TeamCount, r: int)
    requires 0 <= r < |Base(count)|
    ensures SittingOut(Base(count)[r], count).Some? <==> Odd(count)
  {
    hide Combinations, SittingOut;
    if Odd(count) {
      var k := StandsSomewhere(count + 1, r, count);
    } else {
      forall k | 0 <= k < |Base(count)[r]| ensures Base(count)[r][k].0 != count && Base(count)[r][k].1 != count {
        NoSuchNumber(count, r, k);
      }
    }
  }

  /** At place k there is a match, or the bye. */
  lemma SitsOrPlays(pairs: seq<(nat, nat)>, count: int, a: int, k: int)
    requires 0 <= k < |pairs| && (pairs[k].0 == a || pairs[k].1 == a)
    ensures pairs[k].0 != count && pairs[k].1 != count ==> exists x :: x in Playing(pairs, count) && At2(x, a)
  {
    if pairs[k].0 != count && pairs[k].1 != count {
      var x := (pairs[k].0 as int, pairs[k].1 as int);
      assert x in Playing(pairs, count) && At2(x, a);
    }
  }

  // ---------------------------------------------------------------- over all rounds

  /** Rounds that are not a whole schedule apart pair nobody twice. */
  lemma NoRematch(count: TeamCount, games: int, k: int, k': int, x: (int, int), y: (int, int))
    requires 0 <= k < k' < |SwissSkeleton(count, games)| && (k' - k) % |Base(count)| != 0
    requires x in SwissSkeleton(count, games)[k].matches && y in SwissSkeleton(count, games)[k'].matches
    ensures x != y && x != (y.1, y.0)
  {
    hide Playing, SittingOut, Combinations;
    var n: int, base: seq<seq<(nat, nat)>> := Effective(count), Base(count);
    var r, r' := k % |base|, k' % |base|;
    var i: int :| 0 <= i < |base[r]| && x == (base[r][i].0 as int, base[r][i].1 as int);
    var j: int :| 0 <= j < |base[r']| && y == (base[r'][j].0 as int, base[r'][j].1 as int);
    NobodyMeetsHimself(n, r, i, x.0, x.1);
    var a, b := Min(x.0, x.1), Max(x.0, x.1);
    RemaindersDiffer(k, k', |base|);
    EveryPairMeetsOnce(n, a, b);
    assert Meets(Combinations(n), r, i, a, b);
    assert x == y || x == (y.1, y.0) ==> Meets(Combinations(n), r', j, a, b);
  }

  lemma RemaindersDiffer(k: int, k': int, n: int)
    requires n > 0 && (k' - k) % n != 0
    ensures k % n != k' % n
  {
    var q := k' / n - k / n;
    assert k' - k == q * n + k' % n - k % n;
    MultipleOf(q, n);
  }

  lemma MultipleOf(q: int, n: int)
    requires n > 0
    ensures (q * n) % n == 0
  {
    QuotientOf(q * n, n, q, 0);
  }

  lemma Larger(x: int, y: int, n: int)
    requires n > 0
    ensures x >= y ==> x * n >= y * n
  {
  }

  /** How many of the first k rounds position `a` plays in. */
  function GamesOf(rounds: seq<RoundSkeleton>, a: int): nat {
    if rounds == [] then 0 else
      GamesOf(rounds[..|rounds| - 1], a) + if rounds[|rounds| - 1].byeSlot == Some(a) then 0 else 1
  }

  /** The row of the schedule in which `a` sits out. */
  lemma SitsOutOnce(count: TeamCount, a: int) returns (r: int)
    requires Odd(count) && 0 <= a < count
    ensures 0 <= r < count
    ensures forall i | 0 <= i < count :: SwissRound(Base(count)[i], count).byeSlot == Some(a) <==> i == r
    ensures a == 0 ==> r == 0
  {
    var table := Combinations(count + 1);
    EveryPairMeetsOnce(count + 1, a, count);
    var m;
    r, m :| Meets(table, r, m, a, count);
    if a == 0 {
      assert table[0][0] == (At(count, 0, 0), At(count, 0, count));
      assert Meets(table, 0, 0, a, count);
    }
    hide Combinations, SittingOut;
    forall i | 0 <= i < count ensures SwissRound(Base(count)[i], count).byeSlot == Some(a) <==> i == r {
      SitsOutHere(count, a, i);
      if SwissRound(Base(count)[i], count).byeSlot == Some(a) {
        var j :| Meets(table, i, j, a, count);
      }
    }
  }

  ghost predicate PairedIn(table: seq<seq<(nat, nat)>>, r: int, a: int, b: int) {
    exists m :: Meets(table, r, m, a, b)
  }

  lemma SitsOutHere(count: TeamCount, a: int, i: int)
    requires Odd(count) && 0 <= a < count && 0 <= i < count
    ensures SwissRound(Base(count)[i], count).byeSlot == Some(a) <==>
              PairedIn(Combinations(count + 1), i, a, count)
  {
    hide Combinations, SittingOut;
    var pairs := Base(count)[i];
    ByeIsForOdd(count, i);
    var b := SittingOut(pairs, count).value;
    var k :| 0 <= k < |pairs| && ((pairs[k].0 == count && b == pairs[k].1) || (pairs[k].1 == count && b == pairs[k].0));
    var table := Combinations(count + 1);
    assert Meets(table, i, k, b, count);
    if j :| Meets(table, i, j, a, count) { OnePlacePerRow(count + 1, i, k, j, count); }
  }

  /** How many of the first k rounds are at place r of the schedule. */
  lemma {:induction false} GamesCount(count: TeamCount, a: int, r: int, rounds: seq<RoundSkeleton>)
    requires Odd(count) && 0 <= r < count
    requires forall i | 0 <= i < count :: SwissRound(Base(count)[i], count).byeSlot == Some(a) <==> i == r
    requires forall k | 0 <= k < |rounds| :: rounds[k] == SwissRound(Base(count)[k % count], count)
    ensures GamesOf(rounds, a) == |rounds| - (|rounds| + count - 1 - r) / count
  {
    hide Base, SwissRound;
    if rounds == [] {
      SmallQuotient(count - 1 - r, count);
    } else {
      var n := |rounds| - 1;
      GamesCount(count, a, r, rounds[..n]);
      QuotientStep(n, count, r);
      assert rounds[n] == SwissRound(Base(count)[n % count], count);
    }
  }

  lemma SmallQuotient(x: int, n: int)
    requires 0 <= x < n
    ensures x / n == 0
  {
  }

  lemma QuotientStep(k: nat, n: int, r: int)
    requires n > 0 && 0 <= r < n
    ensures (k + 1 + n - 1 - r) / n == (k + n - 1 - r) / n + if k % n == r then 1 else 0
  {
    var q, m := k / n, k % n;
    assert k == q * n + m;
    if m < r {
      QuotientOf(k + n - 1 - r, n, q, m + n - 1 - r);
      QuotientOf(k + n - r, n, q, m + n - r);
    } else {
      QuotientOf(k + n - r, n, q + 1, m - r);
      if m == r {
        QuotientOf(k + n - 1 - r, n, q, n - 1);
      } else {
        QuotientOf(k + n - 1 - r, n, q + 1, m - r - 1);
      }
    }
  }

  lemma QuotientOf(x: int, n: int, q: int, m: int)
    requires n > 0 && x == q * n + m && 0 <= m < n
    ensures x / n == q
  {
    var d := q - x / n;
    assert d * n == x % n - m;
    Larger(d, 1, n);
    Larger(-1, d, n);
  }

  /** R = ceil(g n / (n - 1)) is the least number of rounds of which ceil(R / n) can be missed and g are left. */
  lemma RoundsSuffice(games: int, n: int, rounds: int)
    requires games >= 0 && n >= 2 && rounds == -((-games * n) / (n - 1))
    ensures rounds >= games && rounds * (n - 1) >= games * n
    ensures games > 0 ==> rounds > 0 && (rounds - 1) * (n - 1) < games * n
  {
    var x, d := -games * n, n - 1;
    var q := x / d;
    assert x == q * d + x % d && 0 <= x % d < d;
    assert rounds == -q;
    assert rounds * d == -(q * d);
    assert rounds * d >= games * n;
    assert (rounds - 1) * d == rounds * d - d;
    Larger(games - 1, rounds, d);
    assert (games - 1) * d == games * n - games - n + 1;
    Larger(0, rounds, d);
    Larger(games, 1, n);
  }

  /** Of R rounds a position misses at most ceil(R / n). */
  lemma EnoughLeft(games: nat, n: int, rounds: nat, r: int)
    requires n >= 2 && 0 <= r < n && rounds * (n - 1) >= games * n && rounds >= games
    ensures rounds - (rounds + n - 1 - r) / n >= games
  {
    var q := (rounds + n - 1 - r) / n;
    assert q * n <= rounds + n - 1 - r;
    assert (rounds - games) * n >= rounds;
    Larger(q, rounds - games + 1, n);
    assert (rounds - games + 1) * n == (rounds - games) * n + n;
  }

  lemma NotEnough(games: nat, n: int, rounds: nat)
    requires n >= 2 && rounds * (n - 1) < games * n
    ensures rounds - (rounds + n - 1) / n < games
  {
    var q := (rounds + n - 1) / n;
    assert rounds + n - 1 < q * n + n;
    Larger(rounds - games, q, n);
    assert (rounds - games) * n == rounds * n - games * n;
  }

  lemma {:induction false} NobodySitsOut(rounds: seq<RoundSkeleton>, a: int)
    requires forall k | 0 <= k < |rounds| :: rounds[k].byeSlot.None?
    ensures GamesOf(rounds, a) == |rounds|
  {
    if rounds != [] { NobodySitsOut(rounds[..|rounds| - 1], a); }
  }

  /** Every position gets at least the games that were asked for, with an even count exactly as many; and one round
      fewer would not do: position 0 would be short. */
  lemma EnoughGames(count: TeamCount, games: nat, a: int)
    requires 0 <= a < count
    ensures var rounds := SwissSkeleton(count, games);
            && GamesOf(rounds, a) >= games
            && (!Odd(count) ==> GamesOf(rounds, a) == games)
            && (games > 0 ==> |rounds| > 0 && GamesOf(rounds[..|rounds| - 1], 0) < games)
  {
    hide SwissSkeleton, SwissRound, Base;
    var rounds := SwissSkeleton(count, games);
    var fewer := rounds[..Max(|rounds| - 1, 0)];
    if Odd(count) {
      RoundsSuffice(games, count, RoundsDue(count, games));
      var r := SitsOutOnce(count, a);
      var zero := SitsOutOnce(count, 0);
      GamesCount(count, a, r, rounds);
      GamesCount(count, 0, zero, fewer);
      EnoughLeft(games, count, |rounds|, r);
      if games > 0 { NotEnough(games, count, |rounds| - 1); }
    } else {
      EvenRoundsHaveNoBye(count, games);
      NobodySitsOut(rounds, a);
      NobodySitsOut(fewer, 0);
    }
  }

  lemma EvenRoundsHaveNoBye(count: TeamCount, games: int)
    requires !Odd(count)
    ensures forall k | 0 <= k < |SwissSkeleton(count, games)| :: SwissSkeleton(count, games)[k].byeSlot.None?
  {
    hide Base, SittingOut;
    forall k | 0 <= k < |SwissSkeleton(count, games)| ensures SwissSkeleton(count, games)[k].byeSlot.None? {
      ByeIsForOdd(count, k % |Base(count)|);
    }
  }

  // ---------------------------------------------------------------- Mexicano

  /** Identical rounds of neighbouring positions; with an odd number the last one sits out. */
  function MexicanoSkeleton(count: int, games: int): seq<RoundSkeleton> {
    var playing := if Odd(count) then count - 1 else count;
    var matches := seq(Max(playing, 0) / 2, k => (2 * k, 2 * k + 1));
    seq(Max(RoundsDue(count, games), 0), _ => RoundSkeleton(matches, if Odd(count) then Some(count - 1) else None))
  }

  /** In a Mexicano round, too, every position sits out or plays in exactly one match. */
  lemma MexicanoRoundFits(count: TeamCount, games: int, k: int, a: int)
    requires 0 <= k < |MexicanoSkeleton(count, games)| && 0 <= a < count
    ensures |MexicanoSkeleton(count, games)| == RoundsDue(count, games)
    ensures var round := MexicanoSkeleton(count, games)[k];
            && (round.byeSlot == Some(a) <==> forall x | x in round.matches :: !At2(x, a))
            && (forall x, y | x in round.matches && y in round.matches && At2(x, a) && At2(y, a) :: x == y)
            && (round.byeSlot.Some? <==> Odd(count))
            && (forall x | x in round.matches :: 0 <= x.0 < x.1 < count)
  {
    var matches := MexicanoSkeleton(count, games)[k].matches;
    if a / 2 < |matches| { assert matches[a / 2] in matches && At2(matches[a / 2], a); }
  }

  const MEXICANO: Skeletons := (kind, count, games) => MexicanoSkeleton(count, games)

  /** The builders as the program registers them. */
  const PROGRAM: Skeletons :=
    (kind, count, games) => if kind == Swiss && 2 <= count <= 64 then SwissSkeleton(count, games)
                            else MexicanoSkeleton(count, games)
}
