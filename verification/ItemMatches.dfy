/** Rounds and matches of one stage item coming and going in the middle of a request, and what that means
    for set rows: what is added has the rows the item asks for at that moment, what stays keeps its own. */
module ItemMatches {
  import opened Schema
  import opened Progress
  import opened MatchSets
  import opened Deletion

  // ---------------------------------------------------------------- rounds

  function WithRound(t: Tables, i: Id, lifecycle: Lifecycle): Tables {
    t.(rounds := t.rounds[t.nextId := Round(i, lifecycle)], nextId := t.nextId + 1)
  }

  function CreateRound(t: Tables, i: Id, lifecycle: Lifecycle): Result<Tables> {
    if i !in t.stageItems then Err(ForeignKeyViolation) else Ok(WithRound(t, i, lifecycle))
  }

  method SqlCreateRound(db: Database, i: Id, lifecycle: Lifecycle) returns (r: Id, error: Option<Error>)
    modifies db`rounds, db`nextId
    ensures r == old(db.nextId)
    ensures Ended(CreateRound(old(db.Snapshot()), i, lifecycle), old(db.Snapshot()), db.Snapshot(), error)
  {
    r := db.nextId;
    if i !in db.stageItems { return r, Some(ForeignKeyViolation); }
    db.rounds, db.nextId := db.rounds[r := Round(i, lifecycle)], r + 1;
    return r, None;
  }

  function WithRounds(t: Tables, i: Id, k: nat): (t': Tables)
    ensures t' == t.(rounds := t'.rounds, nextId := t.nextId + k)
  {
    if k == 0 then t else WithRound(WithRounds(t, i, k - 1), i, Lifecycle.Active)
  }

  lemma OneMoreRoundOfItem(t: Tables, i: Id, lifecycle: Lifecycle)
    requires forall r | r in t.rounds :: r < t.nextId
    ensures RoundsOfItem(WithRound(t, i, lifecycle), i) == RoundsOfItem(t, i) + {t.nextId}
    ensures t.nextId !in RoundsOfItem(t, i)
  {
  }

  lemma {:induction false} MoreRoundsOfItem(t: Tables, i: Id, k: nat)
    requires forall r | r in t.rounds :: r < t.nextId
    ensures forall r | r in WithRounds(t, i, k).rounds :: r < WithRounds(t, i, k).nextId
    ensures |RoundsOfItem(WithRounds(t, i, k), i)| == |RoundsOfItem(t, i)| + k
  {
    if k > 0 {
      MoreRoundsOfItem(t, i, k - 1);
      OneMoreRoundOfItem(WithRounds(t, i, k - 1), i, Lifecycle.Active);
      hide RoundsOfItem;
    }
  }

  /** k more rounds: the old ones unchanged, the new ones of item `i` and with new ids. */
  lemma {:induction false} WithRoundsForm(t: Tables, i: Id, k: nat)
    requires forall r | r in t.rounds :: r < t.nextId
    ensures var g := WithRounds(t, i, k);
            && (forall r | r in t.rounds :: r in g.rounds && g.rounds[r] == t.rounds[r])
            && (forall r | r in g.rounds && r !in t.rounds :: t.nextId <= r < g.nextId && g.rounds[r].stageItem == i)
            && (forall r | r in g.rounds :: r < g.nextId)
            && |RoundsOfItem(g, i)| == |RoundsOfItem(t, i)| + k
  {
    hide RoundsOfItem;
    MoreRoundsOfItem(t, i, k);
    if k > 0 { WithRoundsForm(t, i, k - 1); }
  }

  lemma {:induction false} NewRoundsActive(t: Tables, i: Id, k: nat)
    ensures forall r | r in WithRounds(t, i, k).rounds && r !in t.rounds ::
              WithRounds(t, i, k).rounds[r] == Round(i, Lifecycle.Active)
  {
    if k > 0 { NewRoundsActive(t, i, k - 1); }
  }

  method CreateRounds(db: Database, i: Id, k: nat)
    requires i in db.stageItems
    modifies db`rounds, db`nextId
    ensures db.Snapshot() == WithRounds(old(db.Snapshot()), i, k)
  {
    ghost var before := db.Snapshot();
    for n := 0 to k
      invariant db.Snapshot() == WithRounds(before, i, n)
    {
      var r, error := SqlCreateRound(db, i, Lifecycle.Active);
    }
  }

  // ---------------------------------------------------------------- matches of a given number of sets

  /** The number of sets item `i` asks for, as the queries look it up. */
  function NumSetsOfItem(t: Tables, i: Id): int {
    if i in t.stageItems && t.stageItems[i].ranking in t.rankings
    then t.rankings[t.stageItems[i].ranking].rules.numSets else 1
  }

  lemma RoundAsks(t: Tables, r: Id)
    requires r in t.rounds
    ensures NumSetsForRound(t, r) == NumSetsOfItem(t, t.rounds[r].stageItem)
  {
  }

  ghost predicate FitsCount(t: Tables, m: Id, n: int)
    requires m in t.matches
  {
    Fits(t.matches[m].progress, n) && RowsAre(RowsOf(t, m), n)
  }

  lemma CountIsUnique(t: Tables, m: Id, n: int, k: int)
    requires m in t.matches && FitsCount(t, m, n) && FitsCount(t, m, k)
    ensures n == k
  {
    assert n >= 1 ==> n in RowsOf(t, m);
    assert k >= 1 ==> k in RowsOf(t, m);
  }

  /** The number of sets a match has in the middle of a request on item `i`: the item's old matches have `was`
      sets, its new ones `given`, and every other match what its ranking asks for. */
  function CountOf(t: Tables, i: Id, known: set<Id>, was: int, given: int, m: Id): int
    requires m in t.matches
  {
    if m !in MatchesOfItem(t, i) then NumSetsOf(t, m) else if m in known then was else given
  }

  ghost predicate TwoCounts(t: Tables, i: Id, known: set<Id>, was: int, given: int) {
    forall m | m in t.matches :: FitsCount(t, m, CountOf(t, i, known, was, given, m))
  }

  /** Item `i` has a match that is not among `known`. */
  ghost predicate HasNewMatch(t: Tables, i: Id, known: set<Id>) {
    exists m | m in MatchesOfItem(t, i) :: m !in known
  }

  ghost predicate HasOldMatch(t: Tables, i: Id, known: set<Id>) {
    exists m | m in MatchesOfItem(t, i) :: m in known
  }

  /** When the item finally asks for `n` sets, all fits exactly when every match it has was given n. */
  lemma TwoCountsFit(t: Tables, t': Tables, i: Id, known: set<Id>, was: int, given: int, n: int)
    requires ChainRefers(t) && TwoCounts(t, i, known, was, given)
    requires t' == t.(stageItems := t'.stageItems) && NumSetsOfItem(t', i) == n
    requires forall x | x in t.stageItems && x != i :: x in t'.stageItems && t'.stageItems[x] == t.stageItems[x]
    ensures AllSetsFit(t') <==>
            (HasOldMatch(t, i, known) ==> was == n) && (HasNewMatch(t, i, known) ==> given == n)
  {
    hide Fits, RowsAre, ChainRefers;
    forall m | m in t.matches
      ensures SetsFit(t', m) <==>
                CountOf(t, i, known, was, given, m) == if m in MatchesOfItem(t, i) then n else NumSetsOf(t, m)
    {
      OneCountFits(t, t', i, known, was, given, n, m);
    }
    if m :| m in MatchesOfItem(t, i) && m in known { assert m in t'.matches && (SetsFit(t', m) <==> was == n); }
    if m :| m in MatchesOfItem(t, i) && m !in known { assert m in t'.matches && (SetsFit(t', m) <==> given == n); }
    hide SetsFit, FitsCount;
  }

  lemma OneCountFits(t: Tables, t': Tables, i: Id, known: set<Id>, was: int, given: int, n: int, m: Id)
    requires ChainRefers(t) && TwoCounts(t, i, known, was, given) && m in t.matches
    requires t' == t.(stageItems := t'.stageItems) && NumSetsOfItem(t', i) == n
    requires forall x | x in t.stageItems && x != i :: x in t'.stageItems && t'.stageItems[x] == t.stageItems[x]
    ensures var asked := if m in MatchesOfItem(t, i) then n else NumSetsOf(t, m);
            SetsFit(t', m) <==> CountOf(t, i, known, was, given, m) == asked
  {
    hide Fits, RowsAre;
    var asked := if m in MatchesOfItem(t, i) then n else NumSetsOf(t, m);
    var has := CountOf(t, i, known, was, given, m);
    assert t.matches[m].round in t.rounds;
    RoundAsks(t', t.matches[m].round);
    RoundAsks(t, t.matches[m].round);
    assert SetsFit(t', m) <==> FitsCount(t, m, asked);
    assert FitsCount(t, m, has);
    if FitsCount(t, m, asked) { CountIsUnique(t, m, has, asked); }
  }

  lemma AllFitAlready(t: Tables, i: Id, known: set<Id>, given: int)
    requires AllSetsFit(t) && ChainRefers(t) && MatchesOfItem(t, i) <= known
    ensures TwoCounts(t, i, known, NumSetsOfItem(t, i), given)
  {
    forall m | m in t.matches ensures FitsCount(t, m, CountOf(t, i, known, NumSetsOfItem(t, i), given, m)) {
      assert SetsFit(t, m);
      RoundAsks(t, t.matches[m].round);
    }
  }

  // ---------------------------------------------------------------- adding

  /** `t'` has more rounds and matches of item `i`: the new matches have not started and have the set rows the
      item asks for, at least one. */
  ghost predicate Extended(t: Tables, t': Tables, i: Id) {
    && t' == t.(rounds := t'.rounds, matches := t'.matches, matchSets := t'.matchSets, nextId := t'.nextId)
    && t.nextId <= t'.nextId
    && (forall r | r in t.rounds :: r in t'.rounds && t'.rounds[r] == t.rounds[r])
    && (forall r | r in t'.rounds && r !in t.rounds :: t.nextId <= r < t'.nextId && t'.rounds[r].stageItem == i)
    && (forall m | m in t.matches :: m in t'.matches && t'.matches[m] == t.matches[m] && RowsOf(t', m) == RowsOf(t, m))
    && (forall m | m in t'.matches && m !in t.matches ::
          && t.nextId <= m < t'.nextId && m in MatchesOfItem(t', i) && t'.matches[m].progress == RESET
          && RowsAre(RowsOf(t', m), Max(NumSetsOfItem(t, i), 1)))
    && (forall m | m in t'.matchSets :: m in t.matchSets || m in t'.matches)
  }

  lemma NothingExtends(t: Tables, i: Id)
    ensures Extended(t, t, i)
  {
  }

  lemma ExtendedTwice(t: Tables, s: Tables, t': Tables, i: Id)
    requires Extended(t, s, i) && Extended(s, t', i)
    ensures Extended(t, t', i)
  {
    hide RowsAre;
    forall m | m in t'.matches && m !in t.matches
      ensures t.nextId <= m < t'.nextId && m in MatchesOfItem(t', i) && t'.matches[m].progress == RESET
      ensures RowsAre(RowsOf(t', m), Max(NumSetsOfItem(t, i), 1))
    {
      assert m in s.matches ==>
          t'.matches[m] == s.matches[m] && RowsOf(t', m) == RowsOf(s, m) && s.matches[m].round in s.rounds;
    }
  }

  lemma MatchExtends(t: Tables, i: Id, row: Match)
    requires (forall m | m in t.matches :: m < t.nextId) && row.round in t.rounds && t.rounds[row.round].stageItem == i
    ensures Extended(t, WithMatch(t, row), i) && t.nextId !in t.matches && t.nextId in WithMatch(t, row).matches
    ensures forall m | m in WithMatch(t, row).matches :: m < WithMatch(t, row).nextId
  {
    hide NumSetsForRound, NumSetsOfItem, RowsAre, NewSets, Max, MatchesOfItem, WithMatch;
    RoundAsks(t, row.round);
    NewSetsAre(Max(NumSetsForRound(t, row.round), 1));
    WithMatchForm(t, i, row);
  }

  lemma WithMatchForm(t: Tables, i: Id, row: Match)
    requires t.nextId !in t.matches && row.round in t.rounds && t.rounds[row.round].stageItem == i
    ensures var t' := WithMatch(t, row);
            && t' == t.(matches := t'.matches, matchSets := t'.matchSets, nextId := t.nextId + 1)
            && t'.matches.Keys == t.matches.Keys + {t.nextId} && t'.matchSets.Keys == t.matchSets.Keys + {t.nextId}
            && (forall m | m in t.matches :: t'.matches[m] == t.matches[m] && RowsOf(t', m) == RowsOf(t, m))
            && t.nextId in MatchesOfItem(t', i) && t'.matches[t.nextId].progress == RESET
            && RowsOf(t', t.nextId) == NewSets(1, Max(NumSetsForRound(t, row.round), 1))
  {
    hide NumSetsForRound, NewSets, Max;
  }

  lemma NewSetsAre(n: int)
    ensures RowsAre(NewSets(1, n), n)
  {
  }

  lemma RoundExtends(t: Tables, i: Id, lifecycle: Lifecycle)
    requires forall r | r in t.rounds :: r < t.nextId
    ensures Extended(t, WithRound(t, i, lifecycle), i) && t.nextId in WithRound(t, i, lifecycle).rounds
    ensures forall r | r in WithRound(t, i, lifecycle).rounds :: r < WithRound(t, i, lifecycle).nextId
  {
  }

  lemma {:induction false} RoundsExtend(t: Tables, i: Id, k: nat)
    requires forall r | r in t.rounds :: r < t.nextId
    ensures Extended(t, WithRounds(t, i, k), i)
    ensures forall r | r in WithRounds(t, i, k).rounds :: r < WithRounds(t, i, k).nextId
  {
    hide Extended;
    if k == 0 {
      NothingExtends(t, i);
    } else {
      RoundsExtend(t, i, k - 1);
      RoundExtends(WithRounds(t, i, k - 1), i, Lifecycle.Active);
      ExtendedTwice(t, WithRounds(t, i, k - 1), WithRounds(t, i, k), i);
    }
  }

  lemma ExtendedKeys(t: Tables, t': Tables, i: Id)
    requires Extended(t, t', i)
    ensures t.matches.Keys <= t'.matches.Keys && t.rounds.Keys <= t'.rounds.Keys
  {
    forall m | m in t.matches.Keys ensures m in t'.matches.Keys { assert m in t.matches; }
    forall r | r in t.rounds.Keys ensures r in t'.rounds.Keys { assert r in t.rounds; }
  }

  /** New matches have the count the item asked for when they were added. */
  lemma ExtendedCounts(t: Tables, t': Tables, i: Id, known: set<Id>, was: int)
    requires ChainRefers(t) && Extended(t, t', i) && known <= t.matches.Keys
    requires TwoCounts(t, i, known, was, Max(NumSetsOfItem(t, i), 1))
    ensures TwoCounts(t', i, known, was, Max(NumSetsOfItem(t, i), 1))
    ensures HasNewMatch(t', i, known) <==> HasNewMatch(t, i, known) || t'.matches.Keys != t.matches.Keys
    ensures HasOldMatch(t', i, known) <==> HasOldMatch(t, i, known)
  {
    var given := Max(NumSetsOfItem(t, i), 1);
    hide RowsAre, NumSetsOfItem;
    forall m | m in t.matches ensures m in MatchesOfItem(t', i) <==> m in MatchesOfItem(t, i) {
      assert t.matches[m].round in t.rounds;
    }
    forall m | m in t'.matches ensures FitsCount(t', m, CountOf(t', i, known, was, given, m)) {
      if m in t.matches {
        assert FitsCount(t, m, CountOf(t, i, known, was, given, m)) && t.matches[m].round in t.rounds;
        assert NumSetsOf(t', m) == NumSetsOf(t, m);
      }
    }
    hide FitsCount, CountOf, TwoCounts;
    ExtendedKeys(t, t', i);
    EmptyOrHasMember(t'.matches.Keys - t.matches.Keys);
    assert t'.matches.Keys == t.matches.Keys + (t'.matches.Keys - t.matches.Keys);
    if m :| m in t'.matches.Keys - t.matches.Keys { assert m in MatchesOfItem(t', i) && m !in known; }
  }

  /** Adding matches to an item keeps the invariant exactly when it held and the item asks for a set, or no
      match was added. */
  lemma ExtendedFits(t: Tables, t': Tables, i: Id)
    requires ChainRefers(t) && i in t.stageItems && Extended(t, t', i)
    ensures ChainRefers(t')
    ensures ProgressOk(t') <==> ProgressOk(t) && (NumSetsOfItem(t, i) >= 1 || t'.matches.Keys == t.matches.Keys)
  {
    hide NumSetsOfItem, ChainRefers;
    ExtendedRefers(t, t', i);
    forall m | m in t.matches ensures m in t'.matches && (SetsFit(t', m) <==> SetsFit(t, m)) {
      OldFits(t, t', i, m);
    }
    forall m | m in t'.matches && m !in t.matches ensures SetsFit(t', m) <==> NumSetsOfItem(t, i) >= 1 {
      NewFits(t, t', i, m);
    }
    ExtendedKeys(t, t', i);
    hide SetsFit, Extended;
    EmptyOrHasMember(t'.matches.Keys - t.matches.Keys);
    assert t'.matches.Keys == t.matches.Keys + (t'.matches.Keys - t.matches.Keys);
  }

  lemma ExtendedRefers(t: Tables, t': Tables, i: Id)
    requires ChainRefers(t) && i in t.stageItems && Extended(t, t', i)
    ensures ChainRefers(t')
  {
    hide NumSetsOfItem, RowsAre, StageItemsRefer;
    forall m | m in t'.matches ensures t'.matches[m].round in t'.rounds && m < t'.nextId {
      assert m in t.matches ==> t.matches[m].round in t.rounds;
    }
    assert t'.matchSets.Keys <= t'.matches.Keys by {
      forall m | m in t'.matchSets ensures m in t'.matches { assert m in t.matchSets ==> m in t.matches; }
    }
  }

  lemma OldFits(t: Tables, t': Tables, i: Id, m: Id)
    requires ChainRefers(t) && Extended(t, t', i) && m in t.matches
    ensures m in t'.matches && (SetsFit(t', m) <==> SetsFit(t, m))
  {
    assert t.matches[m].round in t.rounds;
    FitsFrame(t, t', m);
  }

  lemma NewFits(t: Tables, t': Tables, i: Id, m: Id)
    requires Extended(t, t', i) && m in t'.matches && m !in t.matches
    ensures SetsFit(t', m) <==> NumSetsOfItem(t, i) >= 1
  {
    var n := NumSetsOfItem(t, i);
    RoundAsks(t', t'.matches[m].round);
    assert 1 in RowsOf(t', m);
  }

  // ---------------------------------------------------------------- taking away

  /** `t'` lacks some rounds and some matches of `t`, the matches among those in `known`; what it has is as it
      was in `t`. */
  ghost predicate Thinner(t: Tables, t': Tables, known: set<Id>) {
    && t'.stageItems == t.stageItems && t'.stages == t.stages && t'.rankings == t.rankings && t.nextId <= t'.nextId
    && (forall m | m in t'.matches ::
          && m in t.matches && t'.matches[m].round == t.matches[m].round
          && t'.matches[m].progress == t.matches[m].progress && RowsOf(t', m) == RowsOf(t, m))
    && (forall r | r in t'.rounds :: r in t.rounds && t'.rounds[r] == t.rounds[r])
    && (forall m | m in t.matches && m !in known :: m in t'.matches)
  }

  lemma NothingThins(t: Tables, known: set<Id>)
    ensures Thinner(t, t, known)
  {
  }

  lemma ThinnerTwice(t: Tables, s: Tables, t': Tables, known: set<Id>)
    requires Thinner(t, s, known) && Thinner(s, t', known)
    ensures Thinner(t, t', known)
  {
  }

  lemma ThinnerCounts(t: Tables, t': Tables, i: Id, known: set<Id>, was: int, given: int)
    requires ChainRefers(t') && Thinner(t, t', known) && TwoCounts(t, i, known, was, given)
    ensures TwoCounts(t', i, known, was, given)
    ensures HasNewMatch(t', i, known) <==> HasNewMatch(t, i, known)
  {
    hide RowsAre, NumSetsOfItem;
    forall m | m in t'.matches
      ensures m in MatchesOfItem(t', i) <==> m in MatchesOfItem(t, i)
      ensures FitsCount(t', m, CountOf(t', i, known, was, given, m))
    {
      assert t'.matches[m].round in t'.rounds;
      assert FitsCount(t, m, CountOf(t, i, known, was, given, m)) && NumSetsOf(t', m) == NumSetsOf(t, m);
    }
    hide FitsCount, CountOf, TwoCounts;
    if m :| m in MatchesOfItem(t, i) && m !in known { assert m in t'.matches && m in MatchesOfItem(t', i); }
  }
}
