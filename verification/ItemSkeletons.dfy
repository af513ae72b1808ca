/** Rounds laid out from a skeleton, read back from the database: which rounds a creation or an update adds to an item
    whose standings decide the pairings, and which positions meet in them. */
module ItemSkeletons {
  import opened Schema
  import opened MatchSets
  import opened SetResize
  import opened Deletion
  import opened StageItemResize
  import opened ItemMatches
  import opened Layout
  import opened StageItems
  import opened SkeletonBuilders
  import opened ItemLayout

  // ---------------------------------------------------------------- what is drawn

  /** A match between two positions that has not started: nobody is known yet, and nothing else is set. */
  predicate BetweenPositions(row: Match, r: Id, slots: (int, int), bye: Option<int>) {
    && row.round == r && row.slot1 == Some(slots.0) && row.slot2 == Some(slots.1) && row.refereeSlot == bye
    && row.input1.None? && row.input2.None? && row.winnerFrom1.None? && row.winnerFrom2.None?
    && row.referee.None? && row.refereeName.None? && row.court.None? && row.completedAt.None?
    && !row.progress.inProgress && row.progress.completed == 0
  }

  /** The matches of a placeholder round are, in the order of their ids, the pairs the skeleton round draws. */
  ghost predicate RoundDrawn(t: Tables, i: Id, r: Id, round: RoundSkeleton) {
    && r in t.rounds && t.rounds[r].stageItem == i && t.rounds[r].lifecycle == Placeholder
    && PairsDrawn(t, Ids(MatchesOfRounds(t, {r})), r, round)
  }

  ghost predicate PairsDrawn(t: Tables, ids: seq<Id>, r: Id, round: RoundSkeleton) {
    && |ids| == |round.matches|
    && forall k | 0 <= k < |ids| ::
         ids[k] in t.matches && BetweenPositions(t.matches[ids[k]], r, round.matches[k], round.byeSlot)
  }

  function NewRounds(t: Tables, t': Tables): set<Id> {
    set r | r in t'.rounds && r !in t.rounds
  }

  /** From `t` to `t'` exactly the rounds of the skeleton have come, in the order of their ids, and every match that has
      come is in one of them. */
  ghost predicate Drawn(t: Tables, t': Tables, i: Id, skeleton: seq<RoundSkeleton>) {
    && RoundsDrawn(t', i, Ids(NewRounds(t, t')), skeleton)
    && (forall m | m in t'.matches && m !in t.matches :: t'.matches[m].round in NewRounds(t, t'))
  }

  ghost predicate RoundsDrawn(t: Tables, i: Id, order: seq<Id>, skeleton: seq<RoundSkeleton>) {
    |order| == |skeleton| && forall k | 0 <= k < |order| :: RoundDrawn(t, i, order[k], skeleton[k])
  }

  // ---------------------------------------------------------------- ids in ascending order

  function Identity(ids: set<Id>): map<Id, int> {
    map x | x in ids :: x
  }

  /** Any ascending listing is the listing. */
  lemma AscendingIsIds(order: seq<Id>, ids: set<Id>)
    requires (forall x :: x in order <==> x in ids) && forall a, b | 0 <= a < b < |order| :: order[a] < order[b]
    ensures Ids(ids) == order
  {
    var key := Identity(ids);
    assert InOrder(order, key) && InOrder(Ids(ids), key);
    OrderUnique(order, Ids(ids), key);
  }

  lemma IdsOneMore(ids: set<Id>, x: Id)
    requires forall y | y in ids :: y < x
    ensures Ids(ids + {x}) == Ids(ids) + [x]
  {
    var order := Ids(ids) + [x];
    forall a, b | 0 <= a < b < |order| ensures order[a] < order[b] {
      assert order[a] in Ids(ids);
    }
    AscendingIsIds(order, ids + {x});
  }

  // ---------------------------------------------------------------- one round

  /** The matches of one call: the next ids in turn, each as drawn, all in the round; the others stay. */
  ghost predicate LaidOut(t: Tables, t': Tables, r: Id, pairs: seq<(int, int)>, bye: Option<int>) {
    && (forall m :: m in t'.matches <==> m in t.matches || t.nextId <= m < t.nextId + |pairs|)
    && (forall m | m in t.matches :: t'.matches[m] == t.matches[m])
    && forall k | 0 <= k < |pairs| :: BetweenPositions(t'.matches[t.nextId + k], r, pairs[k], bye)
  }

  lemma MatchBetweenPositions(r: Id, slots: (int, int), bye: Option<int>)
    ensures BetweenPositions(Inserted(SkeletonMatch(r, slots, bye)), r, slots, bye)
  {
  }

  lemma OneMoreLaidOut(t: Tables, s: Tables, t': Tables, r: Id, pairs: seq<(int, int)>, bye: Option<int>)
    requires pairs != [] && LaidOut(t, s, r, pairs[..|pairs| - 1], bye) && s.nextId == t.nextId + |pairs| - 1
    requires forall m | m in t.matches :: m < t.nextId
    requires t'.matches == s.matches[s.nextId := Inserted(SkeletonMatch(r, pairs[|pairs| - 1], bye))]
    ensures LaidOut(t, t', r, pairs, bye)
  {
    var n := |pairs| - 1;
    MatchBetweenPositions(r, pairs[n], bye);
    hide BetweenPositions, Inserted, SkeletonMatch;
    forall k | 0 <= k < |pairs| ensures BetweenPositions(t'.matches[t.nextId + k], r, pairs[k], bye) {
      if k < n { assert pairs[..n][k] == pairs[k]; }
    }
  }

  lemma {:induction false} MatchesLaidOut(t: Tables, r: Id, pairs: seq<(int, int)>, bye: Option<int>)
    requires forall m | m in t.matches :: m < t.nextId
    ensures LaidOut(t, SkeletonMatches(t, r, pairs, bye), r, pairs, bye)
  {
    if pairs != [] {
      hide LaidOut, Inserted, SkeletonMatch, NewSets, NumSetsForRound;
      var n := |pairs| - 1;
      MatchesLaidOut(t, r, pairs[..n], bye);
      OneMoreLaidOut(t, SkeletonMatches(t, r, pairs[..n], bye), SkeletonMatches(t, r, pairs, bye), r, pairs, bye);
    }
  }

  lemma RoundLaidOut(t: Tables, i: Id, round: RoundSkeleton)
    requires Sequenced(t) && forall m | m in t.matches :: t.matches[m].round in t.rounds
    ensures var t' := SkeletonMatches(WithRound(t, i, Placeholder), t.nextId, round.matches, round.byeSlot);
            && RoundDrawn(t', i, t.nextId, round)
            && t'.rounds == t.rounds[t.nextId := Round(i, Placeholder)]
            && (forall m | m in t.matches :: m in t'.matches && t'.matches[m] == t.matches[m])
            && (forall m | m in t'.matches && m !in t.matches :: t'.matches[m].round == t.nextId)
  {
    hide SkeletonMatches, RoundDrawn, LaidOut, BetweenPositions;
    var t2 := WithRound(t, i, Placeholder);
    var t' := SkeletonMatches(t2, t.nextId, round.matches, round.byeSlot);
    MatchesLaidOut(t2, t.nextId, round.matches, round.byeSlot);
    NoneBefore(t);
    LaidOutIsDrawn(t2, t', i, t.nextId, round);
  }

  lemma NoneBefore(t: Tables)
    requires Sequenced(t) && forall m | m in t.matches :: t.matches[m].round in t.rounds
    ensures forall m | m in t.matches :: t.matches[m].round != t.nextId && m < t.nextId
  {
  }

  lemma LaidOutIsDrawn(t: Tables, t': Tables, i: Id, r: Id, round: RoundSkeleton)
    requires LaidOut(t, t', r, round.matches, round.byeSlot)
    requires r in t'.rounds && t'.rounds[r] == Round(i, Placeholder)
    requires forall m | m in t.matches :: t.matches[m].round != r && m < t.nextId
    ensures RoundDrawn(t', i, r, round)
    ensures forall m | m in t.matches :: m in t'.matches && t'.matches[m] == t.matches[m]
    ensures forall m | m in t'.matches && m !in t.matches :: t'.matches[m].round == r
  {
    hide BetweenPositions, MatchesOfRounds, PairsDrawn;
    var n := |round.matches|;
    var order := seq(n, k requires 0 <= k < n => t.nextId + k);
    LaidOutInRound(t, t', r, round, order);
    LaidOutInPairs(t, t', r, round, order);
    hide LaidOut;
    AscendingIsIds(order, MatchesOfRounds(t', {r}));
  }

  lemma LaidOutInPairs(t: Tables, t': Tables, r: Id, round: RoundSkeleton, order: seq<Id>)
    requires LaidOut(t, t', r, round.matches, round.byeSlot) && |order| == |round.matches|
    requires forall k | 0 <= k < |order| :: order[k] == t.nextId + k
    ensures PairsDrawn(t', order, r, round)
  {
    hide BetweenPositions;
    forall k | 0 <= k < |order|
      ensures order[k] in t'.matches && BetweenPositions(t'.matches[order[k]], r, round.matches[k], round.byeSlot)
    {
      assert BetweenPositions(t'.matches[t.nextId + k], r, round.matches[k], round.byeSlot);
    }
  }

  lemma LaidOutInRound(t: Tables, t': Tables, r: Id, round: RoundSkeleton, order: seq<Id>)
    requires LaidOut(t, t', r, round.matches, round.byeSlot) && |order| == |round.matches|
    requires forall k | 0 <= k < |order| :: order[k] == t.nextId + k
    requires forall m | m in t.matches :: t.matches[m].round != r && m < t.nextId
    ensures forall m :: m in order <==> m in MatchesOfRounds(t', {r})
    ensures forall m | m in t'.matches && m !in t.matches :: t'.matches[m].round == r
  {
    hide BetweenPositions;
    forall m ensures m in order <==> t.nextId <= m < t.nextId + |order| {
      if t.nextId <= m < t.nextId + |order| { assert order[m - t.nextId] == m; }
    }
    forall m | m in order ensures m in t'.matches && t'.matches[m].round == r {
      var k := m - t.nextId;
      assert BetweenPositions(t'.matches[t.nextId + k], r, round.matches[k], round.byeSlot);
      DrawnInRound(t'.matches[m], r, round.matches[k], round.byeSlot);
    }
  }

  lemma DrawnInRound(row: Match, r: Id, slots: (int, int), bye: Option<int>)
    requires BetweenPositions(row, r, slots, bye)
    ensures row.round == r
  {
  }

  // ---------------------------------------------------------------- all rounds

  /** No match of the round comes, goes or changes. */
  ghost predicate RoundKept(t: Tables, t': Tables, r: Id) {
    && (forall m | m in t.matches && t.matches[m].round == r :: m in t'.matches && t'.matches[m] == t.matches[m])
    && (forall m | m in t'.matches && t'.matches[m].round == r :: m in t.matches && t.matches[m].round == r)
  }

  lemma SameMatchesOfRound(t: Tables, t': Tables, r: Id)
    requires RoundKept(t, t', r)
    ensures MatchesOfRounds(t', {r}) == MatchesOfRounds(t, {r})
    ensures forall m | m in MatchesOfRounds(t, {r}) ::
              m in t.matches && m in t'.matches && t'.matches[m] == t.matches[m]
  {
    forall m ensures m in MatchesOfRounds(t', {r}) <==> m in MatchesOfRounds(t, {r}) {
      assert m in t.matches && t.matches[m].round == r ==> m in t'.matches && t'.matches[m] == t.matches[m];
    }
  }

  /** A drawn round stays drawn. */
  lemma RoundStaysDrawn(t: Tables, t': Tables, i: Id, r: Id, round: RoundSkeleton)
    requires RoundDrawn(t, i, r, round) && r in t'.rounds && t'.rounds[r] == t.rounds[r] && RoundKept(t, t', r)
    ensures RoundDrawn(t', i, r, round)
  {
    SameMatchesOfRound(t, t', r);
    SamePairsDrawn(t, t', Ids(MatchesOfRounds(t, {r})), r, round);
    hide PairsDrawn, MatchesOfRounds, RoundKept;
  }

  lemma SamePairsDrawn(t: Tables, t': Tables, ids: seq<Id>, r: Id, round: RoundSkeleton)
    requires PairsDrawn(t, ids, r, round)
    requires forall m | m in ids :: m in t.matches && m in t'.matches && t'.matches[m] == t.matches[m]
    ensures PairsDrawn(t', ids, r, round)
  {
    hide BetweenPositions;
    forall k | 0 <= k < |ids|
      ensures ids[k] in t'.matches && BetweenPositions(t'.matches[ids[k]], r, round.matches[k], round.byeSlot)
    {
      var m := ids[k];
      assert m in ids && m in t.matches;
    }
  }

  lemma {:induction false} RoundsLaidOut(t: Tables, i: Id, skeleton: seq<RoundSkeleton>)
    requires Sequenced(t) && forall m | m in t.matches :: t.matches[m].round in t.rounds
    ensures var t' := SkeletonRounds(t, i, skeleton);
            && Drawn(t, t', i, skeleton)
            && (forall m | m in t'.matches :: t'.matches[m].round in t'.rounds)
            && (forall r | r in t.rounds :: r in t'.rounds && t'.rounds[r] == t.rounds[r])
            && (forall m | m in t.matches :: m in t'.matches && t'.matches[m] == t.matches[m])
  {
    hide SkeletonMatches, RoundDrawn, Drawn;
    if skeleton == [] {
      NothingDrawn(t, i);
    } else {
      var n := |skeleton| - 1;
      RoundsLaidOut(t, i, skeleton[..n]);
      SkeletonRoundsSequenced(t, i, skeleton[..n]);
      var s := SkeletonRounds(t, i, skeleton[..n]);
      RoundLaidOut(s, i, skeleton[n]);
      OneMoreDrawn(t, s, SkeletonRounds(t, i, skeleton), i, skeleton);
    }
  }

  lemma NothingDrawn(t: Tables, i: Id)
    ensures Drawn(t, t, i, [])
  {
    EmptyOrHasMember(NewRounds(t, t));
  }

  /** One more round, after `s`, with new matches only in it. */
  ghost predicate NextRound(s: Tables, t': Tables, i: Id) {
    && t'.rounds == s.rounds[s.nextId := Round(i, Placeholder)] && (forall r | r in s.rounds :: r < s.nextId)
    && (forall m | m in s.matches :: s.matches[m].round in s.rounds)
    && (forall m | m in s.matches :: m in t'.matches && t'.matches[m] == s.matches[m])
    && (forall m | m in t'.matches && m !in s.matches :: t'.matches[m].round == s.nextId)
  }

  lemma OneMoreDrawn(t: Tables, s: Tables, t': Tables, i: Id, skeleton: seq<RoundSkeleton>)
    requires skeleton != [] && Drawn(t, s, i, skeleton[..|skeleton| - 1]) && NextRound(s, t', i)
    requires (forall r | r in t.rounds :: r in s.rounds) && forall m | m in t.matches :: m in s.matches
    requires RoundDrawn(t', i, s.nextId, skeleton[|skeleton| - 1])
    ensures Drawn(t, t', i, skeleton)
  {
    hide RoundDrawn, RoundsDrawn, NewRounds, NextRound;
    var n, before := |skeleton| - 1, Ids(NewRounds(t, s));
    OneMoreNew(t, s, t', i);
    IdsOneMore(NewRounds(t, s), s.nextId);
    OldRoundsDrawn(s, t', i, before, skeleton[..n]);
    OneRoundMore(t', i, before, skeleton, s.nextId);
    NewMatchesPlaced(t, s, t', i);
  }

  lemma OldRoundsDrawn(s: Tables, t': Tables, i: Id, order: seq<Id>, skeleton: seq<RoundSkeleton>)
    requires NextRound(s, t', i) && RoundsDrawn(s, i, order, skeleton)
    ensures RoundsDrawn(t', i, order, skeleton)
  {
    hide NextRound;
    forall k | 0 <= k < |order| ensures RoundDrawn(t', i, order[k], skeleton[k]) {
      OldRoundDrawn(s, t', i, order[k], skeleton[k]);
    }
    hide RoundDrawn;
  }

  lemma OneRoundMore(t: Tables, i: Id, before: seq<Id>, skeleton: seq<RoundSkeleton>, r: Id)
    requires skeleton != [] && RoundsDrawn(t, i, before, skeleton[..|skeleton| - 1])
    requires RoundDrawn(t, i, r, skeleton[|skeleton| - 1])
    ensures RoundsDrawn(t, i, before + [r], skeleton)
  {
    hide RoundDrawn;
    var n := |skeleton| - 1;
    forall k | 0 <= k <= n ensures RoundDrawn(t, i, (before + [r])[k], skeleton[k]) {
      if k < n { assert skeleton[..n][k] == skeleton[k]; }
    }
  }

  lemma OldRoundDrawn(s: Tables, t': Tables, i: Id, r: Id, round: RoundSkeleton)
    requires NextRound(s, t', i) && RoundDrawn(s, i, r, round)
    ensures RoundDrawn(t', i, r, round)
  {
    hide PairsDrawn, RoundKept;
    OldRoundKept(s, t', r);
    RoundStaysDrawn(s, t', i, r, round);
  }

  lemma NewMatchesPlaced(t: Tables, s: Tables, t': Tables, i: Id)
    requires NextRound(s, t', i) && (forall m | m in t.matches :: m in s.matches)
    requires NewRounds(t, t') == NewRounds(t, s) + {s.nextId}
    requires forall m | m in s.matches && m !in t.matches :: s.matches[m].round in NewRounds(t, s)
    ensures forall m | m in t'.matches && m !in t.matches :: t'.matches[m].round in NewRounds(t, t')
  {
  }

  lemma OldRoundKept(s: Tables, t': Tables, r: Id)
    requires r < s.nextId
    requires forall m | m in s.matches :: m in t'.matches && t'.matches[m] == s.matches[m]
    requires forall m | m in t'.matches && m !in s.matches :: t'.matches[m].round == s.nextId
    ensures RoundKept(s, t', r)
  {
    forall m | m in t'.matches && t'.matches[m].round == r ensures m in s.matches {}
  }

  lemma OneMoreNew(t: Tables, s: Tables, t': Tables, i: Id)
    requires NextRound(s, t', i) && forall r | r in t.rounds :: r in s.rounds
    ensures NewRounds(t, t') == NewRounds(t, s) + {s.nextId}
    ensures forall r | r in NewRounds(t, s) :: r in s.rounds && r < s.nextId
  {
    forall r ensures r in NewRounds(t, t') <==> r in NewRounds(t, s) + {s.nextId} {}
  }

  // ---------------------------------------------------------------- a creation

  /** The rounds a creation is to lay out. */
  function DueAtCreation(body: NewItemBody, skeletons: Skeletons): seq<RoundSkeleton> {
    if body.gamesPerPlayer.None? then [] else skeletons(body.kind, body.teamCount, body.gamesPerPlayer.value)
  }

  lemma SameStart(t: Tables, s: Tables, t': Tables, i: Id, skeleton: seq<RoundSkeleton>)
    requires Drawn(s, t', i, skeleton) && s.rounds.Keys == t.rounds.Keys && s.matches.Keys == t.matches.Keys
    ensures Drawn(t, t', i, skeleton)
  {
    hide RoundsDrawn;
    forall r ensures r in NewRounds(t, t') <==> r in NewRounds(s, t') {
      assert r in t.rounds.Keys <==> r in s.rounds.Keys;
    }
    assert NewRounds(t, t') == NewRounds(s, t');
    forall m ensures m in t.matches <==> m in s.matches { assert m in t.matches.Keys <==> m in s.matches.Keys; }
  }

  /** A new item whose standings decide its pairings has exactly the rounds of its skeleton, drawn as there; without a
      number of games, none. */
  lemma CreationDraws(t: Tables, tournament: Id, body: NewItemBody, skeletons: Skeletons)
    requires ForeignKeys(t) && IdsBelowSequence(t) && StandingsResolved(body.kind)
    requires CreateStageItem(t, tournament, body, skeletons).error.None?
    ensures Drawn(t, CreateStageItem(t, tournament, body, skeletons).after, t.nextId, DueAtCreation(body, skeletons))
  {
    hide ForeignKeys, IdsBelowSequence, BareItem, ChosenRanking, SkeletonRounds, InputsOfItem, RoundsOfItem,
      MatchesOfItem, SlotsAre, Drawn, Sequenced;
    BareItemIsBare(t, tournament, body);
    BareItemHasInputs(t, tournament, body);
    var bare := BareItem(t, tournament, body);
    if body.gamesPerPlayer.Some? {
      RoundsLaidOut(bare, t.nextId, DueAtCreation(body, skeletons));
    } else {
      NothingDrawn(bare, t.nextId);
    }
    SameStart(t, bare, CreateStageItem(t, tournament, body, skeletons).after, t.nextId, DueAtCreation(body, skeletons));
  }

  /** The matches of these rounds that position `a` plays. */
  function MatchesAt(t: Tables, rounds: set<Id>, a: int): set<Id> {
    set m | m in MatchesOfRounds(t, rounds) && (t.matches[m].slot1 == Some(a) || t.matches[m].slot2 == Some(a))
  }

  /** A position that does not sit out of a drawn round plays one of its matches. */
  lemma DrawnPlays(t: Tables, i: Id, r: Id, round: RoundSkeleton, a: int, x: (int, int))
    requires RoundDrawn(t, i, r, round) && x in round.matches && At2(x, a)
    ensures MatchesAt(t, {r}, a) != {}
  {
    var ids := Ids(MatchesOfRounds(t, {r}));
    var k :| 0 <= k < |round.matches| && round.matches[k] == x;
    assert ids[k] in ids && BetweenPositions(t.matches[ids[k]], r, round.matches[k], round.byeSlot);
    assert ids[k] in MatchesAt(t, {r}, a);
  }

  lemma OneRoundMorePlays(t: Tables, rounds: set<Id>, r: Id, a: int)
    requires r !in rounds
    ensures |MatchesAt(t, rounds + {r}, a)| == |MatchesAt(t, rounds, a)| + |MatchesAt(t, {r}, a)|
  {
    forall m ensures m in MatchesAt(t, rounds + {r}, a) <==> m in MatchesAt(t, rounds, a) + MatchesAt(t, {r}, a) {
      assert m in MatchesOfRounds(t, rounds + {r}) <==> m in MatchesOfRounds(t, rounds) || m in MatchesOfRounds(t, {r});
    }
    assert MatchesAt(t, rounds + {r}, a) == MatchesAt(t, rounds, a) + MatchesAt(t, {r}, a);
    forall m | m in MatchesAt(t, rounds, a) ensures m !in MatchesAt(t, {r}, a) {
      assert m in MatchesOfRounds(t, rounds);
    }
  }

  /** Everybody who does not sit out plays. */
  ghost predicate NobodyIdle(skeleton: seq<RoundSkeleton>, a: int) {
    forall k | 0 <= k < |skeleton| && skeleton[k].byeSlot != Some(a) ::
      exists x :: x in skeleton[k].matches && At2(x, a)
  }

  lemma {:induction false} DrawnGames(t: Tables, i: Id, order: seq<Id>, skeleton: seq<RoundSkeleton>, a: int)
    requires RoundsDrawn(t, i, order, skeleton) && NobodyIdle(skeleton, a)
    requires forall x, y | 0 <= x < y < |order| :: order[x] != order[y]
    ensures |MatchesAt(t, Group(order), a)| >= GamesOf(skeleton, a)
  {
    hide RoundDrawn, MatchesAt;
    if order != [] {
      var n := |order| - 1;
      assert skeleton[..n] + [skeleton[n]] == skeleton && order[..n + 1] == order;
      DrawnGames(t, i, order[..n], skeleton[..n], a);
      GroupOneMore(order, n);
      OneRoundMorePlays(t, Group(order[..n]), order[n], a);
      assert RoundDrawn(t, i, order[n], skeleton[n]);
      if skeleton[n].byeSlot != Some(a) {
        var x :| x in skeleton[n].matches && At2(x, a);
        DrawnPlays(t, i, order[n], skeleton[n], a, x);
        assert |MatchesAt(t, {order[n]}, a)| >= 1;
      }
    }
  }

  lemma NobodyIdleInSwiss(count: TeamCount, games: int, a: int)
    requires 0 <= a < count
    ensures NobodyIdle(SwissSkeleton(count, games), a)
  {
    hide SwissRound, Base;
    forall k | 0 <= k < |SwissSkeleton(count, games)| && SwissSkeleton(count, games)[k].byeSlot != Some(a)
      ensures exists x :: x in SwissSkeleton(count, games)[k].matches && At2(x, a)
    {
      SwissRoundFits(count, k % |Base(count)|, a);
    }
  }

  /** In a new Swiss item, as the program builds it, every position plays in at least as many matches as were asked
      for. */
  lemma NewSwissItemPlaysEnough(t: Tables, tournament: Id, body: NewItemBody, a: int)
    requires ForeignKeys(t) && IdsBelowSequence(t) && body.kind == Swiss && body.gamesPerPlayer.Some?
    requires body.gamesPerPlayer.value >= 0 && 0 <= a < body.teamCount
    requires CreateStageItem(t, tournament, body, PROGRAM).error.None?
    ensures var t' := CreateStageItem(t, tournament, body, PROGRAM).after;
            |MatchesAt(t', NewRounds(t, t'), a)| >= body.gamesPerPlayer.value
  {
    hide ForeignKeys, IdsBelowSequence, CreateStageItem, SwissSkeleton, NewRounds, MatchesAt;
    var t', skeleton := CreateStageItem(t, tournament, body, PROGRAM).after, DueAtCreation(body, PROGRAM);
    CreationDraws(t, tournament, body, PROGRAM);
    assert skeleton == SwissSkeleton(body.teamCount, body.gamesPerPlayer.value);
    NobodyIdleInSwiss(body.teamCount, body.gamesPerPlayer.value, a);
    DrawnGames(t', t.nextId, Ids(NewRounds(t, t')), skeleton, a);
    EnoughGames(body.teamCount, body.gamesPerPlayer.value, a);
    GroupIs(Ids(NewRounds(t, t')), NewRounds(t, t'));
  }

  // ---------------------------------------------------------------- an update

  /** The rounds an update is to lay out: those by which the skeleton for more games is longer. */
  function DueAtUpdate(item: StageItem, body: ItemBody, skeletons: Skeletons): seq<RoundSkeleton> {
    if body.gamesPerPlayer.None? || item.gamesPerPlayer.None? || body.gamesPerPlayer == item.gamesPerPlayer then [] else
      var was := skeletons(item.kind, item.teamCount, item.gamesPerPlayer.value);
      var now := skeletons(item.kind, item.teamCount, body.gamesPerPlayer.value);
      if |now| <= |was| then [] else now[|was|..]
  }

  /** From `s` to `s'` no round changes, and no match that came after `t`. */
  ghost predicate KeepsNew(t: Tables, s: Tables, s': Tables) {
    && s'.rounds == s.rounds && (forall m | m in s'.matches :: m in s.matches)
    && (forall m | m in s'.matches :: s'.matches[m].round == s.matches[m].round)
    && (forall m | m in s.matches && m !in t.matches :: m in s'.matches && s'.matches[m] == s.matches[m])
  }

  /** Matches of `t` are in rounds of `t`. */
  ghost predicate OldInOld(t: Tables, s: Tables) {
    forall m | m in s.matches && m in t.matches :: s.matches[m].round in t.rounds
  }

  lemma StaysDrawn(t: Tables, s: Tables, s': Tables, i: Id, skeleton: seq<RoundSkeleton>)
    requires Drawn(t, s, i, skeleton) && KeepsNew(t, s, s') && OldInOld(t, s)
    ensures Drawn(t, s', i, skeleton)
  {
    hide RoundDrawn;
    assert NewRounds(t, s') == NewRounds(t, s);
    var order := Ids(NewRounds(t, s));
    forall k | 0 <= k < |order| ensures RoundDrawn(s', i, order[k], skeleton[k]) {
      assert order[k] in order;
      NewRoundKept(t, s, s', order[k]);
      RoundStaysDrawn(s, s', i, order[k], skeleton[k]);
    }
  }

  lemma NewRoundKept(t: Tables, s: Tables, s': Tables, r: Id)
    requires KeepsNew(t, s, s') && OldInOld(t, s) && r in NewRounds(t, s)
    ensures RoundKept(s, s', r) && r in s.rounds && s'.rounds[r] == s.rounds[r]
  {
    forall m | m in s.matches && s.matches[m].round == r ensures m !in t.matches {}
  }

  lemma NewHaveNoReferee(t: Tables, s: Tables, i: Id, skeleton: seq<RoundSkeleton>, m: Id)
    requires Drawn(t, s, i, skeleton) && m in s.matches && m !in t.matches
    ensures s.matches[m].referee.None?
  {
    hide BetweenPositions;
    var r := s.matches[m].round;
    assert r in Ids(NewRounds(t, s));
    var k :| 0 <= k < |skeleton| && Ids(NewRounds(t, s))[k] == r;
    assert RoundDrawn(s, i, r, skeleton[k]);
    var ids := Ids(MatchesOfRounds(s, {r}));
    assert m in ids;
    var j :| 0 <= j < |ids| && ids[j] == m;
    DrawnHasNoReferee(s.matches[m], r, skeleton[k].matches[j], skeleton[k].byeSlot);
  }

  lemma DrawnHasNoReferee(row: Match, r: Id, slots: (int, int), bye: Option<int>)
    requires BetweenPositions(row, r, slots, bye)
    ensures row.referee.None?
  {
  }

  lemma GrowthDraws(t: Tables, t1: Tables, i: Id, body: ItemBody, skeletons: Skeletons)
    requires Intact(t1) && i in t.stageItems && StandingsResolved(t.stageItems[i].kind)
    requires t1.rounds.Keys == t.rounds.Keys && t1.matches.Keys == t.matches.Keys
    requires AdjustIfAsked(t1, t, i, body, skeletons).Ok?
    ensures Drawn(t, AdjustIfAsked(t1, t, i, body, skeletons).value, i, DueAtUpdate(t.stageItems[i], body, skeletons))
  {
    hide Intact, SkeletonRounds, RoundsDeleted, AllIdle, TrailingRounds, Drawn, Sequenced;
    var item, due := t.stageItems[i], DueAtUpdate(t.stageItems[i], body, skeletons);
    IntactIsSequenced(t1);
    NothingDrawn(t1, i);
    if body.gamesPerPlayer.Some? && item.gamesPerPlayer.Some? && body.gamesPerPlayer != item.gamesPerPlayer {
      var was := skeletons(item.kind, item.teamCount, item.gamesPerPlayer.value);
      var now := skeletons(item.kind, item.teamCount, body.gamesPerPlayer.value);
      if |now| > |was| {
        IntactRefers(t1);
        RoundsLaidOut(t1, i, due);
      } else if |now| < |was| {
        ReductionDraws(t1, t, i, |now|);
      }
    }
    SameStart(t, t1, AdjustIfAsked(t1, t, i, body, skeletons).value, i, due);
  }

  lemma ReductionDraws(t: Tables, seen: Tables, i: Id, keep: nat)
    requires RoundsDeleted(t, seen, TrailingRounds(seen, i, keep)).Ok?
    ensures Drawn(t, RoundsDeleted(t, seen, TrailingRounds(seen, i, keep)).value, i, [])
  {
    hide RoundsDeleted, TrailingRounds, MatchesOfRounds;
    var t' := RoundsDeleted(t, seen, TrailingRounds(seen, i, keep)).value;
    RoundsDeletedLoses(t, seen, TrailingRounds(seen, i, keep));
    forall r ensures r !in NewRounds(t, t') {
      assert r in t'.rounds.Keys ==> r in t.rounds.Keys;
    }
    EmptyOrHasMember(NewRounds(t, t'));
    assert |Ids(NewRounds(t, t'))| == 0;
  }

  lemma ResizeKeepsNew(t: Tables, s: Tables, tournament: Id, i: Id, count: int, skeleton: seq<RoundSkeleton>)
    requires Midway(t, s, i) && t.stageItems[i].kind != SingleElimination && Drawn(t, s, i, skeleton)
    requires ResizeIfNeeded(s, t, tournament, i, count).Ok?
    ensures KeepsNew(t, s, ResizeIfNeeded(s, t, tournament, i, count).value)
  {
    hide Intact, LosesOnlyIdle, NewAreOpen, Drawn, Carried, CanShrink, RemovedInputs, Resize;
    if count < t.stageItems[i].teamCount {
      var removed := RemovedInputs(t, i, t.stageItems[i].teamCount - count);
      CarriedMidway(t, s, i);
      ShrinkOutcome(s, t, tournament, i, count);
      InvolvedExist(t, i, removed);
      ShrinkKeepsNew(t, s, i, removed, InvolvedMatches(t, i, removed), count, skeleton);
    } else if count > t.stageItems[i].teamCount {
      GrowthKeepsNew(t, s, tournament, i, count);
    }
  }

  lemma InvolvedExist(t: Tables, i: Id, removed: set<Id>)
    ensures InvolvedMatches(t, i, removed) <= t.matches.Keys
  {
    hide Plays;
    forall m | m in InvolvedMatches(t, i, removed) ensures m in t.matches.Keys { assert m in MatchesOfItem(t, i); }
  }

  lemma GrowthKeepsNew(t: Tables, s: Tables, tournament: Id, i: Id, count: int)
    requires i in t.stageItems && count > t.stageItems[i].teamCount && Resize(s, t, tournament, i, count).Ok?
    ensures KeepsNew(t, s, Resize(s, t, tournament, i, count).value)
  {
    hide Appended;
  }

  lemma ShrinkKeepsNew(t: Tables, s: Tables, i: Id, removed: set<Id>, gone: set<Id>, count: int,
    skeleton: seq<RoundSkeleton>)
    requires Drawn(t, s, i, skeleton) && gone <= t.matches.Keys
    ensures KeepsNew(t, s, ShrunkTables(s, i, removed, gone, count))
  {
    hide PositionsCleared, Renumbered, Without, BySlot, Drawn;
    forall m | m in s.matches && m !in t.matches ensures s.matches[m].referee.None? && m !in gone {
      NewHaveNoReferee(t, s, i, skeleton, m);
    }
  }

  /** An update of such an item adds exactly the rounds by which the skeleton for more games is longer, drawn as there;
      where it does not ask for more, none. Whatever else it changes leaves them as drawn. */
  lemma UpdateDraws(t: Tables, tournament: Id, i: Id, body: ItemBody, skeletons: Skeletons)
    requires Intact(t) && Sequenced(t) && UpdateStageItem(t, tournament, i, body, skeletons).Ok?
    requires i in t.stageItems && StandingsResolved(t.stageItems[i].kind)
    ensures Drawn(t, UpdateStageItem(t, tournament, i, body, skeletons).value, i,
                  DueAtUpdate(t.stageItems[i], body, skeletons))
  {
    hide Intact, ResizeForRanking, AdjustIfAsked, ResizeIfNeeded, Drawn, Sequenced, Midway, KeepsNew, OldInOld;
    var due := DueAtUpdate(t.stageItems[i], body, skeletons);
    var t1 := ResizeForRanking(t, tournament, i, body.ranking).value;
    var t2 := AdjustIfAsked(t1, t, i, body, skeletons).value;
    MidwayHolds(t, tournament, i, body, skeletons);
    ResizeForRankingIntact(t, tournament, i, body.ranking);
    ResizeForRankingFrame(t, tournament, i, body.ranking);
    GrowthDraws(t, t1, i, body, skeletons);
    ResizeKeepsNew(t, t2, tournament, i, body.teamCount, due);
    OldStayInOld(t, t2, i);
    StaysDrawn(t, t2, ResizeIfNeeded(t2, t, tournament, i, body.teamCount).value, i, due);
    RowKeepsDrawn(t, ResizeIfNeeded(t2, t, tournament, i, body.teamCount).value, i, body, due);
  }

  lemma OldStayInOld(t: Tables, s: Tables, i: Id)
    requires Midway(t, s, i)
    ensures OldInOld(t, s)
  {
    hide Intact, EmptyInputs, StateOfMatch, MatchesOfItem, NewAreOpen;
    IntactRefers(t);
  }

  lemma RowKeepsDrawn(t: Tables, s: Tables, i: Id, body: ItemBody, skeleton: seq<RoundSkeleton>)
    requires Drawn(t, s, i, skeleton) && UpdateRow(s, i, body).Ok?
    ensures Drawn(t, UpdateRow(s, i, body).value, i, skeleton)
  {
    var s' := UpdateRow(s, i, body).value;
    assert s'.rounds == s.rounds && s'.matches == s.matches;
    hide BetweenPositions, UpdateRow;
    assert NewRounds(t, s') == NewRounds(t, s);
    forall r, round | RoundDrawn(s, i, r, round) ensures RoundDrawn(s', i, r, round) {
      assert MatchesOfRounds(s', {r}) == MatchesOfRounds(s, {r});
    }
    hide RoundDrawn;
  }
}
