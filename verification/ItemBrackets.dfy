/** The bracket of an item, read back from the database after a creation or a change of its team count. */
module ItemBrackets {
  import opened Schema
  import opened MatchSets
  import opened Deletion
  import opened StageItemResize
  import opened ItemMatches
  import opened RoundRobin
  import opened Layout
  import opened Elimination
  import opened StageItems
  import opened ItemLayout
  import opened ItemCompletion

  // ---------------------------------------------------------------- what a bracket is

  /** Match c of the first round plays the inputs at slots 2c + 1 and 2c + 2 and waits for nobody. */
  predicate OpensAt(t: Tables, first: Id, rounds: seq<Id>, inputs: seq<Id>, c: int) {
    && 0 <= 2 * c && 2 * c + 1 < |inputs| && rounds != [] && first + c in t.matches
    && var row := t.matches[first + c];
       && row.round == rounds[0] && row.input1 == Some(inputs[2 * c]) && row.input2 == Some(inputs[2 * c + 1])
       && row.winnerFrom1.None? && row.winnerFrom2.None?
  }

  /** Match c, past the first w, plays the winners of two matches of the round before its own. */
  predicate FollowsAt(t: Tables, first: Id, rounds: seq<Id>, w: int, c: int) {
    var a, b := first + 2 * (c - w), first + 2 * (c - w) + 1;
    && first + c in t.matches && a in t.matches && b in t.matches && t.matches[a].round == t.matches[b].round
    && var row := t.matches[first + c];
       && row.input1.None? && row.input2.None? && row.winnerFrom1 == Some(a) && row.winnerFrom2 == Some(b)
       && exists k :: 0 < k < |rounds| && row.round == rounds[k] && t.matches[a].round == rounds[k - 1]
  }

  /** The item's matches are a bracket over its inputs: numbered from `first` on, half as many as inputs that open, then
      match after match between the winners of the next two, round by round down to the final, in active rounds. */
  ghost predicate BracketStands(t: Tables, i: Id, first: Id) {
    var inputs, rounds := BySlot(t, i), Ids(RoundsOfItem(t, i));
    var w := |inputs| / 2;
    && |inputs| == Pow2(|rounds|) && rounds != []
    && (forall r | r in RoundsOfItem(t, i) :: r in t.rounds && t.rounds[r].lifecycle == Lifecycle.Active)
    && (forall m :: m in MatchesOfItem(t, i) <==> first <= m < first + 2 * w - 1)
    && (forall c | 0 <= c < w :: OpensAt(t, first, rounds, inputs, c))
    && (forall c | w <= c < 2 * w - 1 :: FollowsAt(t, first, rounds, w, c))
  }

  // ---------------------------------------------------------------- the builder

  lemma RowOpens(t: Tables, t': Tables, inputs: seq<Id>, rounds: seq<Id>, c: int)
    requires BracketOver(t, t', inputs, rounds) && |inputs| % 2 == 0 && 0 <= c < |inputs| / 2
    ensures OpensAt(t', t.nextId, rounds, inputs, c)
  {
    var m := t.nextId + c;
    RowAt(t, t', inputs, rounds, c);
    assert Depth(|inputs| / 2, m - t.nextId) == 0;
    assert t'.matches[m] == NewMatch(rounds[0], inputs[2 * (m - t.nextId)], inputs[2 * (m - t.nextId) + 1]);
  }

  lemma RowAt(t: Tables, t': Tables, inputs: seq<Id>, rounds: seq<Id>, c: int)
    requires BracketOver(t, t', inputs, rounds) && 0 <= c < 2 * (|inputs| / 2) - 1
    ensures t.nextId + c in t'.matches
    ensures InRound(rounds, Depth(|inputs| / 2, c), t'.matches[t.nextId + c].round)
  {
    assert t.nextId <= t.nextId + c < t.nextId + 2 * (|inputs| / 2) - 1;
  }

  lemma RowFollows(t: Tables, t': Tables, inputs: seq<Id>, rounds: seq<Id>, c: int)
    requires BracketOver(t, t', inputs, rounds) && Halves(|inputs| / 2) && |inputs| / 2 <= c < 2 * (|inputs| / 2) - 1
    ensures FollowsAt(t', t.nextId, rounds, |inputs| / 2, c)
  {
    hide BracketOver, Depth, Halves;
    var w := |inputs| / 2;
    DepthFollows(w, c);
    RowAt(t, t', inputs, rounds, c);
    RowAt(t, t', inputs, rounds, 2 * (c - w));
    RowAt(t, t', inputs, rounds, 2 * (c - w) + 1);
    TreeRowAt(t, t', inputs, rounds, c);
  }

  lemma TreeRowAt(t: Tables, t': Tables, inputs: seq<Id>, rounds: seq<Id>, c: int)
    requires BracketOver(t, t', inputs, rounds) && |inputs| / 2 <= c < 2 * (|inputs| / 2) - 1
    ensures t.nextId + c in t'.matches
    ensures var row, a := t'.matches[t.nextId + c], t.nextId + 2 * (c - |inputs| / 2);
            row.input1.None? && row.input2.None? && row.winnerFrom1 == Some(a) && row.winnerFrom2 == Some(a + 1)
  {
    assert t.nextId + |inputs| / 2 <= t.nextId + c < t.nextId + 2 * (|inputs| / 2) - 1;
    hide Depth;
  }

  lemma {:induction false} PowersHalve(r: nat)
    ensures Halves(Pow2(r))
  {
    if r > 0 { PowersHalve(r - 1); }
  }

  lemma OnlyNewInItem(t: Tables, t': Tables, i: Id, inputs: seq<Id>, rounds: seq<Id>)
    requires BracketOver(t, t', inputs, rounds) && MatchesOfItem(t, i) == {}
    requires forall r | r in rounds :: r in t.rounds && t.rounds[r].stageItem == i
    requires (forall m | m in t.matches :: m < t.nextId)
    ensures forall m :: m in MatchesOfItem(t', i) <==> t.nextId <= m < t.nextId + 2 * (|inputs| / 2) - 1
  {
    forall m ensures m in MatchesOfItem(t', i) <==> t.nextId <= m < t.nextId + 2 * (|inputs| / 2) - 1 {
      if t.nextId <= m < t.nextId + 2 * (|inputs| / 2) - 1 {
        RowAt(t, t', inputs, rounds, m - t.nextId);
        InSomeRound(rounds, Depth(|inputs| / 2, m - t.nextId), t'.matches[m].round);
      } else if m in t.matches {
        assert m !in MatchesOfItem(t, i);
      }
    }
  }

  /** What the builder leaves is a bracket. */
  lemma BuiltStands(t: Tables, i: Id, count: int)
    requires RoundsOfItem(t, i) == {} && MatchesOfItem(t, i) == {} && count >= 1 && |InputsOfItem(t, i)| == count
    requires (forall m | m in t.matches :: m < t.nextId) && forall r | r in t.rounds :: r < t.nextId
    requires forall m | m in t.matches :: t.matches[m].round in t.rounds
    requires BuildBracket(t, i, count).Ok?
    ensures var t' := BuildBracket(t, i, count).value;
            && BySlot(t', i) == BySlot(t, i) && |BySlot(t, i)| == count
            && exists first :: BracketStands(t', i, first)
  {
    hide BracketOver, BySlot, BuildBracket, WithRounds, InputsOfItem, Depth, OpensAt, FollowsAt, Pow2, Halves,
      RoundsOfItem, MatchesOfItem;
    BuildBracketForm(t, i, count);
    SizesArePowers(count);
    var k := BracketRounds(count).value;
    hide BracketRounds;
    var t1, t' := WithRounds(t, i, k), BuildBracket(t, i, count).value;
    var inputs, rounds := BySlot(t, i), Ids(RoundsOfItem(t1, i));
    WithRoundsForm(t, i, k);
    OverFrame(t1, t', inputs, rounds);
    SameInputsSameSlots(t, t', i);
    SameRoundsOfItem(t1, t', i);
    NewAreActive(t, t', i, k);
    PowersHalve(k);
    NoMatchesYet(t, t1, i);
    OnlyNewInItem(t1, t', i, inputs, rounds);
    HalfOfPower(k);
    RowsStand(t1, t', inputs, rounds);
    assert BracketStands(t', i, t1.nextId);
  }

  lemma RowsStand(t: Tables, t': Tables, inputs: seq<Id>, rounds: seq<Id>)
    requires BracketOver(t, t', inputs, rounds) && |inputs| % 2 == 0 && Halves(|inputs| / 2)
    ensures var w := |inputs| / 2;
            && (forall c | 0 <= c < w :: OpensAt(t', t.nextId, rounds, inputs, c))
            && (forall c | w <= c < 2 * w - 1 :: FollowsAt(t', t.nextId, rounds, w, c))
  {
    hide BracketOver, Halves, OpensAt, FollowsAt;
    var w := |inputs| / 2;
    forall c | 0 <= c < w ensures OpensAt(t', t.nextId, rounds, inputs, c) { RowOpens(t, t', inputs, rounds, c); }
    forall c | w <= c < 2 * w - 1 ensures FollowsAt(t', t.nextId, rounds, w, c) {
      RowFollows(t, t', inputs, rounds, c);
    }
  }

  lemma OverFrame(t: Tables, t': Tables, inputs: seq<Id>, rounds: seq<Id>)
    requires BracketOver(t, t', inputs, rounds)
    ensures t' == t.(matches := t'.matches, matchSets := t'.matchSets, nextId := t'.nextId)
  {
  }

  lemma SameRoundsOfItem(t: Tables, t': Tables, i: Id)
    requires t'.rounds == t.rounds
    ensures RoundsOfItem(t', i) == RoundsOfItem(t, i)
    ensures forall r | r in Ids(RoundsOfItem(t, i)) :: r in t.rounds && t.rounds[r].stageItem == i
  {
  }

  lemma NewAreActive(t: Tables, t': Tables, i: Id, k: nat)
    requires RoundsOfItem(t, i) == {} && t'.rounds == WithRounds(t, i, k).rounds
    ensures forall r | r in RoundsOfItem(t', i) :: r in t'.rounds && t'.rounds[r].lifecycle == Lifecycle.Active
  {
    NewRoundsActive(t, i, k);
    hide WithRounds;
    forall r | r in RoundsOfItem(t', i) ensures r in t'.rounds && t'.rounds[r].lifecycle == Lifecycle.Active {
      if r in t.rounds {
        OldRound(t, i, k, r);
        RoundElsewhere(t, i, r);
      }
    }
  }

  lemma RoundElsewhere(t: Tables, i: Id, r: Id)
    requires RoundsOfItem(t, i) == {} && r in t.rounds
    ensures t.rounds[r].stageItem != i
  {
    assert r !in RoundsOfItem(t, i);
  }

  lemma {:induction false} OldRound(t: Tables, i: Id, k: nat, r: Id)
    requires r in t.rounds
    ensures r in WithRounds(t, i, k).rounds
    ensures WithRounds(t, i, k).rounds[r] == t.rounds[r] || WithRounds(t, i, k).rounds[r] == Round(i, Lifecycle.Active)
  {
    if k > 0 { OldRound(t, i, k - 1, r); }
  }

  lemma HalfOfPower(k: nat)
    requires k > 0
    ensures Pow2(k) % 2 == 0 && Halves(Pow2(k) / 2)
  {
    PowersHalve(k - 1);
  }

  lemma NoMatchesYet(t: Tables, t1: Tables, i: Id)
    requires MatchesOfItem(t, i) == {} && t1.matches == t.matches
    requires forall m | m in t.matches :: t.matches[m].round in t.rounds
    requires forall r | r in t.rounds :: r in t1.rounds && t1.rounds[r] == t.rounds[r]
    ensures MatchesOfItem(t1, i) == {}
  {
    forall m ensures m !in MatchesOfItem(t1, i) { assert m !in MatchesOfItem(t, i); }
  }

  // ---------------------------------------------------------------- creations and updates

  /** A new bracket is one, over all its inputs. */
  lemma CreatedBracketStands(t: Tables, tournament: Id, body: NewItemBody, skeletons: Skeletons)
    requires ForeignKeys(t) && IdsBelowSequence(t) && body.kind == SingleElimination
    requires CreateStageItem(t, tournament, body, skeletons).error.None?
    ensures var t' := CreateStageItem(t, tournament, body, skeletons).after;
            |BySlot(t', t.nextId)| == body.teamCount && exists first :: BracketStands(t', t.nextId, first)
  {
    hide BuildBracket, SlotsAre, ChosenRanking, ForeignKeys, IdsBelowSequence, BareItem, InputsOfItem, BracketStands,
      RoundsOfItem, MatchesOfItem, BySlot;
    BareItemIsBare(t, tournament, body);
    BareItemHasInputs(t, tournament, body);
    BuiltStands(BareItem(t, tournament, body), t.nextId, body.teamCount);
  }

  /** A resized bracket is one again, over as many inputs as the update asked for. */
  lemma UpdatedBracketStands(t: Tables, tournament: Id, i: Id, body: ItemBody, skeletons: Skeletons)
    requires Intact(t) && Sequenced(t) && SlotsOk(t) && PositionsOk(t)
    requires UpdateStageItem(t, tournament, i, body, skeletons).Ok?
    requires t.stageItems[i].kind == SingleElimination && body.teamCount != t.stageItems[i].teamCount
    ensures var t' := UpdateStageItem(t, tournament, i, body, skeletons).value;
            |BySlot(t', i)| == body.teamCount && exists first :: BracketStands(t', i, first)
  {
    hide Intact, BeforeComplete, BuildBracket, SlotsAre, PositionsWithin, InputsOfItem, Sequenced, RoundsOfItem,
      MatchesOfItem, BySlot, BracketStands, OthersKept, TracksLess, LosesOnlyIdle, LostInputs, StaysInOrder;
    var t4 := BeforeComplete(t, tournament, i, body, skeletons).value;
    BeforeCompleteFrame(t, tournament, i, body, skeletons);
    BeforeCompleteReslots(t, tournament, i, body, skeletons);
    BeforeCompleteIntact(t, tournament, i, body, skeletons);
    IntactRefers(t4);
    InputsCounted(t4, i, body.teamCount);
    CompletionReady(t, tournament, i, body, skeletons);
    BuiltStands(t4, i, body.teamCount);
  }
}
