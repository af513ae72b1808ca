/** Growing a stage item and shrinking it back: the inputs stand again where they stood, with their teams, and
    no match that was there before has changed. */
module GrowShrink {
  import opened Schema
  import opened Progress
  import opened MatchSets
  import opened SetResize
  import opened Deletion
  import opened StageItemResize
  import opened ItemMatches
  import opened RoundRobin
  import opened Layout
  import opened Elimination
  import opened EliminationResize
  import opened StageItems
  import opened ItemProgress
  import opened ItemLayout
  import opened ItemCompletion

  // ---------------------------------------------------------------- the new inputs are those a shrink takes

  lemma GrownEmpties(t: Tables, tournament: Id, i: Id, n: int, k: nat)
    requires (forall x | x in t.inputs :: x < t.nextId) && (forall x | x in InputsOfItem(t, i) :: t.inputs[x].slot <= n)
    ensures var g := Appended(t, tournament, i, n + 1, k);
            && EmptyInputs(g, i) == EmptyInputs(t, i) + Added(t, g)
            && EmptyInputs(t, i) !! Added(t, g)
            && (forall x | x in Added(t, g) :: x in g.inputs && g.inputs[x].slot > n)
            && (forall x | x in EmptyInputs(t, i) :: x in g.inputs && g.inputs[x].slot <= n)
  {
    AppendedForm(t, tournament, i, n + 1, k);
    hide Appended;
    EmptiesAfter(t, Appended(t, tournament, i, n + 1, k), i);
    forall x | x in EmptyInputs(t, i) ensures t.inputs[x].slot <= n { assert x in InputsOfItem(t, i); }
  }

  lemma EmptiesAfter(t: Tables, g: Tables, i: Id)
    requires forall x | x in t.inputs :: x in g.inputs && g.inputs[x] == t.inputs[x]
    requires forall x | x in Added(t, g) :: g.inputs[x].stageItem == i && IsEmpty(g.inputs[x])
    ensures EmptyInputs(g, i) == EmptyInputs(t, i) + Added(t, g) && EmptyInputs(t, i) !! Added(t, g)
  {
    forall x ensures x in EmptyInputs(g, i) <==> x in EmptyInputs(t, i) + Added(t, g) {
      assert x in g.inputs && x !in t.inputs ==> x in Added(t, g);
    }
  }

  /** The lower part of a set cannot supply its top |added| elements when the rest is all above it. */
  lemma TopIsAdded(low: set<Id>, added: set<Id>, removed: set<Id>, slot: map<Id, int>)
    requires low !! added && removed <= low + added <= slot.Keys && |removed| == |added|
    requires forall x, y | x in removed && y in (low + added) - removed :: slot[y] <= slot[x]
    requires forall x, y | x in low && y in added :: slot[x] < slot[y]
    ensures removed == added
  {
    assert added == (added - removed) + (added * removed) && removed == (removed - added) + (added * removed);
    EmptyOrHasMember(added - removed);
    EmptyOrHasMember(removed - added);
    forall z, y ensures !(z in added - removed && y in removed - added) {
      NotBoth(low, added, removed, slot, z, y);
    }
  }

  lemma NotBoth(low: set<Id>, added: set<Id>, removed: set<Id>, slot: map<Id, int>, z: Id, y: Id)
    requires low !! added && removed <= low + added <= slot.Keys
    requires forall x, y | x in removed && y in (low + added) - removed :: slot[y] <= slot[x]
    requires forall x, y | x in low && y in added :: slot[x] < slot[y]
    ensures !(z in added - removed && y in removed - added)
  {
  }

  /** After growing, the k empty inputs with the highest slots are the k new ones. */
  lemma NewOnesAreRemoved(t: Tables, tournament: Id, i: Id, n: int, k: nat)
    requires (forall x | x in t.inputs :: x < t.nextId) && (forall x | x in InputsOfItem(t, i) :: t.inputs[x].slot <= n)
    ensures var g := Appended(t, tournament, i, n + 1, k);
            k <= |EmptyInputs(g, i)| && RemovedInputs(g, i, k) == Added(t, g)
  {
    var g := Appended(t, tournament, i, n + 1, k);
    var added := Added(t, g);
    GrownEmpties(t, tournament, i, n, k);
    AddedCount(t, tournament, i, n + 1, k);
    var low := EmptyInputs(t, i);
    hide Appended, Added, RemovedInputs, EmptyInputs;
    assert |EmptyInputs(g, i)| == |low| + |added|;
    RemovedFacts(g, i, k);
    TopIsAdded(low, added, RemovedInputs(g, i, k), Slots(g));
  }

  /** Renumbering an item whose slots are 1..n along its own slot order changes nothing. */
  lemma RenumberedSame(t: Tables, i: Id, n: int)
    requires SlotsAre(t, i, n)
    ensures Renumbered(t.inputs, i, BySlot(t, i)) == t.inputs
  {
    BySlotFacts(t, i);
    OrderIsDistinct(BySlot(t, i), Slots(t));
    SlotAtIndex(t, i, n);
    RenumberedForm(t.inputs, i, BySlot(t, i));
    hide SlotsAre, BySlot, Slots, Renumbered;
    var order := BySlot(t, i);
    forall x | x in t.inputs ensures Renumbered(t.inputs, i, order)[x] == t.inputs[x] {
      if x in order { var k :| 0 <= k < |order| && order[k] == x; }
    }
  }

  lemma ClearingNothing(t: Tables, i: Id, n: int)
    requires PositionsWithin(t, i, n)
    ensures PositionsCleared(t.inputs, i, n) == t.inputs
  {
    var cleared := PositionsCleared(t.inputs, i, n);
    assert forall x | x in t.inputs :: cleared[x] == t.inputs[x];
  }

  /** Taking the added inputs away again leaves the old listing. */
  lemma BySlotAgain(t: Tables, g: Tables, i: Id)
    requires forall x | x in t.inputs :: x in g.inputs && g.inputs[x] == t.inputs[x]
    ensures Without(BySlot(g, i), Added(t, g)) == BySlot(t, i)
  {
    var order := Without(BySlot(g, i), Added(t, g));
    BySlotFacts(g, i);
    BySlotFacts(t, i);
    WithoutInOrder(BySlot(g, i), Added(t, g), Slots(g));
    forall x ensures x in order <==> x in BySlot(t, i) {
      assert x in InputsOfItem(g, i) && x !in Added(t, g) <==> x in InputsOfItem(t, i);
    }
    assert InOrder(BySlot(t, i), Slots(g)) by {
      forall a, b | 0 <= a < b < |BySlot(t, i)| ensures Before(Slots(g), BySlot(t, i)[a], BySlot(t, i)[b]) {
        assert Before(Slots(t), BySlot(t, i)[a], BySlot(t, i)[b]);
        assert BySlot(t, i)[a] in BySlot(t, i) && BySlot(t, i)[b] in BySlot(t, i);
      }
    }
    OrderUnique(order, BySlot(t, i), Slots(g));
  }

  /** What is read of a stage item depends on the inputs alone. */
  lemma ReadFromInputs(t: Tables, a: Tables, g: Tables, i: Id, k: nat)
    requires g.inputs == a.inputs && k <= |EmptyInputs(a, i)|
    ensures EmptyInputs(g, i) == EmptyInputs(a, i) && InputsOfItem(g, i) == InputsOfItem(a, i)
    ensures RemovedInputs(g, i, k) == RemovedInputs(a, i, k)
    ensures BySlot(g, i) == BySlot(a, i) && Added(t, g) == Added(t, a)
  {
    assert Slots(g) == Slots(a) && NegatedSlots(g) == NegatedSlots(a);
    assert EmptyInputs(g, i) == EmptyInputs(a, i) && InputsOfItem(g, i) == InputsOfItem(a, i);
    hide Slots, NegatedSlots, EmptyInputs, InputsOfItem, Group;
  }

  lemma AddedTaken(t: Tables, a: Tables)
    requires forall x | x in t.inputs :: x in a.inputs && a.inputs[x] == t.inputs[x]
    ensures a.inputs - Added(t, a) == t.inputs
  {
    var rest := a.inputs - Added(t, a);
    forall x ensures x in rest <==> x in t.inputs {}
    assert forall x | x in t.inputs :: rest[x] == t.inputs[x];
  }

  /** The inputs of `g` are those of `t` and k new ones at the slots above n, appended to item `i`. */
  ghost predicate GrownInputs(t: Tables, g: Tables, tournament: Id, i: Id, n: int, k: nat) {
    g.inputs == Appended(t, tournament, i, n + 1, k).inputs
  }

  /** A shrink by k takes exactly the new inputs, and renumbering what is left changes nothing. */
  lemma TakesTheNewOnes(t: Tables, g: Tables, tournament: Id, i: Id, n: int, k: nat)
    requires (forall x | x in t.inputs :: x < t.nextId) && GrownInputs(t, g, tournament, i, n, k)
    requires SlotsAre(t, i, n) && PositionsWithin(t, i, n)
    ensures k <= |EmptyInputs(g, i)| && RemovedInputs(g, i, k) == Added(t, g)
    ensures forall gone :: ShrunkTables(g, i, Added(t, g), gone, n).inputs == t.inputs
  {
    hide Appended, EmptyInputs, InputsOfItem, RemovedInputs, Added, SlotsAre, PositionsWithin, BySlot, Without,
      Renumbered, PositionsCleared, WithoutReferees;
    var a := Appended(t, tournament, i, n + 1, k);
    SlotsBelow(t, i, n);
    NewOnesAreRemoved(t, tournament, i, n, k);
    ReadFromInputs(t, a, g, i, k);
    AppendedForm(t, tournament, i, n + 1, k);
    GrownOld(t, a, tournament, i, n + 1, k);
    BySlotAgain(t, a, i);
    AddedTaken(t, a);
    RenumberedSame(t, i, n);
    ClearingNothing(t, i, n);
  }

  lemma GrownOld(t: Tables, g: Tables, tournament: Id, i: Id, first: int, k: nat)
    requires GrownBy(t, g, tournament, i, first, k)
    ensures forall x | x in t.inputs :: x in g.inputs && g.inputs[x] == t.inputs[x]
    ensures Added(t, g) <= InputsOfItem(g, i) && forall x | x in Added(t, g) :: t.nextId <= x
  {
    forall x | x in Added(t, g) ensures x in InputsOfItem(g, i) && t.nextId <= x {
      assert x in g.inputs && x !in t.inputs;
    }
  }

  lemma SlotsBelow(t: Tables, i: Id, n: int)
    requires SlotsAre(t, i, n)
    ensures forall x | x in InputsOfItem(t, i) :: x in t.inputs && t.inputs[x].slot <= n
  {
  }

  // ---------------------------------------------------------------- the two requests

  /** The body that changes nothing but the team count. */
  function Recount(item: StageItem, count: TeamCount): ItemBody {
    ItemBody(item.ranking, count, None, item.name)
  }

  /** Before its last step a request that only recounts does nothing but resize. */
  lemma OnlyResizes(t: Tables, tournament: Id, i: Id, count: TeamCount, skeletons: Skeletons)
    requires Intact(t) && BelongsTo(t, tournament, i) && t.stageItems[i].kind != SingleElimination
    requires count != t.stageItems[i].teamCount && Resize(t, t, tournament, i, count).Ok?
    ensures var body, s := Recount(t.stageItems[i], count), Resize(t, t, tournament, i, count).value;
            && UpdateRefused(t, tournament, i, body).None?
            && BeforeComplete(t, tournament, i, body, skeletons)
               == Ok(s.(stageItems := t.stageItems[i := t.stageItems[i].(teamCount := count)]))
  {
    hide Intact, Resize;
    var body := Recount(t.stageItems[i], count);
    ResizeFrame(t, t, tournament, i, count);
    ItemRefers(t, i);
    assert ResizeForRanking(t, tournament, i, body.ranking) == Ok(t);
    assert AdjustIfAsked(t, t, i, body, skeletons) == Ok(t);
    hide ResizeForRanking, AdjustIfAsked;
  }

  lemma ItemRefers(t: Tables, i: Id)
    requires Intact(t) && i in t.stageItems
    ensures t.stageItems[i].ranking in t.rankings && t.stageItems[i].stage in t.stages
    ensures t.stages[t.stageItems[i].stage].tournament in t.tournaments
  {
  }

  /** The database after growing item `i` by k. */
  function Grown(t: Tables, tournament: Id, i: Id, k: nat): Tables
    requires i in t.stageItems
  {
    var n := t.stageItems[i].teamCount;
    Appended(t, tournament, i, n + 1, k).(stageItems := t.stageItems[i := t.stageItems[i].(teamCount := n + k)])
  }

  lemma GrownIntact(t: Tables, tournament: Id, i: Id, k: nat)
    requires Intact(t) && BelongsTo(t, tournament, i)
    ensures Intact(Grown(t, tournament, i, k)) && Sequenced(Grown(t, tournament, i, k)) && Sequenced(t)
  {
    hide Intact, Appended;
    var n := t.stageItems[i].teamCount;
    var a := Appended(t, tournament, i, n + 1, k);
    IntactIsSequenced(t);
    ItemRefers(t, i);
    AppendedIntact(t, tournament, i, n + 1, k);
    CountIntact(a, i, n + k);
    IntactIsSequenced(Grown(t, tournament, i, k));
  }

  lemma CountIntact(t: Tables, i: Id, count: int)
    requires Intact(t) && i in t.stageItems
    ensures Intact(t.(stageItems := t.stageItems[i := t.stageItems[i].(teamCount := count)]))
  {
    hide InputsRefer, RoundsRefer, LevelsRefer, StagesRefer, TeamsRefer, PlayersRefer, MatchSetsRefer,
      MembershipsRefer, CourtsRefer, RankingsRefer, RankingPointsRefer, MatchesRefer, UniqueTeams, UniqueSources, Local,
      MatchesInside;
    var t' := t.(stageItems := t.stageItems[i := t.stageItems[i].(teamCount := count)]);
    assert t'.stageItems.Keys == t.stageItems.Keys;
    GroundLocal(t, t');
    SameInside(t, t');
  }

  /** A request that only recounts. */
  function Recounted(t: Tables, tournament: Id, i: Id, count: TeamCount, skeletons: Skeletons): Result<Tables>
    requires Sequenced(t) && i in t.stageItems
  {
    UpdateStageItem(t, tournament, i, Recount(t.stageItems[i], count), skeletons)
  }

  /** The growing request: k empty inputs, and for a round robin the matches it now lacks. */
  lemma Growing(t: Tables, s: Tables, tournament: Id, i: Id, count: TeamCount, skeletons: Skeletons)
    requires Intact(t) && Sequenced(t) && Sequenced(s) && BelongsTo(t, tournament, i)
    requires t.stageItems[i].kind != SingleElimination && t.stageItems[i].teamCount < count
    requires SlotsAre(t, i, t.stageItems[i].teamCount) && PositionsWithin(t, i, t.stageItems[i].teamCount)
    requires s == Grown(t, tournament, i, count - t.stageItems[i].teamCount)
    ensures var r := Recounted(t, tournament, i, count, skeletons);
            r.Ok? && r == Complete(s, t, i, count) && Extended(s, r.value, i) && Intact(r.value)
  {
    hide Intact, SlotsAre, PositionsWithin, Complete, Appended, Extended, BeforeComplete, Sequenced;
    var n := t.stageItems[i].teamCount;
    var body := Recount(t.stageItems[i], count);
    ItemRefers(t, i);
    assert Resize(t, t, tournament, i, count) == Ok(Appended(t, tournament, i, n + 1, count - n));
    OnlyResizes(t, tournament, i, count, skeletons);
    CompletionNeverFails(t, tournament, i, body, skeletons);
    CompleteExtends(s, t, i, count);
    UpdateKeepsIntact(t, tournament, i, body, skeletons);
  }

  /** No match that was there plays with, or is refereed by, an input added later. */
  lemma AddedUnused(t: Tables, g: Tables, m: Id)
    requires Intact(t) && m in t.matches
    ensures !Plays(t.matches[m], Added(t, g)) && !Names(t.matches[m].referee, Added(t, g))
  {
    hide Intact;
    IntactRefers(t);
    assert MatchRefers(t.matches[m], t.rounds.Keys, t.inputs.Keys, t.matches.Keys, t.courts.Keys);
  }

  /** After growing, nothing blocks the shrink: old matches do not play with the new inputs, new ones have not
      started. */
  lemma NothingBlocks(t: Tables, s: Tables, g: Tables, i: Id)
    requires Intact(t) && s.matches == t.matches && Extended(s, g, i)
    ensures forall m | m in StartedMatches(g, i) :: !Plays(g.matches[m], Added(t, g))
  {
    hide Intact, StateOfMatch, Plays, Added;
    forall m | m in StartedMatches(g, i) ensures !Plays(g.matches[m], Added(t, g)) {
      if m in t.matches {
        AddedUnused(t, g, m);
        assert g.matches[m] == t.matches[m];
      } else {
        NewMatchIsIdle(s, g, i, m);
      }
    }
  }

  /** The database after shrinking back: `t`'s inputs and items, and of the matches those that play with no new
      input. */
  function Back(t: Tables, g: Tables, i: Id, n: int): Tables {
    ShrunkTables(g, i, Added(t, g), InvolvedMatches(g, i, Added(t, g)), n).(stageItems := t.stageItems)
  }

  /** The shrinking request is not refused and takes just the new inputs. */
  lemma Shrinking(t: Tables, g: Tables, tournament: Id, i: Id, k: nat, skeletons: Skeletons)
    requires Intact(t) && Intact(g) && Sequenced(g) && BelongsTo(t, tournament, i) && k > 0
    requires t.stageItems[i].kind != SingleElimination && 2 <= t.stageItems[i].teamCount <= 64
    requires SlotsAre(t, i, t.stageItems[i].teamCount) && PositionsWithin(t, i, t.stageItems[i].teamCount)
    requires Extended(Grown(t, tournament, i, k), g, i)
    ensures var n := t.stageItems[i].teamCount;
            var b := Back(t, g, i, n);
            && b.inputs == t.inputs && Recount(t.stageItems[i], n) == Recount(g.stageItems[i], n)
            && UpdateRefused(g, tournament, i, Recount(t.stageItems[i], n)).None?
            && BeforeComplete(g, tournament, i, Recount(t.stageItems[i], n), skeletons) == Ok(b)
  {
    hide Intact, SlotsAre, PositionsWithin, Appended, BeforeComplete, Sequenced, EmptyInputs, RemovedInputs, Added,
      ShrunkTables, InvolvedMatches, StartedMatches, Plays, Resize;
    var n, s := t.stageItems[i].teamCount, Grown(t, tournament, i, k);
    SequencedParts(t);
    AppendedFrame(t, tournament, i, n + 1, k);
    assert g.inputs == s.inputs && g.stageItems == s.stageItems && g.stages == t.stages && s.matches == t.matches;
    TakesTheNewOnes(t, g, tournament, i, n, k);
    NothingBlocks(t, s, g, i);
    IntactParts(g);
    CarriedAtOnce(g, i);
    ShrinkOutcome(g, g, tournament, i, n);
    OnlyResizes(g, tournament, i, n, skeletons);
    ItemBackAgain(t.stageItems, i, n + k);
  }

  lemma ItemBackAgain(stageItems: map<Id, StageItem>, i: Id, count: int)
    requires i in stageItems
    ensures var grown := stageItems[i := stageItems[i].(teamCount := count)];
            grown[i := grown[i].(teamCount := stageItems[i].teamCount)] == stageItems
  {
  }

  /** Old matches are not involved and keep their referees. */
  lemma OldMatchesStay(t: Tables, s: Tables, g: Tables, i: Id, n: int)
    requires Intact(t) && s.matches == t.matches && s.matchSets == t.matchSets && Extended(s, g, i)
    ensures forall m | m in t.matches ::
              m in Back(t, g, i, n).matches && Back(t, g, i, n).matches[m] == t.matches[m]
              && RowsOf(Back(t, g, i, n), m) == RowsOf(t, m)
  {
    hide Intact, PositionsCleared, Renumbered, BySlot, Without, Added, RowsAre, NumSetsOfItem, MatchesOfItem;
    forall m | m in t.matches
      ensures m in Back(t, g, i, n).matches && Back(t, g, i, n).matches[m] == t.matches[m]
      ensures RowsOf(Back(t, g, i, n), m) == RowsOf(t, m)
    {
      AddedUnused(t, g, m);
    }
  }

  /** Without a top-up nothing is left but the sequence, which has moved on. */
  lemma NothingElse(t: Tables, tournament: Id, i: Id, k: nat)
    requires Intact(t) && BelongsTo(t, tournament, i)
    requires Back(t, Grown(t, tournament, i, k), i, t.stageItems[i].teamCount).inputs == t.inputs
    ensures Back(t, Grown(t, tournament, i, k), i, t.stageItems[i].teamCount) == t.(nextId := t.nextId + k)
  {
    hide Intact, PositionsCleared, Renumbered, BySlot, Without, Added, Appended, WithoutReferees, InvolvedMatches;
    var g, n := Grown(t, tournament, i, k), t.stageItems[i].teamCount;
    AppendedFrame(t, tournament, i, n + 1, k);
    NobodyNew(t, g, i);
    assert t.matchSets - {} == t.matchSets && t.matches - {} == t.matches;
  }

  lemma NobodyNew(t: Tables, g: Tables, i: Id)
    requires Intact(t) && g.matches == t.matches
    ensures InvolvedMatches(g, i, Added(t, g)) == {} && WithoutReferees(t.matches, Added(t, g)) == t.matches
  {
    hide Intact, Added, Plays;
    forall m | m in t.matches ensures !Plays(t.matches[m], Added(t, g)) && !Names(t.matches[m].referee, Added(t, g)) {
      AddedUnused(t, g, m);
    }
    EmptyOrHasMember(InvolvedMatches(g, i, Added(t, g)));
    RefereesAside(t.matches, Added(t, g));
    assert forall m | m in t.matches :: WithoutReferees(t.matches, Added(t, g))[m] == t.matches[m];
  }

  /** Growing an item that is no bracket by k and shrinking it back, as two requests: neither is refused; inputs and
      items are as they were, slots and teams included, and so is every match that was there. Without a top-up, that
      is for every kind but a round robin, the whole database is as it was, up to the sequence. */
  lemma GrowThenShrink(t: Tables, tournament: Id, i: Id, n: TeamCount, more: TeamCount, skeletons: Skeletons)
    requires Intact(t) && Sequenced(t) && SlotsOk(t) && PositionsOk(t) && BelongsTo(t, tournament, i)
    requires t.stageItems[i].kind != SingleElimination && t.stageItems[i].teamCount == n < more
    ensures var grown := Recounted(t, tournament, i, more, skeletons);
            && grown.Ok? && Sequenced(grown.value) && i in grown.value.stageItems
            && var back := Recounted(grown.value, tournament, i, n, skeletons);
               && back.Ok? && back.value.inputs == t.inputs && back.value.stageItems == t.stageItems
               && (forall m | m in t.matches ::
                     && m in back.value.matches && back.value.matches[m] == t.matches[m]
                     && RowsOf(back.value, m) == RowsOf(t, m))
               && (t.stageItems[i].kind != StageKind.RoundRobin ==> back.value == t.(nextId := t.nextId + (more - n)))
  {
    hide Intact, SlotsAre, PositionsWithin, Complete, BeforeComplete, Sequenced, Extended, Back, Grown, Recount;
    var k := more - n;
    GrownIntact(t, tournament, i, k);
    Growing(t, Grown(t, tournament, i, k), tournament, i, more, skeletons);
    var g := Recounted(t, tournament, i, more, skeletons).value;
    IntactIsSequenced(g);
    Shrinking(t, g, tournament, i, k, skeletons);
    GrownFrame(t, tournament, i, k);
    ExtendedFrame(Grown(t, tournament, i, k), g, i);
    BackAgain(t, g, tournament, i, k, skeletons);
  }

  lemma GrownFrame(t: Tables, tournament: Id, i: Id, k: nat)
    requires i in t.stageItems
    ensures var s := Grown(t, tournament, i, k);
            && s == t.(inputs := s.inputs, stageItems := s.stageItems, nextId := t.nextId + k)
            && i in s.stageItems && s.stageItems[i].kind == t.stageItems[i].kind
            && s.stageItems[i].teamCount == t.stageItems[i].teamCount + k
  {
    hide Appended;
    AppendedFrame(t, tournament, i, t.stageItems[i].teamCount + 1, k);
  }

  lemma BackAgain(t: Tables, g: Tables, tournament: Id, i: Id, k: nat, skeletons: Skeletons)
    requires Intact(t) && Intact(g) && Sequenced(g) && BelongsTo(t, tournament, i) && k > 0
    requires t.stageItems[i].kind != SingleElimination && 2 <= t.stageItems[i].teamCount <= 64
    requires SlotsAre(t, i, t.stageItems[i].teamCount)
    requires Extended(Grown(t, tournament, i, k), g, i) && Sequenced(Grown(t, tournament, i, k))
    requires Complete(Grown(t, tournament, i, k), t, i, t.stageItems[i].teamCount + k) == Ok(g)
    requires var n := t.stageItems[i].teamCount;
             var b := Back(t, g, i, n);
             && b.inputs == t.inputs && UpdateRefused(g, tournament, i, Recount(t.stageItems[i], n)).None?
             && BeforeComplete(g, tournament, i, Recount(t.stageItems[i], n), skeletons) == Ok(b)
    ensures var n := t.stageItems[i].teamCount;
            var back := UpdateStageItem(g, tournament, i, Recount(t.stageItems[i], n), skeletons);
            && back.Ok? && back.value.inputs == t.inputs && back.value.stageItems == t.stageItems
            && (forall m | m in t.matches ::
                  && m in back.value.matches && back.value.matches[m] == t.matches[m]
                  && RowsOf(back.value, m) == RowsOf(t, m))
            && (t.stageItems[i].kind != StageKind.RoundRobin ==> back.value == t.(nextId := t.nextId + k))
  {
    hide Intact, SlotsAre, BeforeComplete, Sequenced, Extended, Back, Grown, AddMissing, InputsOfItem, BuildBracket;
    var n := t.stageItems[i].teamCount;
    var b, s := Back(t, g, i, n), Grown(t, tournament, i, k);
    GrownFrame(t, tournament, i, k);
    OldMatchesStay(t, s, g, i, n);
    BeforeCompleteFrame(g, tournament, i, Recount(t.stageItems[i], n), skeletons);
    SequencedMeans(b);
    ExtendedFrame(s, g, i);
    SlotsFrame(t, b, i, n);
    InputsCounted(b, i, n);
    if t.stageItems[i].kind == StageKind.RoundRobin {
      AddMissingExtends(b, i, n);
      ExtendedFrame(b, AddMissing(b, i, n), i);
    } else {
      NothingElse(t, tournament, i, k);
    }
    BackItems(t, g, i, n);
  }

  lemma SequencedMeans(t: Tables)
    requires Sequenced(t)
    ensures (forall r | r in t.rounds :: r < t.nextId) && forall m | m in t.matches :: m < t.nextId
  {
  }

  lemma BackItems(t: Tables, g: Tables, i: Id, n: int)
    ensures Back(t, g, i, n).stageItems == t.stageItems
  {
    hide ShrunkTables;
  }

  lemma ExtendedFrame(t: Tables, t': Tables, i: Id)
    requires Extended(t, t', i)
    ensures t' == t.(rounds := t'.rounds, matches := t'.matches, matchSets := t'.matchSets, nextId := t'.nextId)
    ensures forall m | m in t.matches ::
              m in t'.matches && t'.matches[m] == t.matches[m] && RowsOf(t', m) == RowsOf(t, m)
  {
  }
}
