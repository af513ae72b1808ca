/** Changing the team count of a stage item that is not an elimination bracket: growing appends empty
    slots; shrinking removes empty slots from the back together with the matches that have not started,
    renumbers the slots that stay, and forgets positions that no longer exist. `seen` is the database as
    the request read it before its first write. */
module StageItemResize {
  import opened Schema
  import opened Progress
  import opened MatchSets
  import opened SetResize
  import opened Deletion
  import opened Cascades

  // ---------------------------------------------------------------- reading

  function Slots(t: Tables): map<Id, int> {
    map x | x in t.inputs :: t.inputs[x].slot
  }

  function NegatedSlots(t: Tables): map<Id, int> {
    map x | x in t.inputs :: -t.inputs[x].slot
  }

  predicate IsEmpty(input: Input) {
    input.team.None? && input.winnerFrom.None? && input.winnerPosition.None?
  }

  function EmptyInputs(t: Tables, i: Id): set<Id> {
    set x | x in t.inputs && t.inputs[x].stageItem == i && IsEmpty(t.inputs[x])
  }

  /** The item's inputs ordered by slot. */
  function BySlot(t: Tables, i: Id): seq<Id> {
    SortedBy(InputsOfItem(t, i), Slots(t))
  }

  /** The item's empty inputs, highest slot first. */
  function EmptyFromBack(t: Tables, i: Id): seq<Id> {
    SortedBy(EmptyInputs(t, i), NegatedSlots(t))
  }

  function Without(order: seq<Id>, gone: set<Id>): (rest: seq<Id>)
    ensures forall x :: x in rest <==> x in order && x !in gone
    ensures |rest| <= |order|
  {
    if order == [] then [] else
      var rest := Without(order[1..], gone);
      assert order == [order[0]] + order[1..];
      if order[0] in gone then rest else [order[0]] + rest
  }

  predicate PlaysIn(m: Match, x: Id) {
    m.input1 == Some(x) || m.input2 == Some(x)
  }

  /** Matches of the item that play with a removed input, and among them those that block. */
  function InvolvedMatches(t: Tables, i: Id, removed: set<Id>): set<Id> {
    set m | m in MatchesOfItem(t, i) && Plays(t.matches[m], removed)
  }

  function StartedMatches(t: Tables, i: Id): set<Id> {
    set m | m in MatchesOfItem(t, i) && StateOfMatch(t, m) != NotStarted
  }

  /** Slots of removed inputs that a started match among `ids` plays with. */
  function BlockingAmong(t: Tables, ids: set<Id>, removed: set<Id>): set<int> {
    set x, m | m in ids && m in t.matches && StateOfMatch(t, m) != NotStarted
               && x in removed && x in t.inputs && PlaysIn(t.matches[m], x) :: t.inputs[x].slot
  }

  function BlockingSlots(t: Tables, i: Id, removed: set<Id>): set<int> {
    BlockingAmong(t, MatchesOfItem(t, i), removed)
  }

  predicate IsRemovable(t: Tables, m: Id, removed: set<Id>) {
    m in t.matches && Plays(t.matches[m], removed) && StateOfMatch(t, m) == NotStarted
  }

  /** The matches of `order` that a shrink may delete, in that order. */
  function RemovableAmong(t: Tables, order: seq<Id>, removed: set<Id>): (list: seq<Id>)
    ensures forall m :: m in list <==> m in order && IsRemovable(t, m, removed)
  {
    if order == [] then [] else
      var n := |order| - 1;
      assert order == order[..n] + [order[n]];
      RemovableAmong(t, order[..n], removed) + if IsRemovable(t, order[n], removed) then [order[n]] else []
  }

  function MatchesOfRounds(t: Tables, rounds: set<Id>): set<Id> {
    set m | m in t.matches && t.matches[m].round in rounds
  }

  /** The same over the matches of a list of rounds, round by round. */
  function RemovableIn(t: Tables, rounds: seq<Id>, removed: set<Id>): (list: seq<Id>)
    ensures forall m :: m in list <==> m in MatchesOfRounds(t, Group(rounds)) && IsRemovable(t, m, removed)
  {
    if rounds == [] then [] else
      var n := |rounds| - 1;
      assert rounds == rounds[..n] + [rounds[n]];
      RemovableIn(t, rounds[..n], removed) + RemovableAmong(t, Ids(MatchesOfRounds(t, {rounds[n]})), removed)
  }

  function RemovableMatches(t: Tables, i: Id, removed: set<Id>): seq<Id> {
    RemovableIn(t, Ids(RoundsOfItem(t, i)), removed)
  }

  // ---------------------------------------------------------------- writing

  function NewInput(tournament: Id, i: Id, slot: int): Input {
    Input(tournament, i, slot, None, None, None, NO_STATS)
  }

  /** k empty inputs appended at the slots from `first` on. */
  function Appended(t: Tables, tournament: Id, i: Id, first: int, k: nat): (t': Tables)
    ensures t' == t.(inputs := t'.inputs, nextId := t'.nextId)
  {
    if k == 0 then t else
      var t1 := Appended(t, tournament, i, first, k - 1);
      t1.(inputs := t1.inputs[t1.nextId := NewInput(tournament, i, first + k - 1)], nextId := t1.nextId + 1)
  }

  /** UPDATE ... SET slot for the ids of `order`, numbered from 1. */
  function Renumbered(inputs: map<Id, Input>, i: Id, order: seq<Id>): map<Id, Input> {
    if order == [] then inputs else
      var done := Renumbered(inputs, i, order[..|order| - 1]);
      var x := order[|order| - 1];
      if x in done && done[x].stageItem == i then done[x := done[x].(slot := |order|)] else done
  }

  function PositionsCleared(inputs: map<Id, Input>, i: Id, count: int): map<Id, Input> {
    map x | x in inputs ::
      if inputs[x].winnerFrom == Some(i) && inputs[x].winnerPosition.Some? && inputs[x].winnerPosition.value > count
      then inputs[x].(team := None, winnerFrom := None, winnerPosition := None) else inputs[x]
  }

  /** Deleting matches one statement at a time. */
  function DeletedOneByOne(t: Tables, ids: seq<Id>): Result<Tables> {
    if ids == [] then Ok(t) else
      match DeletedOneByOne(t, ids[..|ids| - 1])
      case Err(e) => Err(e)
      case Ok(s) => DeleteMatches(s, {ids[|ids| - 1]})
  }

  function Shrunk(t: Tables, seen: Tables, i: Id, removed: set<Id>, count: int): Result<Tables> {
    match DeletedOneByOne(t, RemovableMatches(seen, i, removed))
    case Err(e) => Err(e)
    case Ok(t1) =>
      match DeleteInputs(t1, InputsOfItem(t1, i) * removed)
      case Err(e) => Err(e)
      case Ok(t2) =>
        Ok(t2.(inputs := PositionsCleared(Renumbered(t2.inputs, i, Without(BySlot(seen, i), removed)), i, count)))
  }

  function RemovedInputs(seen: Tables, i: Id, count: nat): set<Id> {
    Group(EmptyFromBack(seen, i)[..Min(count, |EmptyFromBack(seen, i)|)])
  }

  function Resize(t: Tables, seen: Tables, tournament: Id, i: Id, count: int): Result<Tables>
    requires i in seen.stageItems
  {
    var was := seen.stageItems[i].teamCount;
    if count > was then
      if tournament !in t.tournaments || i !in t.stageItems then Err(ForeignKeyViolation)
      else Ok(Appended(t, tournament, i, was + 1, count - was))
    else if |EmptyInputs(seen, i)| < was - count then Err(Http(400))
    else
      var removed := RemovedInputs(seen, i, was - count);
      if BlockingSlots(seen, i, removed) != {} then Err(Http(400))
      else Shrunk(t, seen, i, removed, count)
  }

  // ---------------------------------------------------------------- slots

  /** The slots of item `i` are exactly 1..n, each used once. */
  ghost predicate SlotsAre(t: Tables, i: Id, n: int) {
    var mine := InputsOfItem(t, i);
    && |mine| == n
    && (forall x | x in mine :: 1 <= t.inputs[x].slot <= n)
    && (forall x, y | x in mine && y in mine && x != y :: t.inputs[x].slot != t.inputs[y].slot)
  }

  lemma {:induction false} IncreasingFrom(f: seq<int>, low: int)
    requires forall i, j | 0 <= i < j < |f| :: f[i] < f[j]
    requires forall i | 0 <= i < |f| :: low <= f[i]
    ensures forall i | 0 <= i < |f| :: low + i <= f[i]
  {
    if f != [] {
      var rest := f[1..];
      forall i | 0 <= i < |rest| ensures low + 1 <= rest[i] { assert f[0] < f[i + 1]; }
      IncreasingFrom(rest, low + 1);
      forall i | 0 <= i < |f| ensures low + i <= f[i] { if i > 0 { assert rest[i - 1] == f[i]; } }
    }
  }

  /** Strictly increasing numbers that fill 1..n are 1, 2, ..., n. */
  lemma {:induction false} FillsRange(f: seq<int>)
    requires forall i, j | 0 <= i < j < |f| :: f[i] < f[j]
    requires forall i | 0 <= i < |f| :: 1 <= f[i] <= |f|
    ensures forall i | 0 <= i < |f| :: f[i] == i + 1
  {
    IncreasingFrom(f, 1);
    var n := |f|;
    var mirrored := seq(n, i requires 0 <= i < n => n + 1 - f[n - 1 - i]);
    IncreasingFrom(mirrored, 1);
    forall i | 0 <= i < n ensures f[i] == i + 1 { assert mirrored[n - 1 - i] == n + 1 - f[i]; }
  }

  /** In slot order, the input at index k has slot k + 1. */
  lemma SlotAtIndex(t: Tables, i: Id, n: int)
    requires SlotsAre(t, i, n)
    ensures |BySlot(t, i)| == n
    ensures forall k | 0 <= k < n :: BySlot(t, i)[k] in t.inputs && t.inputs[BySlot(t, i)[k]].slot == k + 1
  {
    BySlotFacts(t, i);
    BySlotCounts(t, i);
    SlotsAlong(t, i, n, BySlot(t, i));
  }

  lemma BySlotFacts(t: Tables, i: Id)
    ensures InOrder(BySlot(t, i), Slots(t)) && forall x :: x in BySlot(t, i) <==> x in InputsOfItem(t, i)
  {
  }

  lemma BySlotCounts(t: Tables, i: Id)
    ensures |BySlot(t, i)| == |InputsOfItem(t, i)|
  {
  }

  lemma SlotsAlong(t: Tables, i: Id, n: int, order: seq<Id>)
    requires SlotsAre(t, i, n) && |order| == n && InOrder(order, Slots(t)) && forall x :: x in order <==>
              x in InputsOfItem(t, i)
    ensures forall k | 0 <= k < n :: order[k] in t.inputs && t.inputs[order[k]].slot == k + 1
  {
    forall k | 0 <= k < n ensures order[k] in InputsOfItem(t, i) && 1 <= t.inputs[order[k]].slot <= n {
      var x := order[k];
      assert x in order && x in InputsOfItem(t, i);
    }
    forall a, b | 0 <= a < b < n ensures t.inputs[order[a]].slot < t.inputs[order[b]].slot {
      assert Before(Slots(t), order[a], order[b]) && order[a] in InputsOfItem(t, i) && order[b] in InputsOfItem(t, i);
    }
    assert forall k | 0 <= k < n :: order[k] in t.inputs;
    hide SlotsAre, InputsOfItem, Slots;
    var f := seq(n, k requires 0 <= k < n => t.inputs[order[k]].slot);
    FillsRange(f);
    forall k | 0 <= k < n ensures order[k] in t.inputs && t.inputs[order[k]].slot == k + 1 { assert f[k] == k + 1; }
  }

  // ---------------------------------------------------------------- growing

  /** The ids an append has added. */
  function Added(t: Tables, g: Tables): set<Id> {
    g.inputs.Keys - t.inputs.Keys
  }

  /** `g` is `t` with k more inputs: empty ones of item `i`, at slots first..first + k - 1. */
  ghost predicate GrownBy(t: Tables, g: Tables, tournament: Id, i: Id, first: int, k: nat) {
    && g.nextId == t.nextId + k && |g.inputs| == |t.inputs| + k
    && (forall x | x in t.inputs :: x in g.inputs && g.inputs[x] == t.inputs[x])
    && (forall x | x in g.inputs && x !in t.inputs ::
          t.nextId <= x < g.nextId && first <= g.inputs[x].slot < first + k
          && g.inputs[x] == NewInput(tournament, i, g.inputs[x].slot))
  }

  lemma GrownOnce(t: Tables, s: Tables, g: Tables, tournament: Id, i: Id, first: int, k: nat)
    requires GrownBy(t, s, tournament, i, first, k) && forall x | x in t.inputs :: x < t.nextId
    requires g.inputs == s.inputs[s.nextId := NewInput(tournament, i, first + k)] && g.nextId == s.nextId + 1
    ensures GrownBy(t, g, tournament, i, first, k + 1)
  {
    hide NewInput;
    assert s.nextId !in s.inputs;
    NewInputSlot(tournament, i, first + k);
    forall x | x in g.inputs && x !in t.inputs
      ensures t.nextId <= x < g.nextId && first <= g.inputs[x].slot < first + k + 1
      ensures g.inputs[x] == NewInput(tournament, i, g.inputs[x].slot)
    {
      assert x == s.nextId || x in s.inputs;
    }
  }

  lemma NewInputSlot(tournament: Id, i: Id, slot: int)
    ensures NewInput(tournament, i, slot).slot == slot
  {
  }

  lemma GrownByNothing(t: Tables, tournament: Id, i: Id, first: int)
    ensures GrownBy(t, t, tournament, i, first, 0)
  {
  }

  lemma AppendedStep(t: Tables, tournament: Id, i: Id, first: int, k: nat)
    requires k > 0
    ensures var s, g := Appended(t, tournament, i, first, k - 1), Appended(t, tournament, i, first, k);
            g.inputs == s.inputs[s.nextId := NewInput(tournament, i, first + k - 1)] && g.nextId == s.nextId + 1
  {
    hide NewInput;
  }

  lemma {:induction false} AppendedForm(t: Tables, tournament: Id, i: Id, first: int, k: nat)
    requires forall x | x in t.inputs :: x < t.nextId
    ensures GrownBy(t, Appended(t, tournament, i, first, k), tournament, i, first, k)
  {
    hide GrownBy, NewInput;
    if k == 0 {
      GrownByNothing(t, tournament, i, first);
    } else {
      AppendedForm(t, tournament, i, first, k - 1);
      AppendedStep(t, tournament, i, first, k);
      hide Appended;
      var less := Appended(t, tournament, i, first, k - 1);
      GrownOnce(t, less, Appended(t, tournament, i, first, k), tournament, i, first, k - 1);
    }
  }

  lemma DifferenceCounts(a: set<Id>, b: set<Id>)
    requires a <= b
    ensures |b - a| == |b| - |a|
  {
    assert b == a + (b - a);
  }

  lemma KeysCount(inputs: map<Id, Input>)
    ensures |inputs.Keys| == |inputs|
  {
  }

  lemma AddedCount(t: Tables, tournament: Id, i: Id, first: int, k: nat)
    requires forall x | x in t.inputs :: x < t.nextId
    ensures |Added(t, Appended(t, tournament, i, first, k))| == k
  {
    hide Appended, NewInput;
    AppendedForm(t, tournament, i, first, k);
    var g := Appended(t, tournament, i, first, k);
    forall x | x in t.inputs.Keys ensures x in g.inputs.Keys { assert x in t.inputs; }
    DifferenceCounts(t.inputs.Keys, g.inputs.Keys);
    KeysCount(t.inputs);
    KeysCount(g.inputs);
  }

  lemma OneMoreSlot(t: Tables, t': Tables, i: Id, n: int, x: Id, row: Input)
    requires SlotsAre(t, i, n) && x !in t.inputs && t'.inputs == t.inputs[x := row]
    requires row.stageItem == i && row.slot == n + 1
    ensures SlotsAre(t', i, n + 1)
  {
    assert InputsOfItem(t', i) == InputsOfItem(t, i) + {x};
  }

  /** Growing fills the slots after the old ones. */
  lemma {:induction false} AppendedSlots(t: Tables, tournament: Id, i: Id, n: int, k: nat)
    requires SlotsAre(t, i, n) && forall x | x in t.inputs :: x < t.nextId
    ensures SlotsAre(Appended(t, tournament, i, n + 1, k), i, n + k)
  {
    hide SlotsAre;
    if k > 0 {
      AppendedSlots(t, tournament, i, n, k - 1);
      AppendedNext(t, tournament, i, n + 1, k);
      hide Appended;
      var t1 := Appended(t, tournament, i, n + 1, k - 1);
      OneMoreSlot(t1, Appended(t, tournament, i, n + 1, k), i, n + k - 1, t1.nextId, NewInput(tournament, i, n + k));
    }
  }

  lemma AppendedNext(t: Tables, tournament: Id, i: Id, first: int, k: nat)
    requires k > 0 && forall x | x in t.inputs :: x < t.nextId
    ensures var t1 := Appended(t, tournament, i, first, k - 1);
            && t1.nextId !in t1.inputs
            && Appended(t, tournament, i, first, k).inputs
               == t1.inputs[t1.nextId := NewInput(tournament, i, first + k - 1)]
  {
    hide NewInput, Appended, GrownBy;
    AppendedForm(t, tournament, i, first, k - 1);
    AppendedStep(t, tournament, i, first, k);
    GrownIsBelow(t, Appended(t, tournament, i, first, k - 1), tournament, i, first, k - 1);
  }

  lemma GrownIsBelow(t: Tables, g: Tables, tournament: Id, i: Id, first: int, k: nat)
    requires GrownBy(t, g, tournament, i, first, k) && forall x | x in t.inputs :: x < t.nextId
    ensures g.nextId !in g.inputs && forall x | x in g.inputs :: x < g.nextId
  {
  }

  // ---------------------------------------------------------------- renumbering

  lemma {:induction false} WithoutInOrder(order: seq<Id>, gone: set<Id>, key: map<Id, int>)
    requires InOrder(order, key)
    ensures InOrder(Without(order, gone), key)
  {
    if order != [] {
      var rest := order[1..];
      TailInOrder(order, key);
      WithoutInOrder(rest, gone, key);
      hide InOrder;
      InFront(order[0], Without(rest, gone), key);
    }
  }

  lemma TailInOrder(order: seq<Id>, key: map<Id, int>)
    requires InOrder(order, key) && order != []
    ensures InOrder(order[1..], key) && order[0] in key
    ensures forall x | x in order[1..] :: x in key && Before(key, order[0], x)
  {
    assert order[0] in order && forall x | x in order[1..] :: x in order;
    forall x | x in order[1..] ensures Before(key, order[0], x) {
      var k :| 0 <= k < |order[1..]| && order[1..][k] == x;
      assert order[k + 1] == x;
    }
  }

  lemma InFront(first: Id, rest: seq<Id>, key: map<Id, int>)
    requires first in key && InOrder(rest, key) && forall x | x in rest :: x in key && Before(key, first, x)
    ensures InOrder([first] + rest, key)
  {
    var all := [first] + rest;
    forall a, b | 0 <= a < b < |all| ensures Before(key, all[a], all[b]) {
      assert all[b] == rest[b - 1] && rest[b - 1] in rest;
    }
  }

  lemma {:induction false} RenumberedForm(inputs: map<Id, Input>, i: Id, order: seq<Id>)
    requires forall a, b | 0 <= a < b < |order| :: order[a] != order[b]
    requires forall x | x in order :: x in inputs && inputs[x].stageItem == i
    ensures var after := Renumbered(inputs, i, order);
            && after.Keys == inputs.Keys
            && (forall k | 0 <= k < |order| ::
                  order[k] in inputs && after[order[k]] == inputs[order[k]].(slot := k + 1))
            && (forall x | x in inputs && x !in order :: after[x] == inputs[x])
  {
    if order != [] {
      var n, after := |order| - 1, Renumbered(inputs, i, order);
      RenumberedForm(inputs, i, order[..n]);
      RenumberedLast(inputs, i, order);
      hide Renumbered;
      forall x | x in inputs && x !in order ensures after[x] == inputs[x] { assert x !in order[..n]; }
      forall k | 0 <= k < n ensures after[order[k]] == inputs[order[k]].(slot := k + 1) {
        assert order[..n][k] == order[k];
      }
    }
  }

  lemma RenumberedLast(inputs: map<Id, Input>, i: Id, order: seq<Id>)
    requires order != [] && order[|order| - 1] in inputs && inputs[order[|order| - 1]].stageItem == i
    requires order[|order| - 1] !in order[..|order| - 1]
    requires var done := Renumbered(inputs, i, order[..|order| - 1]);
             done.Keys == inputs.Keys && done[order[|order| - 1]] == inputs[order[|order| - 1]]
    ensures var done, x := Renumbered(inputs, i, order[..|order| - 1]), order[|order| - 1];
            && Renumbered(inputs, i, order) == done[x := inputs[x].(slot := |order|)]
            && done[x := inputs[x].(slot := |order|)].Keys == inputs.Keys
  {
  }

  /** Numbering all inputs of an item along a listing makes its slots 1..n in the listing's order. */
  lemma RenumberedSlots(t: Tables, i: Id, order: seq<Id>)
    requires forall a, b | 0 <= a < b < |order| :: order[a] != order[b]
    requires forall x :: x in order <==> x in InputsOfItem(t, i)
    ensures SlotsAre(t.(inputs := Renumbered(t.inputs, i, order)), i, |order|)
  {
    RenumberedForm(t.inputs, i, order);
    DistinctCount(order);
    hide Renumbered;
    var t' := t.(inputs := Renumbered(t.inputs, i, order));
    RenumberedInputs(t, t', i, order);
    hide InputsOfItem, Group;
    forall x | x in InputsOfItem(t', i) ensures exists k | 0 <= k < |order| ::
        order[k] == x && t'.inputs[x].slot == k + 1 {
      assert x in order;
      var k :| 0 <= k < |order| && order[k] == x;
    }
  }

  lemma RenumberedInputs(t: Tables, t': Tables, i: Id, order: seq<Id>)
    requires forall x :: x in order <==> x in InputsOfItem(t, i)
    requires t'.inputs.Keys == t.inputs.Keys && forall x | x in t.inputs && x !in order ::
              x in t'.inputs && t'.inputs[x] == t.inputs[x]
    requires forall k | 0 <= k < |order| ::
              order[k] in t.inputs && order[k] in t'.inputs && t'.inputs[order[k]] == t.inputs[order[k]].(slot := k + 1)
    ensures InputsOfItem(t', i) == Group(order) && forall x :: x in order <==> x in InputsOfItem(t', i)
  {
    forall x ensures x in InputsOfItem(t', i) <==> x in order {
      assert x in InputsOfItem(t, i) <==> x in order;
      if x in order { var k :| 0 <= k < |order| && order[k] == x; }
    }
    GroupIs(order, InputsOfItem(t', i));
  }

  lemma {:induction false} DistinctCount(order: seq<Id>)
    requires forall a, b | 0 <= a < b < |order| :: order[a] != order[b]
    ensures |Group(order)| == |order|
  {
    if order == [] {
      assert Group(order) == {};
    } else {
      var n := |order| - 1;
      DistinctCount(order[..n]);
      assert order == order[..n] + [order[n]];
      assert Group(order) == Group(order[..n]) + {order[n]};
    }
  }

  // ---------------------------------------------------------------- shrinking

  /** What a shrink may rely on in the middle of a request: the inputs are still those the request read, only
      matches that item `i` had then play with them, as they did then, and none of these feeds a match. */
  ghost predicate Carried(seen: Tables, t: Tables, i: Id) {
    && t.inputs == seen.inputs
    && (forall m | m in t.matches && Plays(t.matches[m], InputsOfItem(seen, i)) ::
          && m in MatchesOfItem(seen, i)
          && t.matches[m].input1 == seen.matches[m].input1 && t.matches[m].input2 == seen.matches[m].input2)
    && (forall m | m in t.matches :: !Feeds(t.matches[m], MatchesOfItem(seen, i)))
  }

  /** The tables without the inputs `removed` of item `i` and without the matches `gone`. */
  function ShrunkTables(t: Tables, i: Id, removed: set<Id>, gone: set<Id>, count: int): Tables {
    t.(matches := WithoutReferees(t.matches - gone, removed), matchSets := t.matchSets - gone,
       inputs := PositionsCleared(Renumbered(t.inputs - removed, i, Without(BySlot(t, i), removed)), i, count))
  }

  lemma {:induction false} OneByOneForm(t: Tables, ids: seq<Id>, all: set<Id>)
    requires Group(ids) <= all && forall m | m in t.matches :: !Feeds(t.matches[m], all)
    ensures DeletedOneByOne(t, ids) == Ok(t.(matches := t.matches - Group(ids), matchSets := t.matchSets - Group(ids)))
  {
    if ids == [] {
      assert t.matches - Group([]) == t.matches && t.matchSets - Group([]) == t.matchSets;
    } else {
      var n := |ids| - 1;
      assert ids == ids[..n] + [ids[n]] && ids[n] in Group(ids);
      assert Group(ids) == Group(ids[..n]) + {ids[n]};
      OneByOneForm(t, ids[..n], all);
      var s := DeletedOneByOne(t, ids[..n]).value;
      forall m | m in s.matches ensures !Feeds(s.matches[m], {ids[n]}) { assert !Feeds(t.matches[m], all); }
      hide Group;
      assert s.matches - {ids[n]} == t.matches - Group(ids);
      assert s.matchSets - {ids[n]} == t.matchSets - Group(ids);
    }
  }

  /** Once the involved matches are gone nobody plays with a removed input. */
  lemma NotInvolved(seen: Tables, t: Tables, i: Id, removed: set<Id>)
    requires removed <= InputsOfItem(seen, i) && Carried(seen, t, i)
    ensures !PlayedIn(t.matches - InvolvedMatches(seen, i, removed), removed)
  {
    forall m | m in t.matches && Plays(t.matches[m], removed) ensures m in InvolvedMatches(seen, i, removed) {
      assert Plays(t.matches[m], InputsOfItem(seen, i));
    }
  }

  /** When nothing blocks, the removable matches are all that play with a removed input. */
  lemma RemovableIsInvolved(t: Tables, i: Id, removed: set<Id>)
    requires forall m | m in StartedMatches(t, i) :: !Plays(t.matches[m], removed)
    ensures Group(RemovableMatches(t, i, removed)) == InvolvedMatches(t, i, removed)
  {
    var list := RemovableMatches(t, i, removed);
    forall m ensures m in MatchesOfRounds(t, Group(Ids(RoundsOfItem(t, i)))) <==> m in MatchesOfItem(t, i) {}
    hide MatchesOfRounds;
    forall m ensures m in list <==> m in InvolvedMatches(t, i, removed) {
      assert m in MatchesOfItem(t, i) ==> (m in StartedMatches(t, i) <==> StateOfMatch(t, m) != NotStarted);
    }
  }

  lemma SameInputsSameSlots(t: Tables, t1: Tables, i: Id)
    requires t1.inputs == t.inputs
    ensures BySlot(t1, i) == BySlot(t, i) && InputsOfItem(t1, i) == InputsOfItem(t, i)
  {
    assert InputsOfItem(t1, i) == InputsOfItem(t, i) && Slots(t1) == Slots(t);
  }

  lemma ShrunkForm(t: Tables, seen: Tables, i: Id, removed: set<Id>, count: int)
    requires removed <= InputsOfItem(seen, i) && Carried(seen, t, i)
    requires forall m | m in StartedMatches(seen, i) :: !Plays(seen.matches[m], removed)
    ensures Shrunk(t, seen, i, removed, count)
         == Ok(ShrunkTables(t, i, removed, InvolvedMatches(seen, i, removed), count))
  {
    hide RemovableMatches, StartedMatches, InputsOfItem, MatchesOfItem, PositionsCleared, Renumbered, Without,
      BySlot, WithoutReferees, DeletedOneByOne, Group, PlayedIn, InvolvedMatches;
    var gone := InvolvedMatches(seen, i, removed);
    RemovableIsInvolved(seen, i, removed);
    InvolvedBelong(seen, i, removed);
    OneByOneForm(t, RemovableMatches(seen, i, removed), MatchesOfItem(seen, i));
    var t1 := t.(matches := t.matches - gone, matchSets := t.matchSets - gone);
    SameInputsSameSlots(seen, t1, i);
    SameInputsSameSlots(seen, t, i);
    assert InputsOfItem(t1, i) * removed == removed;
    NotInvolved(seen, t, i, removed);
  }

  lemma InvolvedBelong(t: Tables, i: Id, removed: set<Id>)
    ensures InvolvedMatches(t, i, removed) <= MatchesOfItem(t, i)
  {
  }

  /** What the request removes: the k empty inputs with the highest slots. */
  lemma RemovedFacts(t: Tables, i: Id, k: nat)
    requires k <= |EmptyInputs(t, i)|
    ensures var removed := RemovedInputs(t, i, k);
            && |removed| == k && removed <= EmptyInputs(t, i) <= InputsOfItem(t, i)
            && forall x, y | x in removed && y in EmptyInputs(t, i) - removed :: t.inputs[y].slot <= t.inputs[x].slot
  {
    var order, removed := EmptyFromBack(t, i), RemovedInputs(t, i, k);
    assert removed == Group(order[..k]);
    DistinctCount(order[..k]);
    assert removed <= EmptyInputs(t, i) by {
      forall x | x in removed ensures x in EmptyInputs(t, i) { assert x in order; }
    }
    forall x, y | x in removed && y in EmptyInputs(t, i) - removed ensures t.inputs[y].slot <= t.inputs[x].slot {
      LaterInOrder(order, k, NegatedSlots(t), x, y);
    }
  }

  lemma LaterInOrder(order: seq<Id>, k: nat, key: map<Id, int>, x: Id, y: Id)
    requires InOrder(order, key) && k <= |order| && x in order[..k] && y in order && y !in order[..k]
    ensures x in key && y in key && key[x] <= key[y]
  {
    var a :| 0 <= a < k && order[a] == x;
    var b :| 0 <= b < |order| && order[b] == y;
    assert order[b] in order[b..];
    assert order == order[..k] + order[k..];
    assert Before(key, order[a], order[b]);
  }

  /** A shrink to fewer inputs is possible: enough are empty, and no started match plays with one that goes. */
  ghost predicate CanShrink(seen: Tables, i: Id, k: nat) {
    && k <= |EmptyInputs(seen, i)|
    && forall m | m in StartedMatches(seen, i) :: !Plays(seen.matches[m], RemovedInputs(seen, i, k))
  }

  /** A shrink in the middle of a request is refused exactly when too few slots were empty or a started match
      played with one that would go; otherwise the result is as described. */
  lemma ShrinkOutcome(t: Tables, seen: Tables, tournament: Id, i: Id, count: int)
    requires i in seen.stageItems && count <= seen.stageItems[i].teamCount && Carried(seen, t, i)
    ensures var r, k := Resize(t, seen, tournament, i, count), seen.stageItems[i].teamCount - count;
            && (r.Ok? <==> CanShrink(seen, i, k))
            && (r.Ok? ==> r.value == ShrunkTables(t, i, RemovedInputs(seen, i, k),
                                                  InvolvedMatches(seen, i, RemovedInputs(seen, i, k)), count))
            && (r.Err? ==> r.error == Http(400))
  {
    hide Shrunk, ShrunkTables, RemovedInputs, BlockingSlots, StartedMatches, EmptyInputs, InputsOfItem, Plays, Carried;
    var k := seen.stageItems[i].teamCount - count;
    if k <= |EmptyInputs(seen, i)| {
      var removed := RemovedInputs(seen, i, k);
      RemovedFacts(seen, i, k);
      Blocking(seen, i, removed);
      if BlockingSlots(seen, i, removed) == {} { ShrunkForm(t, seen, i, removed, count); }
    }
  }

  lemma Blocking(t: Tables, i: Id, removed: set<Id>)
    requires removed <= InputsOfItem(t, i)
    ensures BlockingSlots(t, i, removed) == {} <==>
              forall m | m in StartedMatches(t, i) :: !Plays(t.matches[m], removed)
  {
    var blocking := BlockingSlots(t, i, removed);
    forall m | m in StartedMatches(t, i) && Plays(t.matches[m], removed) ensures blocking != {} {
      var x := if Names(t.matches[m].input1, removed) then t.matches[m].input1.value else t.matches[m].input2.value;
      assert PlaysIn(t.matches[m], x) && x in removed && x in InputsOfItem(t, i);
      assert t.inputs[x].slot in blocking;
    }
    EmptyOrHasMember(blocking);
  }

  lemma {:induction false} OrderIsDistinct(order: seq<Id>, key: map<Id, int>)
    requires InOrder(order, key)
    ensures forall a, b | 0 <= a < b < |order| :: order[a] != order[b]
  {
    forall a, b | 0 <= a < b < |order| ensures order[a] != order[b] { assert Before(key, order[a], order[b]); }
  }

  lemma ClearingKeepsSlots(t: Tables, i: Id, count: int, j: Id, n: int)
    requires SlotsAre(t, j, n)
    ensures SlotsAre(t.(inputs := PositionsCleared(t.inputs, i, count)), j, n)
  {
    assert InputsOfItem(t.(inputs := PositionsCleared(t.inputs, i, count)), j) == InputsOfItem(t, j);
  }

  lemma SlotsFrame(t: Tables, t': Tables, i: Id, n: int)
    requires t'.inputs == t.inputs && SlotsAre(t, i, n)
    ensures SlotsAre(t', i, n)
  {
    assert InputsOfItem(t', i) == InputsOfItem(t, i);
  }

  /** The inputs that stay, in slot order. */
  lemma Remaining(t: Tables, i: Id, removed: set<Id>)
    requires removed <= InputsOfItem(t, i)
    ensures var order := Without(BySlot(t, i), removed);
            && InOrder(order, Slots(t))
            && (forall a, b | 0 <= a < b < |order| :: order[a] != order[b])
            && (forall x :: x in order <==> x in InputsOfItem(t, i) - removed)
            && |order| == |InputsOfItem(t, i)| - |removed|
  {
    BySlotFacts(t, i);
    hide BySlot, InputsOfItem, Slots, Group;
    var order := Without(BySlot(t, i), removed);
    WithoutInOrder(BySlot(t, i), removed, Slots(t));
    OrderIsDistinct(order, Slots(t));
    GroupIs(order, InputsOfItem(t, i) - removed);
    DistinctCount(order);
    assert InputsOfItem(t, i) == (InputsOfItem(t, i) - removed) + removed;
  }

  lemma IndexOrder(order: seq<Id>, key: map<Id, int>, a: nat, b: nat)
    requires InOrder(order, key) && a < |order| && b < |order|
    requires order[a] in key && order[b] in key && key[order[a]] < key[order[b]]
    ensures a < b
  {
  }

  /** After a shrink the slots are again 1..count, and the surviving inputs stand in their old order. */
  lemma ShrinkSlots(t: Tables, i: Id, removed: set<Id>, gone: set<Id>, count: int)
    requires removed <= InputsOfItem(t, i) && count == |InputsOfItem(t, i)| - |removed|
    ensures SlotsAre(ShrunkTables(t, i, removed, gone, count), i, count)
    ensures forall x, y | x in InputsOfItem(t, i) - removed && y in InputsOfItem(t, i) - removed ::
              var t' := ShrunkTables(t, i, removed, gone, count);
              && x in t'.inputs && y in t'.inputs
              && (t.inputs[x].slot < t.inputs[y].slot ==> t'.inputs[x].slot < t'.inputs[y].slot)
  {
    hide SlotsAre, ShrunkTables, InputsOfItem;
    CutInputs(t, i, removed);
    ShrinkFillsSlots(t, i, removed, gone, count);
    forall x, y | x in InputsOfItem(t, i) - removed && y in InputsOfItem(t, i) - removed
      ensures var t' := ShrunkTables(t, i, removed, gone, count);
              && x in t'.inputs && y in t'.inputs
              && (t.inputs[x].slot < t.inputs[y].slot ==> t'.inputs[x].slot < t'.inputs[y].slot)
    {
      ShrinkInOrder(t, i, removed, gone, count, x, y);
    }
  }

  /** Cutting inputs and renumbering the rest along their slot order. */
  function Recut(t: Tables, i: Id, removed: set<Id>): Tables {
    t.(inputs := Renumbered(t.inputs - removed, i, Without(BySlot(t, i), removed)))
  }

  lemma RecutFillsSlots(t: Tables, i: Id, removed: set<Id>, count: int)
    requires removed <= InputsOfItem(t, i) && count == |InputsOfItem(t, i)| - |removed|
    ensures SlotsAre(Recut(t, i, removed), i, count)
  {
    hide SlotsAre, BySlot, InputsOfItem, Without, Renumbered, Slots;
    var order := Without(BySlot(t, i), removed);
    var cut := t.(inputs := t.inputs - removed);
    Remaining(t, i, removed);
    CutInputs(t, i, removed);
    RenumberedSlots(cut, i, order);
    SlotsFrame(cut.(inputs := Renumbered(cut.inputs, i, order)), Recut(t, i, removed), i, count);
  }

  lemma ShrinkFillsSlots(t: Tables, i: Id, removed: set<Id>, gone: set<Id>, count: int)
    requires removed <= InputsOfItem(t, i) && count == |InputsOfItem(t, i)| - |removed|
    ensures SlotsAre(ShrunkTables(t, i, removed, gone, count), i, count)
  {
    hide SlotsAre, BySlot, PositionsCleared, WithoutReferees, InputsOfItem, Without, Renumbered, Slots;
    var recut := Recut(t, i, removed);
    RecutFillsSlots(t, i, removed, count);
    ClearingKeepsSlots(recut, i, count, i, count);
    SlotsFrame(recut.(inputs := PositionsCleared(recut.inputs, i, count)),
               ShrunkTables(t, i, removed, gone, count), i, count);
  }

  lemma ShrinkInOrder(t: Tables, i: Id, removed: set<Id>, gone: set<Id>, count: int, x: Id, y: Id)
    requires removed <= InputsOfItem(t, i) && x in InputsOfItem(t, i) - removed && y in InputsOfItem(t, i) - removed
    ensures var t' := ShrunkTables(t, i, removed, gone, count);
            && x in t'.inputs && y in t'.inputs
            && (t.inputs[x].slot < t.inputs[y].slot ==> t'.inputs[x].slot < t'.inputs[y].slot)
  {
    hide BySlot, PositionsCleared, WithoutReferees, InputsOfItem, Without, Renumbered, Slots;
    RecutInOrder(t, i, removed, x, y);
    ClearingKeepsEachSlot(Recut(t, i, removed).inputs, i, count);
  }

  lemma RecutInOrder(t: Tables, i: Id, removed: set<Id>, x: Id, y: Id)
    requires removed <= InputsOfItem(t, i) && x in InputsOfItem(t, i) - removed && y in InputsOfItem(t, i) - removed
    ensures var t' := Recut(t, i, removed);
            && x in t'.inputs && y in t'.inputs && x in t.inputs && y in t.inputs
            && (t.inputs[x].slot < t.inputs[y].slot ==> t'.inputs[x].slot < t'.inputs[y].slot)
  {
    hide BySlot, InputsOfItem, Without, Renumbered, Slots;
    var order := Without(BySlot(t, i), removed);
    Remaining(t, i, removed);
    CutInputs(t, i, removed);
    assert x in order && y in order;
    RenumberedForm(t.inputs - removed, i, order);
    RenumberedInOrder(t, t.inputs - removed, i, order, x, y);
  }

  lemma CutInputs(t: Tables, i: Id, removed: set<Id>)
    ensures InputsOfItem(t.(inputs := t.inputs - removed), i) == InputsOfItem(t, i) - removed
    ensures forall x | x in InputsOfItem(t, i) - removed ::
              x in t.inputs && x in t.inputs - removed && (t.inputs - removed)[x].stageItem == i
  {
  }

  lemma ClearingKeepsEachSlot(inputs: map<Id, Input>, i: Id, count: int)
    ensures PositionsCleared(inputs, i, count).Keys == inputs.Keys
    ensures forall x | x in inputs :: PositionsCleared(inputs, i, count)[x].slot == inputs[x].slot
  {
  }

  lemma RenumberedInOrder(t: Tables, inputs: map<Id, Input>, i: Id, order: seq<Id>, x: Id, y: Id)
    requires InOrder(order, Slots(t)) && x in order && y in order && forall z | z in inputs :: z in t.inputs
    requires var after := Renumbered(inputs, i, order);
             && after.Keys == inputs.Keys
             && forall k | 0 <= k < |order| :: order[k] in inputs && after[order[k]].slot == k + 1
    ensures x in t.inputs && y in t.inputs && x in inputs && y in inputs
    ensures var after := Renumbered(inputs, i, order);
            t.inputs[x].slot < t.inputs[y].slot ==> after[x].slot < after[y].slot
  {
    var a :| 0 <= a < |order| && order[a] == x;
    var b :| 0 <= b < |order| && order[b] == y;
    hide Renumbered;
    if t.inputs[x].slot < t.inputs[y].slot { IndexOrder(order, Slots(t), a, b); }
  }

  /** Rows survive a recut up to their slot, and only slots of the item itself change. */
  lemma RecutRows(t: Tables, i: Id, removed: set<Id>)
    requires removed <= InputsOfItem(t, i)
    ensures var t' := Recut(t, i, removed);
            && t'.inputs.Keys == t.inputs.Keys - removed
            && (forall x | x in t'.inputs :: t'.inputs[x] == t.inputs[x].(slot := t'.inputs[x].slot))
            && (forall x | x in t'.inputs && t.inputs[x].stageItem != i :: t'.inputs[x] == t.inputs[x])
  {
    hide BySlot, Without, Renumbered, Slots, InputsOfItem;
    var order := Without(BySlot(t, i), removed);
    Remaining(t, i, removed);
    CutInputs(t, i, removed);
    RenumberedForm(t.inputs - removed, i, order);
    RenumberedRows(t.inputs - removed, Renumbered(t.inputs - removed, i, order), i, order);
  }

  lemma RenumberedRows(before: map<Id, Input>, after: map<Id, Input>, i: Id, order: seq<Id>)
    requires after.Keys == before.Keys && forall x | x in order :: x in before && before[x].stageItem == i
    requires forall k | 0 <= k < |order| ::
               order[k] in before && order[k] in after && after[order[k]] == before[order[k]].(slot := k + 1)
    requires forall x | x in before && x !in order :: after[x] == before[x]
    ensures forall x | x in before :: after[x] == before[x].(slot := after[x].slot)
    ensures forall x | x in before && before[x].stageItem != i :: after[x] == before[x]
  {
    forall x | x in before ensures after[x] == before[x].(slot := after[x].slot) {
      if x in order { var k :| 0 <= k < |order| && order[k] == x; }
    }
  }

  /** No input tracks a position the item does not have. */
  ghost predicate PositionsWithin(t: Tables, i: Id, count: int) {
    forall x | x in t.inputs && t.inputs[x].winnerFrom == Some(i) && t.inputs[x].winnerPosition.Some? ::
      t.inputs[x].winnerPosition.value <= count
  }

  lemma ClearedPositions(t: Tables, i: Id, count: int)
    ensures PositionsWithin(t.(inputs := PositionsCleared(t.inputs, i, count)), i, count)
  {
  }

  // ---------------------------------------------------------------- what a step may lose

  /** From `t` to `t'`, in the middle of a request on item `i` that read `seen`: lost are only inputs of the item
      that were empty and matches of the item that had not started. A match that stays is the same up to its
      progress and its referee, a round that stays is the same, and what is new has a new id. */
  ghost predicate LosesOnlyIdle(seen: Tables, t: Tables, t': Tables, i: Id) {
    && t.nextId <= t'.nextId
    && (forall x | x in t.inputs && x !in t'.inputs :: x in EmptyInputs(seen, i))
    && (forall x | x in t'.inputs && x !in t.inputs :: t.nextId <= x)
    && (forall m | m in t.matches && m !in t'.matches ::
          m in MatchesOfItem(seen, i) && StateOfMatch(seen, m) == NotStarted)
    && (forall m | m in t'.matches && m !in t.matches :: t.nextId <= m)
    && (forall m | m in t.matches && m in t'.matches ::
          t'.matches[m] == t.matches[m].(referee := t'.matches[m].referee, progress := t'.matches[m].progress))
    && (forall r | r in t'.rounds && r !in t.rounds :: t.nextId <= r)
    && (forall r | r in t.rounds && r in t'.rounds :: t'.rounds[r] == t.rounds[r])
  }

  lemma LosesOnlyIdleTwice(seen: Tables, t: Tables, s: Tables, t': Tables, i: Id)
    requires LosesOnlyIdle(seen, t, s, i) && LosesOnlyIdle(seen, s, t', i)
    requires (forall m | m in t.matches :: m < t.nextId) && (forall x | x in t.inputs :: x < t.nextId)
    requires forall r | r in t.rounds :: r < t.nextId
    ensures LosesOnlyIdle(seen, t, t', i)
  {
    hide EmptyInputs, MatchesOfItem, StateOfMatch;
  }

  /** A shrink loses only the empty inputs it takes and matches that had not started and played with them. */
  lemma ShrinkLosesOnlyIdle(t: Tables, seen: Tables, i: Id, removed: set<Id>, count: int)
    requires removed <= EmptyInputs(seen, i) && Carried(seen, t, i)
    requires forall m | m in StartedMatches(seen, i) :: !Plays(seen.matches[m], removed)
    ensures var t' := ShrunkTables(t, i, removed, InvolvedMatches(seen, i, removed), count);
            && LosesOnlyIdle(seen, t, t', i) && PositionsWithin(t', i, count)
            && t'.inputs.Keys == t.inputs.Keys - removed
  {
    hide BySlot, Without, Renumbered, PositionsCleared, PositionsWithin, EmptyInputs, WithoutReferees, InputsOfItem,
      InvolvedMatches, StartedMatches, MatchesOfItem, StateOfMatch, Plays;
    var gone := InvolvedMatches(seen, i, removed);
    EmptiesBelong(seen, i);
    SameInputsSameSlots(seen, t, i);
    RecutRows(t, i, removed);
    ClearingKeepsEachSlot(Recut(t, i, removed).inputs, i, count);
    ClearedPositions(Recut(t, i, removed), i, count);
    PositionsFrame(Recut(t, i, removed).(inputs := PositionsCleared(Recut(t, i, removed).inputs, i, count)),
                   ShrunkTables(t, i, removed, gone, count), i, count);
    RefereesAside(t.matches - gone, removed);
    InvolvedAreIdle(seen, i, removed);
  }

  lemma PositionsFrame(t: Tables, t': Tables, i: Id, count: int)
    requires t'.inputs == t.inputs && PositionsWithin(t, i, count)
    ensures PositionsWithin(t', i, count)
  {
  }

  lemma RefereesAside(matches: map<Id, Match>, ids: set<Id>)
    ensures var after := WithoutReferees(matches, ids);
            && after.Keys == matches.Keys
            && forall m | m in matches :: after[m] == matches[m].(referee := after[m].referee)
  {
  }

  lemma InvolvedAreIdle(seen: Tables, i: Id, removed: set<Id>)
    requires forall m | m in StartedMatches(seen, i) :: !Plays(seen.matches[m], removed)
    ensures forall m | m in InvolvedMatches(seen, i, removed) ::
              m in MatchesOfItem(seen, i) && m in seen.matches && StateOfMatch(seen, m) == NotStarted
  {
    hide StateOfMatch, Plays;
    forall m | m in InvolvedMatches(seen, i, removed) ensures m !in StartedMatches(seen, i) {}
  }

  lemma EmptiesBelong(t: Tables, i: Id)
    ensures EmptyInputs(t, i) <= InputsOfItem(t, i)
  {
  }

  // ---------------------------------------------------------------- the program

  lemma BlockingUnion(t: Tables, a: set<Id>, b: set<Id>, removed: set<Id>)
    ensures BlockingAmong(t, a + b, removed) == BlockingAmong(t, a, removed) + BlockingAmong(t, b, removed)
  {
    hide StateOfMatch;
  }

  function SlotsInvolved(t: Tables, m: Match, removed: set<Id>): set<int> {
    set x | x in removed && x in t.inputs && PlaysIn(m, x) :: t.inputs[x].slot
  }

  lemma BlockingOfOne(t: Tables, m: Id, removed: set<Id>)
    requires m in t.matches
    ensures BlockingAmong(t, {m}, removed)
         == if StateOfMatch(t, m) == NotStarted then {} else SlotsInvolved(t, t.matches[m], removed)
    ensures !Plays(t.matches[m], removed) ==> BlockingAmong(t, {m}, removed) == {}
  {
    hide StateOfMatch;
  }

  /** The inner loop: one round's matches. */
  method ConsiderMatches(seen: Tables, order: seq<Id>, removed: set<Id>) returns (removable: seq<Id>,
    blocking: set<int>)
    requires forall m | m in order :: m in seen.matches
    ensures removable == RemovableAmong(seen, order, removed)
    ensures blocking == BlockingAmong(seen, Group(order), removed)
  {
    hide BlockingAmong, SlotsInvolved, StateOfMatch;
    removable, blocking := [], {};
    assert BlockingAmong(seen, Group([]), removed) == {} by { BlockingOfNone(seen, removed); }
    for k := 0 to |order|
      invariant removable == RemovableAmong(seen, order[..k], removed)
      invariant blocking == BlockingAmong(seen, Group(order[..k]), removed)
    {
      var m := order[k];
      assert order[..k + 1][..k] == order[..k] && Group(order[..k + 1]) == Group(order[..k]) + {m};
      BlockingUnion(seen, Group(order[..k]), {m}, removed);
      BlockingOfOne(seen, m, removed);
      if !Plays(seen.matches[m], removed) { continue; }
      if StateOfMatch(seen, m) != NotStarted {
        blocking := blocking + SlotsInvolved(seen, seen.matches[m], removed);
        continue;
      }
      removable := removable + [m];
    }
    assert order[..|order|] == order;
  }

  lemma BlockingOfNone(t: Tables, removed: set<Id>)
    ensures BlockingAmong(t, Group([]), removed) == {}
  {
  }

  lemma OneMoreRound(t: Tables, rounds: seq<Id>, r: nat, removed: set<Id>)
    requires r < |rounds|
    ensures var order := Ids(MatchesOfRounds(t, {rounds[r]}));
            && (forall m | m in order :: m in t.matches)
            && RemovableIn(t, rounds[..r + 1], removed)
               == RemovableIn(t, rounds[..r], removed) + RemovableAmong(t, order, removed)
            && BlockingAmong(t, MatchesOfRounds(t, Group(rounds[..r + 1])), removed)
               == BlockingAmong(t, MatchesOfRounds(t, Group(rounds[..r])), removed)
                  + BlockingAmong(t, Group(order), removed)
  {
    hide BlockingAmong, RemovableAmong, RemovableIn, MatchesOfRounds;
    var order := Ids(MatchesOfRounds(t, {rounds[r]}));
    RemovableOneMore(t, rounds, r, removed);
    MatchesOneMore(t, rounds, r);
    BlockingUnion(t, MatchesOfRounds(t, Group(rounds[..r])), Group(order), removed);
  }

  lemma RemovableOneMore(t: Tables, rounds: seq<Id>, r: nat, removed: set<Id>)
    requires r < |rounds|
    ensures RemovableIn(t, rounds[..r + 1], removed)
         == RemovableIn(t, rounds[..r], removed) + RemovableAmong(t, Ids(MatchesOfRounds(t, {rounds[r]})), removed)
  {
    assert rounds[..r + 1][..r] == rounds[..r];
    hide RemovableAmong, MatchesOfRounds, Ids, IsRemovable, Group;
  }

  lemma MatchesOneMore(t: Tables, rounds: seq<Id>, r: nat)
    requires r < |rounds|
    ensures var order := Ids(MatchesOfRounds(t, {rounds[r]}));
            && (forall m | m in order :: m in t.matches)
            && MatchesOfRounds(t, Group(rounds[..r + 1])) == MatchesOfRounds(t, Group(rounds[..r])) + Group(order)
  {
    assert rounds[..r + 1] == rounds[..r] + [rounds[r]];
    assert Group(rounds[..r + 1]) == Group(rounds[..r]) + {rounds[r]};
    GroupIs(Ids(MatchesOfRounds(t, {rounds[r]})), MatchesOfRounds(t, {rounds[r]}));
    hide Group, Ids;
  }

  lemma AllRounds(t: Tables, i: Id)
    ensures MatchesOfRounds(t, Group(Ids(RoundsOfItem(t, i)))) == MatchesOfItem(t, i)
    ensures MatchesOfRounds(t, Group([])) == Group([])
  {
  }

  method GetRemovedMatchIdsAndBlockingSlots(seen: Tables, i: Id, removed: set<Id>)
    returns (removable: seq<Id>, blocking: set<int>)
    ensures removable == RemovableMatches(seen, i, removed)
    ensures blocking == BlockingSlots(seen, i, removed)
  {
    AllRounds(seen, i);
    BlockingOfNone(seen, removed);
    hide BlockingAmong, RemovableAmong, MatchesOfRounds, MatchesOfItem, Group;
    removable, blocking := [], {};
    var rounds := Ids(RoundsOfItem(seen, i));
    for r := 0 to |rounds|
      invariant removable == RemovableIn(seen, rounds[..r], removed)
      invariant blocking == BlockingAmong(seen, MatchesOfRounds(seen, Group(rounds[..r])), removed)
    {
      OneMoreRound(seen, rounds, r, removed);
      hide RemovableIn;
      var more, slots := ConsiderMatches(seen, Ids(MatchesOfRounds(seen, {rounds[r]})), removed);
      removable, blocking := removable + more, blocking + slots;
    }
    assert rounds[..|rounds|] == rounds;
  }

  method UpdateStageItemInputSlots(db: Database, i: Id, order: seq<Id>)
    modifies db`inputs
    ensures db.inputs == Renumbered(old(db.inputs), i, order)
  {
    ghost var before := db.inputs;
    for k := 0 to |order|
      invariant db.inputs == Renumbered(before, i, order[..k])
    {
      assert order[..k + 1][..k] == order[..k];
      var x := order[k];
      if x in db.inputs && db.inputs[x].stageItem == i {
        db.inputs := db.inputs[x := db.inputs[x].(slot := k + 1)];
      }
    }
    assert order[..|order|] == order;
  }

  method AppendEmptyStageItemInputs(db: Database, tournament: Id, i: Id, first: int, last: int)
    returns (error: Option<Error>)
    requires first <= last
    modifies db`inputs, db`nextId
    ensures var before := old(db.Snapshot());
            Ended(if tournament !in before.tournaments || i !in before.stageItems then Err(ForeignKeyViolation)
                  else Ok(Appended(before, tournament, i, first, last + 1 - first)), before, db.Snapshot(), error)
  {
    ghost var before := db.Snapshot();
    for k := 0 to last + 1 - first
      invariant db.Snapshot() == Appended(before, tournament, i, first, k)
      invariant k > 0 ==> tournament in before.tournaments && i in before.stageItems
    {
      if tournament !in db.tournaments || i !in db.stageItems { return Some(ForeignKeyViolation); }
      db.inputs, db.nextId := db.inputs[db.nextId := NewInput(tournament, i, first + k)], db.nextId + 1;
    }
    return None;
  }

  method ClearRemovedWinnerPositions(db: Database, i: Id, count: int)
    modifies db`inputs
    ensures db.inputs == PositionsCleared(old(db.inputs), i, count)
  {
    db.inputs := PositionsCleared(db.inputs, i, count);
  }

  lemma {:induction false} ErrorStays(t: Tables, ids: seq<Id>, k: nat)
    requires k <= |ids| && DeletedOneByOne(t, ids[..k]).Err?
    ensures DeletedOneByOne(t, ids) == DeletedOneByOne(t, ids[..k])
  {
    if k == |ids| {
      assert ids[..k] == ids;
    } else {
      var n := |ids| - 1;
      assert ids[..n][..k] == ids[..k];
      ErrorStays(t, ids[..n], k);
    }
  }

  method SqlDeleteMatchList(db: Database, ids: seq<Id>) returns (error: Option<Error>)
    modifies db`matches, db`matchSets
    ensures Tried(DeletedOneByOne(old(db.Snapshot()), ids), db.Snapshot(), error)
  {
    hide FedBy;
    ghost var before := db.Snapshot();
    for k := 0 to |ids|
      invariant DeletedOneByOne(before, ids[..k]) == Ok(db.Snapshot())
    {
      assert ids[..k + 1][..k] == ids[..k];
      error := SqlDeleteMatches(db, {ids[k]});
      if error.Some? {
        ErrorStays(before, ids, k + 1);
        return;
      }
    }
    assert ids[..|ids|] == ids;
    return None;
  }

  method ResizeNonEliminationStageItem(db: Database, seen: Tables, tournament: Id, i: Id, count: int)
    returns (error: Option<Error>)
    requires i in seen.stageItems
    modifies db`inputs, db`matches, db`matchSets, db`nextId
    ensures Tried(Resize(old(db.Snapshot()), seen, tournament, i, count), db.Snapshot(), error)
  {
    hide Appended, BlockingSlots, RemovableMatches, EmptyInputs, DeletedOneByOne, BySlot, Renumbered,
      PositionsCleared, PlayedIn,
      WithoutReferees, InputsOfItem, Without;
    var was := seen.stageItems[i].teamCount;
    if count > was {
      error := AppendEmptyStageItemInputs(db, tournament, i, was + 1, count);
      return;
    }
    if |EmptyInputs(seen, i)| < was - count { return Some(Http(400)); }
    var removed := RemovedInputs(seen, i, was - count);
    hide RemovedInputs;
    var removable, blocking := GetRemovedMatchIdsAndBlockingSlots(seen, i, removed);
    if blocking != {} { return Some(Http(400)); }
    error := DeleteAndRenumber(db, seen, i, removed, removable, count);
  }

  method DeleteAndRenumber(db: Database, seen: Tables, i: Id, removed: set<Id>, removable: seq<Id>, count: int)
    returns (error: Option<Error>)
    requires removable == RemovableMatches(seen, i, removed)
    modifies db`inputs, db`matches, db`matchSets
    ensures Tried(Shrunk(old(db.Snapshot()), seen, i, removed, count), db.Snapshot(), error)
  {
    hide RemovableMatches, DeletedOneByOne, BySlot, Renumbered, PositionsCleared, PlayedIn, WithoutReferees,
      InputsOfItem, Without;
    error := SqlDeleteMatchList(db, removable);
    if error.Some? { return; }
    error := SqlDeleteInputs(db, InputsOfItem(db.Snapshot(), i) * removed);
    if error.Some? { return; }
    UpdateStageItemInputSlots(db, i, Without(BySlot(seen, i), removed));
    ClearRemovedWinnerPositions(db, i, count);
  }
}
