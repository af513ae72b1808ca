/** What follows a request that moves standings: completion times are brought in step, then plan after plan is applied,
    each in its own transaction. What reconciliation computes is a parameter; what it may write is not. */
module Reconciliation {
  import opened Schema
  import opened Progress
  import opened MatchSets
  import opened SetResize
  import opened Deletion
  import opened StageItemResize
  import opened ApplyPlan
  import opened PlanWrites
  import opened Layout
  import opened StageItems
  import opened ItemLayout
  import opened Health
  import opened PlanHealth

  /** The item whose standings moved, the time, and the plans the computations arrive at. */
  datatype Followup = Followup(tournament: Id, item: Id, now: int, plans: seq<seq<PlanItem>>)

  /** A match that is over keeps its completion time or gets the present one, any other has none. */
  function Stamped(t: Tables, m: Id, now: int): Match
    requires m in t.matches
  {
    var row, over := t.matches[m], StateOfMatch(t, m) == State.Completed;
    if over && row.completedAt.None? then row.(completedAt := Some(now))
    else if !over && row.completedAt.Some? then row.(completedAt := None)
    else row
  }

  function StampedAmong(t: Tables, ids: set<Id>, now: int): map<Id, Match> {
    map m | m in t.matches :: if m in ids then Stamped(t, m, now) else t.matches[m]
  }

  /** The completion times of the item's matches, in step with their states. */
  function Synced(t: Tables, i: Id, now: int): Tables {
    t.(matches := StampedAmong(t, MatchesOfItem(t, i), now))
  }

  /** A transaction, or a single statement. */
  function Transaction(t: Tables, r: Result<Tables>): Finish {
    match r
    case Ok(t') => Finish(t', None)
    case Err(e) => Finish(t, Some(e))
  }

  /** Plan after plan, up to the first that fails; that one leaves nothing, those before it stay. */
  function PlansApplied(t: Tables, tournament: Id, plans: seq<seq<PlanItem>>): Finish {
    if plans == [] then Finish(t, None) else
      var done := PlansApplied(t, tournament, plans[..|plans| - 1]);
      if done.error.Some? then done else Transaction(done.after, Applied(done.after, tournament, plans[|plans| - 1]))
  }

  function Reconciled(t: Tables, f: Followup): Finish {
    PlansApplied(Synced(t, f.item, f.now), f.tournament, f.plans)
  }

  /** Several items one after the other, up to the first that fails. */
  function AllReconciled(t: Tables, followups: seq<Followup>): Finish {
    if followups == [] then Finish(t, None) else
      var done := AllReconciled(t, followups[..|followups| - 1]);
      if done.error.Some? then done else Reconciled(done.after, followups[|followups| - 1])
  }

  ghost predicate AllInside(t: Tables, followups: seq<Followup>) {
    forall f | f in followups :: PlansInside(t, f.tournament, f.plans)
  }

  /** Every plan keeps to its tournament. */
  ghost predicate PlansInside(t: Tables, tournament: Id, plans: seq<seq<PlanItem>>) {
    forall p | p in plans :: PlanInside(t, tournament, p)
  }

  // ---------------------------------------------------------------- what it keeps

  lemma SyncRewrites(t: Tables, i: Id, now: int)
    ensures Rewritten(t, Synced(t, i, now))
  {
    hide StateOfMatch, MatchesOfItem;
  }

  lemma SyncThins(t: Tables, i: Id, now: int)
    requires Intact(t)
    ensures MatchesThinned(t, Synced(t, i, now))
  {
    hide Intact, StampedAmong;
    IntactRefers(t);
    var t' := Synced(t, i, now);
    assert t'.matches.Keys == t.matches.Keys by { StampedRows(t, MatchesOfItem(t, i), now); }
    forall m | m in t'.matches
      ensures SameReferences(t.matches[m], t'.matches[m])
      ensures Refers(t'.matches[m].winnerFrom1, t'.matches.Keys) && Refers(t'.matches[m].winnerFrom2, t'.matches.Keys)
    {
      StampedRows(t, MatchesOfItem(t, i), now);
      assert MatchRefers(t.matches[m], t.rounds.Keys, t.inputs.Keys, t.matches.Keys, t.courts.Keys);
    }
  }

  lemma StampedRows(t: Tables, ids: set<Id>, now: int)
    ensures var after := StampedAmong(t, ids, now);
            && after.Keys == t.matches.Keys
            && forall m | m in t.matches :: after[m] == t.matches[m].(completedAt := after[m].completedAt)
  {
    hide StateOfMatch;
  }

  lemma SyncKeepsHealth(t: Tables, i: Id, now: int)
    requires Healthy(t)
    ensures Healthy(Synced(t, i, now)) && OrderKept(t, Synced(t, i, now)) && Rewritten(t, Synced(t, i, now))
  {
    hide Healthy, Rewritten, MatchesThinned, OrderKept, Synced;
    HealthParts(t);
    SyncRewrites(t, i, now);
    SyncThins(t, i, now);
    RewrittenProgress(t, Synced(t, i, now));
    ProgressKeepsHealth(t, Synced(t, i, now));
  }

  lemma {:induction false} PlansKeepHealth(t: Tables, tournament: Id, plans: seq<seq<PlanItem>>)
    requires Healthy(t) && PlansInside(t, tournament, plans)
    ensures var t' := PlansApplied(t, tournament, plans).after; Healthy(t') && OrderKept(t, t') && Rewritten(t, t')
  {
    hide Healthy, Rewritten, OrderKept, PlanInside, Applied;
    if plans == [] {
      NothingRewritten(t);
      NothingReordered(t);
    } else {
      var init, last := plans[..|plans| - 1], plans[|plans| - 1];
      PlansKeepHealth(t, tournament, init);
      var s := PlansApplied(t, tournament, init).after;
      if Applied(s, tournament, last).Ok? {
        StillInside(t, s, tournament, last);
        PlanKeepsHealth(s, tournament, last);
        OrderKeptTwice(t, s, Applied(s, tournament, last).value);
        RewrittenTwice(t, s, Applied(s, tournament, last).value);
      }
    }
  }

  lemma NothingReordered(t: Tables)
    requires Healthy(t)
    ensures OrderKept(t, t)
  {
  }

  /** Reconciliation that keeps to its tournament leaves a healthy database healthy, also where it stops half way. */
  lemma ReconciliationKeepsHealth(t: Tables, f: Followup)
    requires Healthy(t) && PlansInside(t, f.tournament, f.plans)
    ensures var t' := Reconciled(t, f).after; Healthy(t') && OrderKept(t, t') && Rewritten(t, t')
  {
    hide Healthy, Rewritten, OrderKept, PlanInside, PlansApplied, Synced;
    var s := Synced(t, f.item, f.now);
    SyncKeepsHealth(t, f.item, f.now);
    forall p | p in f.plans ensures PlanInside(s, f.tournament, p) { StillInside(t, s, f.tournament, p); }
    PlansKeepHealth(s, f.tournament, f.plans);
    OrderKeptTwice(t, s, Reconciled(t, f).after);
    RewrittenTwice(t, s, Reconciled(t, f).after);
  }

  /** So does that of one item after the other. */
  lemma {:induction false} AllReconciledKeepsHealth(t: Tables, followups: seq<Followup>)
    requires Healthy(t) && AllInside(t, followups)
    ensures var t' := AllReconciled(t, followups).after; Healthy(t') && OrderKept(t, t') && Rewritten(t, t')
  {
    hide Healthy, Rewritten, OrderKept, PlanInside, Reconciled;
    if followups == [] {
      NothingRewritten(t);
      NothingReordered(t);
    } else {
      var init, f := followups[..|followups| - 1], followups[|followups| - 1];
      AllReconciledKeepsHealth(t, init);
      var done := AllReconciled(t, init);
      if done.error.None? {
        forall p | p in f.plans ensures PlanInside(done.after, f.tournament, p) {
          StillInside(t, done.after, f.tournament, p);
        }
        ReconciliationKeepsHealth(done.after, f);
        OrderKeptTwice(t, done.after, AllReconciled(t, followups).after);
        RewrittenTwice(t, done.after, AllReconciled(t, followups).after);
      }
    }
  }

  // ---------------------------------------------------------------- what it brings in step

  /** A match has a completion time exactly when it is over. */
  ghost predicate InStep(t: Tables, i: Id) {
    forall m | m in MatchesOfItem(t, i) ::
      m in t.matches && (t.matches[m].completedAt.Some? <==> StateOfMatch(t, m) == State.Completed)
  }

  /** The same matches with the same sets, pointers and completion times under the same rankings. */
  ghost predicate SameStates(t: Tables, t': Tables) {
    && t'.matches.Keys == t.matches.Keys && t'.matchSets == t.matchSets && t'.rankings == t.rankings
    && t'.stageItems == t.stageItems && t'.rounds.Keys == t.rounds.Keys
    && (forall r | r in t.rounds :: t'.rounds[r].stageItem == t.rounds[r].stageItem)
    && forall m | m in t.matches ::
         && t'.matches[m].round == t.matches[m].round && t'.matches[m].progress == t.matches[m].progress
         && t'.matches[m].completedAt == t.matches[m].completedAt
  }

  lemma StateKept(t: Tables, t': Tables, m: Id)
    requires m in t.matches && m in t'.matches && t'.matchSets == t.matchSets && t'.rankings == t.rankings
    requires t'.stageItems == t.stageItems && t'.rounds.Keys == t.rounds.Keys
    requires forall r | r in t.rounds :: t'.rounds[r].stageItem == t.rounds[r].stageItem
    requires t'.matches[m].round == t.matches[m].round && t'.matches[m].progress == t.matches[m].progress
    ensures StateOfMatch(t', m) == StateOfMatch(t, m)
    ensures forall i :: m in MatchesOfItem(t', i) <==> m in MatchesOfItem(t, i)
  {
    hide MatchState;
    assert RowsOf(t', m) == RowsOf(t, m) && PlayAllSetsOf(t', m) == PlayAllSetsOf(t, m);
  }

  /** The sync does what it is for: times that were right stay, missing ones are the present time, superfluous ones go,
      and nothing but completion times of the item's matches changes. */
  lemma SyncBringsInStep(t: Tables, i: Id, now: int)
    ensures var t' := Synced(t, i, now);
            && InStep(t', i) && t' == t.(matches := t'.matches) && t'.matches.Keys == t.matches.Keys
            && (forall m | m in t.matches ::
                  && t'.matches[m] == t.matches[m].(completedAt := t'.matches[m].completedAt)
                  && (m in MatchesOfItem(t, i) && t'.matches[m].completedAt.Some? ==>
                        t'.matches[m].completedAt
                        == if t.matches[m].completedAt.Some? then t.matches[m].completedAt else Some(now))
                  && (m !in MatchesOfItem(t, i) ==> t'.matches[m] == t.matches[m]))
  {
    hide StateOfMatch;
    var t' := Synced(t, i, now);
    forall m | m in t.matches
      ensures StateOfMatch(t', m) == StateOfMatch(t, m)
      ensures m in MatchesOfItem(t', i) <==> m in MatchesOfItem(t, i)
    {
      StateKept(t, t', m);
    }
  }

  lemma PlanKeepsStates(t: Tables, tournament: Id, plan: seq<PlanItem>)
    requires Applied(t, tournament, plan).Ok?
    ensures SameStates(t, Applied(t, tournament, plan).value)
  {
    hide Applied, LastOn;
    PlanIsWritten(t, tournament, plan);
  }

  lemma {:induction false} PlansKeepStates(t: Tables, tournament: Id, plans: seq<seq<PlanItem>>)
    ensures SameStates(t, PlansApplied(t, tournament, plans).after)
  {
    if plans != [] {
      hide Applied;
      var init, last := plans[..|plans| - 1], plans[|plans| - 1];
      PlansKeepStates(t, tournament, init);
      var s := PlansApplied(t, tournament, init).after;
      if Applied(s, tournament, last).Ok? { PlanKeepsStates(s, tournament, last); }
    }
  }

  lemma InStepKept(t: Tables, t': Tables, i: Id)
    requires InStep(t, i) && SameStates(t, t')
    ensures InStep(t', i)
  {
    hide StateOfMatch, MatchesOfItem;
    forall m | m in t.matches
      ensures StateOfMatch(t', m) == StateOfMatch(t, m)
      ensures m in MatchesOfItem(t', i) <==> m in MatchesOfItem(t, i)
    {
      StateKept(t, t', m);
    }
    ItemMatchesExist(t', i);
  }

  lemma ItemMatchesExist(t: Tables, i: Id)
    ensures MatchesOfItem(t, i) <= t.matches.Keys
  {
  }

  /** After a reconciliation, wherever it stops, exactly the matches of the item that are over have a completion
      time. */
  lemma ReconciledIsInStep(t: Tables, f: Followup)
    ensures InStep(Reconciled(t, f).after, f.item)
  {
    hide Synced, PlansApplied, SameStates, InStep;
    SyncBringsInStep(t, f.item, f.now);
    PlansKeepStates(Synced(t, f.item, f.now), f.tournament, f.plans);
    InStepKept(Synced(t, f.item, f.now), Reconciled(t, f).after, f.item);
  }

  /** Reconciling one item leaves the others in step. */
  lemma SyncKeepsInStep(t: Tables, i: Id, j: Id, now: int)
    requires InStep(t, j)
    ensures InStep(Synced(t, i, now), j)
  {
    hide StateOfMatch, MatchesOfItem;
    var t' := Synced(t, i, now);
    ItemMatchesExist(t', j);
    forall m | m in t.matches
      ensures StateOfMatch(t', m) == StateOfMatch(t, m)
      ensures m in MatchesOfItem(t', j) <==> m in MatchesOfItem(t, j)
    {
      StateKept(t, t', m);
    }
  }

  lemma ReconciledKeepsInStep(t: Tables, f: Followup, j: Id)
    requires InStep(t, j)
    ensures InStep(Reconciled(t, f).after, j)
  {
    hide Synced, PlansApplied, SameStates, InStep;
    SyncKeepsInStep(t, f.item, j, f.now);
    PlansKeepStates(Synced(t, f.item, f.now), f.tournament, f.plans);
    InStepKept(Synced(t, f.item, f.now), Reconciled(t, f).after, j);
  }

  /** When all items were reconciled, all of them are in step. */
  lemma {:induction false} AllInStep(t: Tables, followups: seq<Followup>, f: Followup)
    requires f in followups && AllReconciled(t, followups).error.None?
    ensures InStep(AllReconciled(t, followups).after, f.item)
  {
    hide Reconciled, InStep;
    var n := |followups| - 1;
    assert followups == followups[..n] + [followups[n]];
    var done := AllReconciled(t, followups[..n]);
    if f in followups[..n] {
      AllInStep(t, followups[..n], f);
      ReconciledKeepsInStep(done.after, followups[n], f.item);
    } else {
      ReconciledIsInStep(done.after, f);
    }
  }

  // ---------------------------------------------------------------- the program

  method ApplyPlans(db: Database, tournament: Id, plans: seq<seq<PlanItem>>) returns (error: Option<Error>)
    modifies db
    ensures Finish(db.Snapshot(), error) == PlansApplied(old(db.Snapshot()), tournament, plans)
  {
    hide Applied;
    ghost var before := db.Snapshot();
    for k := 0 to |plans|
      invariant Finish(db.Snapshot(), None) == PlansApplied(before, tournament, plans[..k])
    {
      assert plans[..k + 1][..k] == plans[..k];
      error := Apply(db, tournament, plans[k]);
      if error.Some? {
        PlanErrorStays(before, tournament, plans, k + 1);
        return;
      }
    }
    assert plans[..|plans|] == plans;
    return None;
  }

  lemma {:induction false} PlanErrorStays(t: Tables, tournament: Id, plans: seq<seq<PlanItem>>, k: nat)
    requires k <= |plans| && PlansApplied(t, tournament, plans[..k]).error.Some?
    ensures PlansApplied(t, tournament, plans) == PlansApplied(t, tournament, plans[..k])
  {
    hide Applied;
    if k == |plans| {
      assert plans[..k] == plans;
    } else {
      var n := |plans| - 1;
      assert plans[..n][..k] == plans[..k];
      PlanErrorStays(t, tournament, plans[..n], k);
    }
  }

  /** The loop over rounds and matches, all states as they were read before. */
  method SyncCompletedAtForStageItem(db: Database, i: Id, now: int)
    modifies db`matches
    ensures db.Snapshot() == Synced(old(db.Snapshot()), i, now)
  {
    hide StampedAmong;
    var seen := db.Snapshot();
    var rounds := Ids(RoundsOfItem(seen, i));
    NothingStamped(seen, now);
    for r := 0 to |rounds|
      invariant db.matches == StampedAmong(seen, MatchesOfRounds(seen, Group(rounds[..r])), now)
    {
      SyncRound(db, seen, Group(rounds[..r]), rounds[r], now);
      GroupOneMore(rounds, r);
    }
    assert rounds[..|rounds|] == rounds;
    GroupIs(rounds, RoundsOfItem(seen, i));
    assert MatchesOfRounds(seen, RoundsOfItem(seen, i)) == MatchesOfItem(seen, i);
  }

  method SyncRound(db: Database, seen: Tables, ghost done: set<Id>, r: Id, now: int)
    requires db.matches == StampedAmong(seen, MatchesOfRounds(seen, done), now)
    modifies db`matches
    ensures db.matches == StampedAmong(seen, MatchesOfRounds(seen, done + {r}), now)
  {
    var ids := Ids(MatchesOfRounds(seen, {r}));
    RoundMore(seen, done, r, ids);
    hide StampedAmong, MatchesOfRounds, Stamped, Group;
    ghost var before := MatchesOfRounds(seen, done);
    for k := 0 to |ids|
      invariant db.matches == StampedAmong(seen, before + Group(ids[..k]), now)
    {
      assert ids[k] in ids;
      StampNext(seen, before, ids, k, now);
      db.matches := db.matches[ids[k] := Stamped(seen, ids[k], now)];
    }
    assert ids[..|ids|] == ids;
  }

  lemma RoundMore(seen: Tables, done: set<Id>, r: Id, ids: seq<Id>)
    requires ids == Ids(MatchesOfRounds(seen, {r}))
    ensures forall m | m in ids :: m in seen.matches
    ensures MatchesOfRounds(seen, done) + Group(ids[..0]) == MatchesOfRounds(seen, done)
    ensures MatchesOfRounds(seen, done) + Group(ids) == MatchesOfRounds(seen, done + {r})
  {
    GroupIs(ids, MatchesOfRounds(seen, {r}));
    assert MatchesOfRounds(seen, done + {r}) == MatchesOfRounds(seen, done) + MatchesOfRounds(seen, {r});
  }

  lemma NothingStamped(t: Tables, now: int)
    ensures StampedAmong(t, MatchesOfRounds(t, Group([])), now) == t.matches
  {
    hide Stamped;
    SameMap(StampedAmong(t, MatchesOfRounds(t, Group([])), now), t.matches);
  }

  lemma StampNext(t: Tables, before: set<Id>, ids: seq<Id>, k: nat, now: int)
    requires k < |ids| && ids[k] in t.matches && forall x, y | 0 <= x < y < |ids| :: ids[x] != ids[y]
    ensures StampedAmong(t, before + Group(ids[..k + 1]), now)
         == StampedAmong(t, before + Group(ids[..k]), now)[ids[k] := Stamped(t, ids[k], now)]
  {
    hide StampedAmong, Stamped;
    GroupOneMore(ids, k);
    assert before + Group(ids[..k + 1]) == (before + Group(ids[..k])) + {ids[k]};
    StampOneMore(t, before + Group(ids[..k]), ids[k], now);
  }

  lemma StampOneMore(t: Tables, ids: set<Id>, m: Id, now: int)
    requires m in t.matches
    ensures StampedAmong(t, ids + {m}, now) == StampedAmong(t, ids, now)[m := Stamped(t, m, now)]
  {
    hide Stamped;
    SameMap(StampedAmong(t, ids + {m}, now), StampedAmong(t, ids, now)[m := Stamped(t, m, now)]);
  }

  method ReconcileStageItem(db: Database, f: Followup) returns (error: Option<Error>)
    modifies db
    ensures Finish(db.Snapshot(), error) == Reconciled(old(db.Snapshot()), f)
  {
    hide PlansApplied, Synced;
    SyncCompletedAtForStageItem(db, f.item, f.now);
    error := ApplyPlans(db, f.tournament, f.plans);
  }

  method ReconcileStageItems(db: Database, followups: seq<Followup>) returns (error: Option<Error>)
    modifies db
    ensures Finish(db.Snapshot(), error) == AllReconciled(old(db.Snapshot()), followups)
  {
    hide Reconciled;
    ghost var before := db.Snapshot();
    for k := 0 to |followups|
      invariant Finish(db.Snapshot(), None) == AllReconciled(before, followups[..k])
    {
      assert followups[..k + 1][..k] == followups[..k];
      error := ReconcileStageItem(db, followups[k]);
      if error.Some? {
        ReconcileErrorStays(before, followups, k + 1);
        return;
      }
    }
    assert followups[..|followups|] == followups;
    return None;
  }

  lemma {:induction false} ReconcileErrorStays(t: Tables, followups: seq<Followup>, k: nat)
    requires k <= |followups| && AllReconciled(t, followups[..k]).error.Some?
    ensures AllReconciled(t, followups) == AllReconciled(t, followups[..k])
  {
    hide Reconciled;
    if k == |followups| {
      assert followups[..k] == followups;
    } else {
      var n := |followups| - 1;
      assert followups[..n][..k] == followups[..k];
      ReconcileErrorStays(t, followups[..n], k);
    }
  }
}
