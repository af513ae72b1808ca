/** Whole runs: any sequence of requests against the database, each followed by its reconciliation, and what holds in
    every state such a run passes through. */
module Runs {
  import opened Schema
  import opened SetResize
  import opened Rankings
  import opened ApplyPlan
  import opened StageItems
  import opened ItemLayout
  import opened Health
  import opened Reconciliation
  import opened Requests
  import opened RequestEffects

  datatype Step = Step(request: Request, followups: seq<Followup>)

  /** Requests that reconcile inside their transaction; the others do so after it. */
  predicate Atomic(request: Request) {
    request.EditRanking? || request.SetStageRanking?
  }

  /** A request, and if it goes through, the reconciliation of the items whose standings it moved. */
  function StepOutcome(t: Tables, step: Step, skeletons: Skeletons): Finish
    requires IdsBelowSequence(t)
  {
    var first := Outcome(t, step.request, skeletons);
    if first.error.Some? then first else
      var second := AllReconciled(first.after, step.followups);
      if second.error.Some? && Atomic(step.request) then Finish(t, second.error) else second
  }

  /** What a step relies on: reconciliation keeps to its tournament. */
  ghost predicate InScope(t: Tables, step: Step, skeletons: Skeletons)
    requires IdsBelowSequence(t)
  {
    var first := Outcome(t, step.request, skeletons);
    first.error.None? ==> AllInside(first.after, step.followups)
  }

  /** A harmless request with its reconciliation leaves a healthy database healthy and keeps the order of inputs,
      wherever it stops. */
  lemma StepKeepsHealth(t: Tables, step: Step, skeletons: Skeletons)
    requires Healthy(t) && IdsBelowSequence(t) && InScope(t, step, skeletons) && Harmless(t, step.request, skeletons)
    ensures Healthy(StepOutcome(t, step, skeletons).after) && OrderKept(t, StepOutcome(t, step, skeletons).after)
  {
    hide Healthy, Outcome, Harmless, AllReconciled, AllInside, OrderKept, IdsBelowSequence;
    RequestKeepsHealth(t, step.request, skeletons);
    NothingReordered(t);
    var first := Outcome(t, step.request, skeletons);
    if first.error.None? {
      AllReconciledKeepsHealth(first.after, step.followups);
      OrderKeptTwice(t, first.after, AllReconciled(first.after, step.followups).after);
    }
  }

  /** What fails leaves nothing behind, with two exceptions: the creation of a bracket of an unknown size, and a
      reconciliation that fails after its request was committed. */
  lemma FailureLeaves(t: Tables, step: Step, skeletons: Skeletons)
    requires Healthy(t) && IdsBelowSequence(t) && StepOutcome(t, step, skeletons).error.Some?
    ensures Outcome(t, step.request, skeletons).error.Some? && !step.request.AddItem? ==>
              StepOutcome(t, step, skeletons).after == t
    ensures Atomic(step.request) ==> StepOutcome(t, step, skeletons).after == t
  {
    hide Healthy, IdsBelowSequence, Outcome, AllReconciled;
    RequestLeaves(t, step.request, skeletons);
  }

  /** After a step that went through, exactly the matches that are over have a completion time, in every item that was
      reconciled. */
  lemma StepBringsInStep(t: Tables, step: Step, skeletons: Skeletons, f: Followup)
    requires Healthy(t) && IdsBelowSequence(t) && StepOutcome(t, step, skeletons).error.None? && f in step.followups
    ensures InStep(StepOutcome(t, step, skeletons).after, f.item)
  {
    hide Healthy, IdsBelowSequence, Outcome, AllReconciled, InStep;
    AllInStep(Outcome(t, step.request, skeletons).after, step.followups, f);
  }

  // ---------------------------------------------------------------- runs

  /** Every step of the run is in scope and harmless in the state it arrives in. */
  ghost predicate Admissible(t: Tables, steps: seq<Step>, skeletons: Skeletons)
    decreases |steps|
  {
    steps != [] ==>
      && IdsBelowSequence(t) && InScope(t, steps[0], skeletons) && Harmless(t, steps[0].request, skeletons)
      && Admissible(StepOutcome(t, steps[0], skeletons).after, steps[1..], skeletons)
  }

  ghost function Run(t: Tables, steps: seq<Step>, skeletons: Skeletons): Tables
    requires Admissible(t, steps, skeletons)
    decreases |steps|
  {
    if steps == [] then t else Run(StepOutcome(t, steps[0], skeletons).after, steps[1..], skeletons)
  }

  /** In every reachable state every match has exactly the set rows of its ranking and a pointer into them, the parity
      rules hold, every reference resolves and stays in its tournament, and every stage item has the slots
      1..team_count. */
  lemma {:induction false} RunsStayHealthy(t: Tables, steps: seq<Step>, skeletons: Skeletons)
    requires Healthy(t) && Admissible(t, steps, skeletons)
    ensures Healthy(Run(t, steps, skeletons))
    decreases |steps|
  {
    hide Healthy, StepOutcome, Harmless, InScope, IdsBelowSequence;
    if steps != [] {
      StepKeepsHealth(t, steps[0], skeletons);
      RunsStayHealthy(StepOutcome(t, steps[0], skeletons).after, steps[1..], skeletons);
    }
  }

  /** Over any run, no two inputs of an item change places, and no id comes back as another input or item. */
  lemma {:induction false} RunsKeepOrder(t: Tables, steps: seq<Step>, skeletons: Skeletons)
    requires Healthy(t) && Admissible(t, steps, skeletons)
    ensures OrderKept(t, Run(t, steps, skeletons))
    decreases |steps|
  {
    hide Healthy, StepOutcome, Harmless, InScope, IdsBelowSequence, OrderKept;
    if steps == [] {
      NothingReordered(t);
    } else {
      var s := StepOutcome(t, steps[0], skeletons).after;
      StepKeepsHealth(t, steps[0], skeletons);
      RunsKeepOrder(s, steps[1..], skeletons);
      OrderKeptTwice(t, s, Run(t, steps, skeletons));
    }
  }

  // ---------------------------------------------------------------- the program

  /** What an atomic request and its reconciliation can have written when they are rolled back. */
  lemma AtomicFrame(t: Tables, step: Step, skeletons: Skeletons)
    requires IdsBelowSequence(t) && Atomic(step.request)
    ensures var t' := AllReconciled(Outcome(t, step.request, skeletons).after, step.followups).after;
            t' == t.(stageItems := t'.stageItems, inputs := t'.inputs, rounds := t'.rounds, matches := t'.matches,
                     matchSets := t'.matchSets, rankings := t'.rankings)
  {
    hide AllReconciled, IdsBelowSequence, Simple;
    AtomicRequestFrame(t, step.request);
    AllReconciledFrame(Outcome(t, step.request, skeletons).after, step.followups);
  }

  lemma AtomicRequestFrame(t: Tables, request: Request)
    requires Atomic(request)
    ensures var t' := Transaction(t, Simple(t, request)).after;
            t' == t.(stageItems := t'.stageItems, matches := t'.matches, matchSets := t'.matchSets,
                     rankings := t'.rankings)
  {
    hide UpdateRanking, SetRankingForStage;
    if request.EditRanking? {
      EditFrame(t, UpdateRanking(t, request.tournament, request.ranking, request.rankingBody, request.force), request);
    } else if SetRankingForStage(t, request.tournament, request.stage, request.ranking).Ok? {
      StageRankingFrame(t, request.tournament, request.stage, request.ranking);
    }
  }

  lemma EditFrame(t: Tables, r: Result<Tables>, request: Request)
    requires request.EditRanking?
    requires r == UpdateRanking(t, request.tournament, request.ranking, request.rankingBody, request.force)
    ensures r.Ok? ==>
              r.value == t.(rankings := r.value.rankings, matches := r.value.matches, matchSets := r.value.matchSets)
  {
    hide UpdateRanking;
    if r.Ok? { UpdateRankingFrame(t, request.tournament, request.ranking, request.rankingBody, request.force); }
  }

  lemma StageRankingFrame(t: Tables, tournament: Id, stage: Id, r: Id)
    requires SetRankingForStage(t, tournament, stage, r).Ok?
    ensures var t' := SetRankingForStage(t, tournament, stage, r).value;
            t' == t.(stageItems := t'.stageItems, matches := t'.matches, matchSets := t'.matchSets)
  {
    hide BreaksCheck, MoveCounts, Moved, ItemsOfStage, Resized;
    var n := t.rankings[r].rules.numSets;
    ResizedFrame(t, MoveCounts(t, tournament, ItemsOfStage(t, stage), r, n), n);
  }

  lemma ReconciledFrame(t: Tables, f: Followup)
    ensures var t' := Reconciled(t, f).after;
            t' == t.(inputs := t'.inputs, matches := t'.matches, rounds := t'.rounds)
  {
    hide StampedAmong, PlansApplied;
    PlansFrame(Synced(t, f.item, f.now), f.tournament, f.plans);
  }

  lemma {:induction false} AllReconciledFrame(t: Tables, followups: seq<Followup>)
    ensures var t' := AllReconciled(t, followups).after;
            t' == t.(inputs := t'.inputs, matches := t'.matches, rounds := t'.rounds)
  {
    hide Reconciled;
    if followups != [] {
      var n := |followups| - 1;
      AllReconciledFrame(t, followups[..n]);
      ReconciledFrame(AllReconciled(t, followups[..n]).after, followups[n]);
    }
  }

  lemma {:induction false} PlansFrame(t: Tables, tournament: Id, plans: seq<seq<PlanItem>>)
    ensures var t' := PlansApplied(t, tournament, plans).after;
            t' == t.(inputs := t'.inputs, matches := t'.matches, rounds := t'.rounds)
  {
    hide Applied;
    if plans != [] {
      var init, last := plans[..|plans| - 1], plans[|plans| - 1];
      PlansFrame(t, tournament, init);
      PlanFrame(PlansApplied(t, tournament, init).after, tournament, last);
    }
  }

  lemma PlanFrame(t: Tables, tournament: Id, plan: seq<PlanItem>)
    ensures Applied(t, tournament, plan).Ok? ==>
              var t' := Applied(t, tournament, plan).value;
              t' == t.(inputs := t'.inputs, matches := t'.matches, rounds := t'.rounds)
  {
    hide OtherWrites, TryWrites, Assignments, OtherItems;
    OtherWritesKeepTeams(t, tournament, OtherItems(plan));
  }

  /** The program behind one request with its reconciliation. */
  method HandleStep(db: Database, step: Step, skeletons: Skeletons) returns (error: Option<Error>)
    requires Healthy(db.Snapshot()) && IdsBelowSequence(db.Snapshot())
    modifies db
    ensures Finish(db.Snapshot(), error) == StepOutcome(old(db.Snapshot()), step, skeletons)
  {
    hide Healthy, IdsBelowSequence, Outcome, AllReconciled;
    var saved := db.Snapshot();
    error := Handle(db, step.request, skeletons);
    if error.Some? { return; }
    error := ReconcileStageItems(db, step.followups);
    if error.Some? && Atomic(step.request) {
      AtomicFrame(saved, step, skeletons);
      db.Restore(saved);
    }
  }

  /** The store serving a run of requests one after the other. */
  method Serve(db: Database, steps: seq<Step>, skeletons: Skeletons)
    requires Healthy(db.Snapshot()) && Admissible(db.Snapshot(), steps, skeletons)
    modifies db
    ensures Healthy(db.Snapshot()) && OrderKept(old(db.Snapshot()), db.Snapshot())
    ensures db.Snapshot() == Run(old(db.Snapshot()), steps, skeletons)
  {
    hide Healthy, StepOutcome, Harmless, InScope, IdsBelowSequence, OrderKept;
    ghost var before := db.Snapshot();
    for k := 0 to |steps|
      invariant Healthy(db.Snapshot()) && Admissible(db.Snapshot(), steps[k..], skeletons)
      invariant Run(db.Snapshot(), steps[k..], skeletons) == Run(before, steps, skeletons)
    {
      assert steps[k..][0] == steps[k] && steps[k..][1..] == steps[k + 1..];
      StepKeepsHealth(db.Snapshot(), steps[k], skeletons);
      var error := HandleStep(db, steps[k], skeletons);
    }
    RunsKeepOrder(before, steps, skeletons);
  }
}
