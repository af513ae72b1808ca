# Tournament state, modelled and proved

Bracket keeps a tournament in a relational database: stages, stage items, inputs (slots), rounds, matches,
the set rows of matches, rankings. Almost every request changes several tables, often row by row in loops,
and the tables have to agree afterwards. This project models those writes and proves what they keep.

How the model is built:

* `Schema.dfy` has one datatype per row and one map per table. `Tables` is an immutable picture of the whole
  database; the class `Database` is the mutable store, one field per table. Foreign keys, the uniqueness of
  teams and of tracked positions per item and the CHECK on the progress pointer are stated once and every modelled
  statement obeys them.
* Each route or SQL function is a method on the store, with the loops of the original, whose `ensures` ties
  the new state to a function of the old one, error cases included. What the program promises is then proved
  about these functions. `Ended` says that a request was carried out or left everything as it was; `Tried` says
  the same of a step inside a transaction, where an error is left to be rolled back; `Finish` is the end of a
  request that is no transaction and may fail with part of its work done.
* `Progress`, `Migration`, `MatchSets`, `SetResize` and `Rankings` are about the progress of matches: a compact
  pointer, the states derived from it, and the set rows that must always be those the ranking asks for.
* `Deletion`, `Cascades` and `TournamentDeletion` are the deletion orders; `ApplyPlan` is the swap-safe order of
  team assignments, and `PlanWrites` reads a whole plan back from the rows; `MatchMoves` is the edit that gives a
  match another round.
* `RoundRobin`, `Elimination` and `SkeletonBuilders` are the builders, `RoundRobinRounds` says in which rounds they put
  what; `StageItemResize` and `EliminationResize` change the team count.
  `StageItems` combines all of them in the creation and the update of an item. `ItemMatches` and `ItemProgress` say
  what these do to set rows; `Layout`, `ItemLayout`, `ItemCompletion` and `ItemCreation` what they do to references,
  slots and pairings; `ItemSkeletons` and `ItemBrackets` read rounds and brackets back from the database; `ItemOutcome`
  says exactly when a creation or an update goes through and what it stores; `GrowShrink` takes an update back.
* `Health` states what holds between requests. `Removals`, `PlanHealth`, `Reconciliation` and `Requests` prove it of
  everything a request does, and `Runs` of any sequence of requests, each with its reconciliation. `RequestEffects`
  says of every request with which error it ends and what it leaves.
* `ScoreTracking`, `Colours`, `NaturalSort` and `SideSwitch` are self-contained algorithms.

What the proofs found in the code:

* A ranking body may ask for zero or fewer sets. Existing matches get along with that, the next match created
  does not (`EditThenMatch`, `ZeroSetsBreakTheNextMatch`, `WithMatchFits`).
* Updating an item with a new ranking of another set count and more games per player gives the added matches
  the old number of set rows; with a ranking of another tournament, which the update accepts, no match is resized at
  all (`UpdateStageItemKeeps`, `RankingChangeWithGrowthBreaks`, `ForeignRankingBreaks`).
* A bracket as created cannot be made smaller: its inputs are deleted before the matches that play with
  them (`BracketShrinkOutcome`, `CreatedBracketNeverShrinks`, `BracketOfFourNeverShrinks`).
* Creating a bracket of a size the program does not know fails after the item and its inputs are stored
  (`CreateStageItemKeeps`, `BracketOfSixStays`).
* Moving a match to a round of another item leaves its set rows and what it plays with behind (`MoveKeepsProgress`,
  `MoveLeavesSetsBehind`, `MoveKeepsShape`); after moving a final, the tournament cannot be deleted
  (`FinalMovedAcross`, `FeedingAcrossItemsBlocks`).
* Reopening while a set is open loses that set: ending again does not bring it back (`EndReopenInverse`).
* A name with a superscript digit alone between numbers or at an end beside one has no sort key: the split takes the
  piece for text and the conversion for a number, which raises (`KeyExists`, `SuperscriptRaises`).

The three conditions under which a request does damage are those of `Requests.Harmless`: a creation or an update with a
ranking of another tournament or, where it creates matches, of no sets; an update that changes the number of sets
along with more games; a move to a round with another number of sets, or away from the item a match is tied to.
Everything else, in any order, keeps the database healthy.

## Model

| member | source | states |
|---|---|---|
| `Requests.RequestKeepsHealth` | backend/bracket/routes/stage_items.py:484-578 | One request of any kind leaves a healthy database healthy if and only if it is harmless, a condition on the state before and the request; and inputs that stay keep their order. Healthy: set rows and pointers fit, parity holds, every foreign key resolves and stays in its tournament, both uniqueness rules on inputs hold, matches stay inside their items, slots are 1..team_count, tracked positions exist. |
| `Requests.HealthyNeverStuck` | backend/bracket/sql/shared.py:22-31 | From a healthy database an item, a stage or a tournament that is there can always be deleted, and exactly what is below it goes; an update never ends in a failure of the program itself. |
| `RequestEffects.RequestFails` | backend/bracket/routes/stage_items.py:484-578 | From a healthy database every request ends with exactly the error written out for it, judged by the state before, or with none. |
| `RequestEffects.RequestLeaves` | backend/bracket/routes/stage_items.py:484-578 | What goes through has done what it is for: the edited ranking is stored and its matches resized, the match plays in its new round, the set is open, ended, reopened or has the score, the rows are gone. What fails has changed nothing, but for a bracket of unknown size. |
| `Requests.EmptyStageIsHealthy` | backend/bracket/schema.py:83-365 | Such a database exists: a tournament with one stage and one ranking. |
| `Requests.Handle` | backend/bracket/routes/stage_items.py:466-578 | The program behind each request ends as the request's outcome function says, also where a creation fails half way. What follows a request is in `Runs.HandleStep`. |
| `Reconciliation.ReconciliationKeepsHealth` | backend/bracket/logic/reconcile.py:40-71 | Reconciliation that keeps to its tournament leaves a healthy database healthy, also where a plan after the first fails and those before it stay. |
| `Reconciliation.ReconcileStageItem` | backend/bracket/logic/reconcile.py:40-71 | Completion times brought in step by the loop over rounds and matches, then plan after plan, each in its own transaction, up to the first that fails. |
| `Reconciliation.SyncBringsInStep` | backend/bracket/logic/reconcile.py:20-37 | After the sync a match of the item has a completion time exactly when it is over; times that were right stay, missing ones are the present time, nothing else changes. |
| `Reconciliation.ReconciledIsInStep` | backend/bracket/logic/reconcile.py:40-71 | Still so after the plans, wherever the reconciliation stops. |
| `Runs.StepBringsInStep` | backend/bracket/routes/rankings.py:121-135 | After a step that went through, so it is in every item that was reconciled, however many. |
| `Runs.FailureLeaves` | backend/bracket/routes/stages.py:194-213 | A request that fails leaves nothing behind, but for the creation of a bracket of unknown size; an edit or assignment of a ranking whose reconciliation fails leaves nothing either. |
| `Runs.StepKeepsHealth` | backend/bracket/routes/stage_items.py:545-578 | A harmless request with the reconciliation after it, or inside its transaction where a ranking is edited or assigned, leaves a healthy database healthy, wherever the step stops. |
| `Runs.RunsStayHealthy` | backend/bracket/sql/match_sets.py:79-242 | All of that holds in every state a run of such steps passes through. |
| `Runs.RunsKeepOrder` | backend/bracket/routes/stage_items.py:80-96 | Over any run no two inputs of an item change places, and no id comes back as another input or item. |
| `Runs.HandleStep` | backend/bracket/routes/stage_items.py:545-578 | A request and its reconciliation as the program runs them: with one transaction around both, or one after the other. |
| `Runs.Serve` | backend/bracket/routes/stage_items.py:466-578 | The store serving a whole run, reconciliation included, ends in the run's final state, healthy and with the order of inputs kept. |
| `StageItems.UpdateStageItemById` | backend/bracket/routes/stage_items.py:511-578 | Updating an item as one request: the checks, then resize for the ranking, games, team count, row and completion in one transaction, rolled back on any error. |
| `StageItems.CreateStageItemIn` | backend/bracket/routes/stage_items.py:484-508 | Creating an item as the program does it: checks, row, empty inputs, rounds, matches; not one transaction, so a bracket of an unknown size leaves the item behind. |
| `StageItems.AdjustGamesPerPlayer` | backend/bracket/routes/stage_items.py:377-442 | Changing the games per player: rounds appended from the longer skeleton, or trailing rounds removed, or 400. |
| `StageItems.DefaultRanking` | backend/bracket/sql/rankings.py:72-83 | The ranking with the lowest position of the tournament, if there is one. |
| `StageItems.BareItemIsBare` | backend/bracket/sql/stage_items.py:14-64 | A new item starts with slots 1..team_count, without rounds or matches, and nothing else changes. |
| `StageItems.UpdateFrame` | backend/bracket/routes/stage_items.py:116-135 | An update changes no configuration but the item's own row, and there neither kind nor stage. |
| `ItemOutcome.UpdateOutcome` | backend/bracket/routes/stage_items.py:511-572 | Exactly when an update goes through, and its error otherwise, in the order in which it fails: item, parity, negative sets, fewer games over a started match, team count (legal size, started matches, empty slots, inputs still played), missing ranking. |
| `ItemOutcome.UpdateKeepsSets` | backend/bracket/routes/stage_items.py:545-572 | A match that stays keeps the scores and states of its sets; those of the item are resized to the new ranking, those of other items are untouched. |
| `ItemOutcome.CreationOutcome` | backend/bracket/routes/stage_items.py:484-508 | Exactly when a creation fails, and with which error. |
| `ItemOutcome.CreationStores` | backend/bracket/sql/stage_items.py:14-64 | The item is stored as asked, under the named or the first ranking, and everything that was there before is as it was; a creation refused early stores nothing. |
| `ItemSkeletons.CreationDraws` | backend/bracket/logic/scheduling/builder.py:65-97 | A new item whose standings decide its pairings has exactly the rounds of its skeleton, by age, all placeholders, and the matches of the k-th round are, by id, exactly its slot pairs with its bye as referee slot, and nothing else set. |
| `ItemSkeletons.UpdateDraws` | backend/bracket/routes/stage_items.py:401-423 | An update adds exactly the rounds by which the skeleton for more games is longer, drawn in the same way, none if it is not longer, whatever else the update changes. |
| `ItemSkeletons.NewSwissItemPlaysEnough` | backend/bracket/logic/scheduling/builder.py:65-97 | In a new Swiss item as the program builds it every position plays in at least as many matches as were asked for. |
| `SkeletonBuilders.BuildSwissSkeleton` | backend/bracket/logic/scheduling/swiss_skeleton.py:20-60 | The loops over rounds and pairs of the circle schedule, the pair with the extra number set aside as the bye. |
| `SkeletonBuilders.SwissRoundFits` | backend/bracket/logic/scheduling/swiss_skeleton.py:30-60 | In every Swiss round a position either sits out or plays exactly once; somebody sits out exactly when the count is odd. |
| `SkeletonBuilders.NoRematch` | backend/bracket/logic/scheduling/swiss_skeleton.py:20-60 | Rounds that are not a whole schedule apart pair nobody twice. |
| `SkeletonBuilders.EnoughGames` | backend/bracket/logic/scheduling/swiss_skeleton.py:30-60 | Every position plays at least the games asked for, with an even count exactly as many, and one round fewer would leave a position short. |
| `SkeletonBuilders.MexicanoRoundFits` | backend/bracket/logic/scheduling/mexicano_skeleton.py:20-36 | Every Mexicano round pairs each position once or lets it sit out, and there are as many rounds as for Swiss. |
| `ItemProgress.UpdateStageItemKeeps` | backend/bracket/routes/stage_items.py:545-572 | An update keeps the set-row invariant if and only if: with a ranking of another tournament, which the request accepts, no match the item keeps needed another count; matches that more games add were given what the new ranking asks for; and where the last step adds matches, the new ranking asks for a set. |
| `ItemProgress.UpdateStageItemKeepsParity` | backend/bracket/routes/stage_items.py:538-543 | An update keeps tenancy exactly when the ranking is of the tournament, and then the parity rules. |
| `ItemProgress.RankingChangeWithGrowthBreaks` | backend/bracket/routes/stage_items.py:548-566 | It does go wrong: a Mexicano item of four with its inputs and first round, as the program builds it; with a three-set ranking and a second game in one update, the added match gets one set row. |
| `ItemProgress.ForeignRankingBreaks` | backend/bracket/routes/stage_items.py:526-552 | And so it does with a ranking of another tournament: from a state that meets set rows and tenancy, the update to a foreign ranking of three sets succeeds, tenancy is gone, and a match keeps its one set row. |
| `ItemProgress.CreateStageItemKeeps` | backend/bracket/routes/stage_items.py:484-508 | A creation keeps the set-row invariant if and only if it creates no match or its ranking asks for a set; it fails after writing exactly on brackets of unknown size. |
| `ItemLayout.UpdateKeepsLayout` | backend/bracket/routes/stage_items.py:545-572 | Whatever one update changes together, afterwards every reference resolves, slots are 1..team_count in every item, tracked positions exist, and inputs stand in their old order. |
| `ItemLayout.UpdateLosesOnlyIdle` | backend/bracket/routes/stage_items.py:138-166 | An update loses exactly the empty inputs with the highest slots that a shrink takes and matches that had not started in the state before; every match that stays plays as before, none with a lost input. |
| `ItemLayout.UpdateReslots` | backend/bracket/routes/stage_items.py:80-96 | The same of one item in detail: its slots are 1..count, what went, what stayed in order, what other items keep. |
| `ItemLayout.UpdateKeepsIntact` | backend/bracket/routes/stage_items.py:545-572 | No update leaves a reference dangling, a team twice in an item or a match playing outside its item. |
| `ItemCompletion.UpdateCompletesRoundRobin` | backend/bracket/routes/stage_items.py:199-236 | A resized round robin ends with every two inputs playing: two that had matches keep exactly those, any other two get exactly one. |
| `ItemCompletion.UpdateSchedulesRoundRobin` | backend/bracket/routes/stage_items.py:183-236 | The added matches are in the rounds in which the table pairs them, first-named first; no two of one round share an input; as many rounds as it takes, new ones active. |
| `ItemCompletion.UpdateNeverCrashes` | backend/bracket/routes/stage_items.py:199-213 | From a healthy database an update is refused with 400 or 422 or by the database, never with 500. |
| `ItemCompletion.CompletionAddsExactly` | backend/bracket/routes/stage_items.py:568-572 | When the last step of an update adds a match, in terms a caller can check before: a bracket is resized, or a round robin some two of whose inputs will lack a match. |
| `ItemCompletion.FewerGamesTakeYoungest` | backend/bracket/routes/stage_items.py:424-442 | An update to fewer games per player takes exactly the youngest rounds of the item, down to those of the shorter skeleton, and none with a started match. |
| `ItemCreation.CreateKeepsLayout` | backend/bracket/routes/stage_items.py:484-508 | A creation, also one that fails half way, keeps references, slots, positions and order everywhere. |
| `ItemCreation.BracketOfSixStays` | backend/bracket/routes/stage_items.py:484-508 | The concrete half-way failure: a bracket of six is refused with 400 and yet stored, with six inputs, no round and no match. |
| `ItemCreation.CreatedRoundRobin` | backend/bracket/logic/scheduling/round_robin.py:38-62 | In a new round robin every two inputs have exactly one match. |
| `ItemCreation.CreatedRoundRobinRounds` | backend/bracket/logic/scheduling/round_robin.py:38-71 | And in no round does an input play twice; each match is the cell of the table in its row's round, and there are exactly as many rounds as the schedule needs. |
| `ItemBrackets.CreatedBracketStands` | backend/bracket/logic/scheduling/elimination.py:64-101 | A new bracket has, over its inputs by slot, the opening matches in the first round and then match after match between the winners of two matches of the round before, in active rounds, and no others. |
| `ItemBrackets.UpdatedBracketStands` | backend/bracket/routes/stage_items.py:568-572 | So has a resized bracket, over as many inputs as were asked for. |
| `ItemCreation.CreatedBracketNeverShrinks` | backend/bracket/routes/stage_items.py:285-295 | A new bracket of any size, all slots empty and nothing started, cannot be updated to any smaller legal size, whatever else the update changes: the inputs are deleted while the first round still refers to them. |
| `ItemCreation.BracketOfFourNeverShrinks` | backend/bracket/routes/stage_items.py:285-295 | The concrete case: create a bracket of four in an empty stage, update it to two, foreign key violation. |
| `GrowShrink.GrowThenShrink` | backend/bracket/routes/stage_items.py:545-572 | Growing an item that is no bracket by an update and shrinking it back by another succeeds and restores its inputs with slots and teams, its row and every old match with its sets; every table, unless the kind is round robin, whose top-up stays. |
| `StageItemResize.GetRemovedMatchIdsAndBlockingSlots` | backend/bracket/routes/stage_items.py:138-166 | The nested loops collect, round by round, the removable matches and the slots that started matches block. |
| `StageItemResize.UpdateStageItemInputSlots` | backend/bracket/routes/stage_items.py:80-96 | The listed inputs of the item are numbered from one in the order of the list. |
| `StageItemResize.AppendEmptyStageItemInputs` | backend/bracket/routes/stage_items.py:99-113 | Empty inputs are inserted at slots first..last, or a foreign key refuses the first of them. |
| `StageItemResize.ResizeNonEliminationStageItem` | backend/bracket/routes/stage_items.py:315-374 | The whole resize as the program does it, with every error case. |
| `StageItemResize.ShrinkOutcome` | backend/bracket/routes/stage_items.py:328-349 | In the middle of an update as well as alone, a shrink is refused with 400 if and only if, in the state as read, too few slots are empty or a started match plays with an input that would go; otherwise the result is given in closed form. |
| `StageItemResize.ShrinkLosesOnlyIdle` | backend/bracket/routes/stage_items.py:328-374 | A shrink loses only empty inputs and not-started matches of the item, and nobody tracks a position above the new count. |
| `StageItemResize.ShrinkSlots` | backend/bracket/routes/stage_items.py:367-373 | After a shrink the slots are 1..count and the surviving inputs stand in their old order. |
| `StageItemResize.RemovedFacts` | backend/bracket/routes/stage_items.py:328-340 | The inputs a shrink takes are empty, as many as asked, and no empty one that stays has a higher slot. |
| `StageItemResize.AppendedSlots` | backend/bracket/routes/stage_items.py:321-326 | Growing fills the slots right after the old ones. |
| `EliminationResize.ResizeSingleEliminationStageItem` | backend/bracket/routes/stage_items.py:239-312 | Resizing a bracket as the program does it: inputs first, then positions, the old matches and rounds. |
| `EliminationResize.BracketShrinkOutcome` | backend/bracket/routes/stage_items.py:260-312 | A bracket shrinks if and only if no match has started, enough slots are empty and no match plays with an input that goes; it fails on a foreign key in the last case and with 400 in the others. |
| `EliminationResize.BracketGrowOutcome` | backend/bracket/routes/stage_items.py:260-312 | A bracket grows if and only if the new size is a legal one and no match has started; then its slots are filled up and its old matches and rounds are gone. |
| `EliminationResize.FullBracketNeverShrinks` | backend/bracket/routes/stage_items.py:285-295 | With nothing started, enough empty slots and every slot playing, the shrink ends in a foreign key violation. |
| `Elimination.BuildEliminationMatches` | backend/bracket/logic/scheduling/elimination.py:64-101 | The builder's loops over rounds and matches, or 400 for a size that is no power of two up to 32. |
| `Elimination.BracketForm` | backend/bracket/logic/scheduling/elimination.py:13-84 | With 2^r inputs and r rounds the builder succeeds with exactly the bracket over the inputs by slot: pairs first, then a tree of matches between winners. |
| `Elimination.EveryInputPlaysOnce` | backend/bracket/logic/scheduling/elimination.py:13-35 | Every input of a built bracket plays in exactly one of its matches. |
| `Elimination.EveryMatchFeedsOnce` | backend/bracket/logic/scheduling/elimination.py:38-61 | Every match of a built bracket but the final feeds exactly one later match, the final none. |
| `RoundRobinRounds.AddMissingSchedules` | backend/bracket/routes/stage_items.py:215-236 | Every match a top-up adds is one cell of the table, in the round of its row, and no two new matches of a round share an input. |
| `RoundRobin.GetRoundRobinCombinations` | backend/bracket/logic/scheduling/round_robin.py:10-35 | The rotating list yields the closed-form table: in round r, position i holds i - r modulo the number of rounds. |
| `RoundRobin.EveryPairMeetsOnce` | backend/bracket/logic/scheduling/round_robin.py:10-35 | Any two of n teams are paired in exactly one place of the table. |
| `RoundRobin.NobodyMeetsHimself` | backend/bracket/logic/scheduling/round_robin.py:10-35 | No cell pairs a team with itself, and cells name only teams and the bye. |
| `RoundRobin.EnsureRoundCountForRoundRobin` | backend/bracket/routes/stage_items.py:183-196 | The loop ends, with as many rounds as the schedule needs. |
| `RoundRobin.TableTopsUp` | backend/bracket/routes/stage_items.py:215-236 | For any table of combinations: existing matches are untouched, pairs that had a match get no other, pairs that had none get at most one, and every pair the table lists has one. |
| `RoundRobin.TopUpOneCell` | backend/bracket/routes/stage_items.py:217-236 | The set of existing pairs mirrors the match table before and after every cell. |
| `RoundRobin.AddMissingRoundRobinMatches` | backend/bracket/routes/stage_items.py:199-236 | The whole top-up with its nested loops. |
| `RoundRobin.AddMissingCompletes` | backend/bracket/routes/stage_items.py:199-236 | After a top-up every two inputs have a match, exactly one if they had none, old matches are as they were, and a second top-up changes nothing. |
| `RoundRobin.AddMissingKeepsProgress` | backend/bracket/routes/stage_items.py:223-235 | A top-up keeps the set-row invariant exactly when the ranking asks for a set or no pair lacks a match. |
| `RoundRobin.NewItemIsTopUp` | backend/bracket/logic/scheduling/round_robin.py:38-71 | The builder of a new round robin, rounds first and then match by match, does what a top-up of the bare item does. |
| `MatchMoves.UpdateMatchById` | backend/bracket/routes/matches.py:317-361 | Editing a match as far as its round and court go: 404, 400 or the row written. |
| `MatchMoves.MoveStores` | backend/bracket/routes/matches.py:317-361 | Exactly when the edit goes through; then round and court are as named, the court none if that was named and its own if nothing was, and nothing else changes. |
| `MatchMoves.MoveKeepsProgress` | backend/bracket/sql/matches.py:143-168 | The set rows fit after a move exactly when the new round's ranking asks for as many sets as the old one's. |
| `MatchMoves.MoveLeavesSetsBehind` | backend/bracket/routes/matches.py:317-361 | That happens: an accepted edit moves a placeholder match to a round whose ranking asks for three sets; it keeps its one. |
| `MatchMoves.MoveKeepsShape` | backend/bracket/routes/matches.py:317-361 | A move keeps matches inside their items exactly when the round is one of the match's own item, or the match has no inputs and neither waits for another match nor is waited for. |
| `MatchMoves.FinalMovedAcross` | backend/bracket/routes/matches.py:317-361 | How feeding between items arises: one edit moves the final of a bracket of four into the round of another bracket. |
| `Progress.StepsMoveOneSet` | backend/bracket/logic/match_sets/pointer.py:22-52 | When each step is possible, in terms of the derived states, and that it keeps the pointer inside its n sets and changes the state of exactly the sets its name says. |
| `Progress.EndReopenInverse` | backend/bracket/logic/match_sets/pointer.py:38-47 | Reopen undoes end; end undoes reopen exactly when no set was open. |
| `Progress.MatchStatesAgree` | backend/bracket/models/db/match.py:64-83 | The state computed from the list of set states equals the state computed from the pointer whenever the rows are 1..n and the pointer fits them. |
| `Progress.MatchStateMeans` | backend/bracket/models/db/match.py:64-83 | Not started: no set has. Over: every set is completed, or no set is open, not all are to be played and a side has won more than half of several. |
| `Progress.MatchStatesCanDiffer` | backend/bracket/logic/match_sets/pointer.py:8-19 | Without that fit the two computations disagree: a concrete match that the list calls over and the pointer calls being played. |
| `Progress.NotStartedIsReset` | backend/bracket/models/db/match.py:80-83 | A match counts as not started exactly when its pointer is the reset pointer. |
| `Progress.IdleIsNotStarted` | backend/bracket/models/db/match.py:77-79 | A reset pointer derives to not started whatever the number of sets and the play-all rule. |
| `Migration.DowngradeThenUpgrade` | backend/alembic/versions/b4e8f2a1c9d7_match_set_pointer.py:39-67 | States from a pointer, for any set numbers, and back to a pointer: the identity exactly on pointers into those numbers. |
| `Migration.UpgradeThenDowngrade` | backend/alembic/versions/b4e8f2a1c9d7_match_set_pointer.py:87-99 | Pointer from states and back to states is the identity exactly when completed sets come first, the open set directly after the last of them, and, with none completed, no set has a number below one. |
| `Migration.NormaliseIsStable` | backend/alembic/versions/b4e8f2a1c9d7_match_set_pointer.py:39-67 | On arbitrary states the round trip takes no completed set away and keeps the pointer exactly when it points at sets that exist; then the result has that shape and repeating the trip changes nothing. |
| `Migration.RangeIsStable` | backend/alembic/versions/b4e8f2a1c9d7_match_set_pointer.py:39-67 | For rows numbered 1..n, as the program creates them, that is always so; afterwards only sets that have not started come after one that is not completed. |
| `Migration.MigratedTables.Upgrade` | backend/alembic/versions/b4e8f2a1c9d7_match_set_pointer.py:19-70 | The upgrade of the whole table: columns added with defaults, filled from the states, state column dropped; the CHECK refuses a last completed set of negative number and nothing else. |
| `Migration.MigratedTables.Downgrade` | backend/alembic/versions/b4e8f2a1c9d7_match_set_pointer.py:73-103 | The downgrade of the whole table. |
| `Migration.DowngradeAndUpgrade` | backend/alembic/versions/b4e8f2a1c9d7_match_set_pointer.py:19-103 | Downgrade followed by upgrade keeps a match's pointer if and only if it points into the match's set numbers. |
| `MatchSets.SqlCreateMatch` | backend/bracket/sql/matches.py:94-140 | Creating a match inserts the match with defaults and its set rows together, or fails on a foreign key and changes nothing. |
| `MatchSets.WithMatchFits` | backend/bracket/sql/match_sets.py:79-92 | A match that is added fits its ranking exactly when the ranking asks for at least one set; every other match keeps fitting. |
| `MatchSets.CreateMatchFits` | backend/bracket/sql/matches.py:129-138 | The same of the statement that creates a match. |
| `MatchSets.RowCountIsNumSets` | backend/bracket/sql/matches.py:393-412 | Under the invariant the row count the progress steps read is the ranking's number of sets. |
| `MatchSets.SqlStartMatch` | backend/bracket/sql/matches.py:446-452 | Start as one request: refused with nothing changed, or the pointer step carried out. |
| `MatchSets.StartsExactly` | backend/bracket/sql/matches.py:446-452 | A match can be started if and only if it exists, has a set, none of its sets is being played and it is not over; else the error is named. |
| `MatchSets.EndsExactly` | backend/bracket/sql/matches.py:455-464 | A set can be ended if and only if one is being played, and reopened if and only if one is completed. |
| `MatchSets.StepsTouchOneMatch` | backend/bracket/sql/matches.py:430-494 | Start, end and reopen change the pointer of that match only, a reset its pointer, time and scores only. |
| `MatchSets.EditsOneScore` | backend/bracket/sql/match_sets.py:95-123 | A score edit stores both sides of one set where they belong, and no other set of any match changes. |
| `MatchSets.SqlEndMatch` | backend/bracket/sql/matches.py:455-458 | End as one request: lock, step, write. |
| `MatchSets.SqlReopenMatch` | backend/bracket/sql/matches.py:461-464 | Reopen as one request: lock, step, write. |
| `MatchSets.SqlResetMatch` | backend/bracket/sql/matches.py:467-494 | Reset as one request: scores, pointer and completion time together. |
| `MatchSets.ResetStartsOver` | backend/bracket/sql/matches.py:467-494 | A reset match keeps its set rows, all at 0-0, has no completion time and derives to not started. |
| `MatchSets.StepsKeepProgressOk` | backend/bracket/sql/matches.py:446-494 | Start, end, reopen, reset and score edits keep the set-row invariant of the whole database. |
| `SetResize.SqlDeleteTrailingSets` | backend/bracket/sql/match_sets.py:148-167 | Rows above the kept count go and the pointer is cut back; a negative count is refused by the CHECK constraint. |
| `SetResize.ResizeSetsForMatches` | backend/bracket/sql/match_sets.py:212-220 | The loop over match ids does to all of them what the simultaneous resize says, or stops at the first CHECK violation. |
| `SetResize.SqlResizeSetsForRanking` | backend/bracket/sql/match_sets.py:223-231 | Resizes exactly the matches below the ranking, or nothing when the counts are equal. |
| `SetResize.SqlResizeSetsForStageItem` | backend/bracket/sql/match_sets.py:234-242 | The same for the matches of one stage item. |
| `SetResize.ResizeOneFits` | backend/bracket/sql/match_sets.py:126-167 | One match: after a resize rows and pointer fit the new count, surviving sets keep score and derived state, added sets have not started at 0-0. |
| `SetResize.ResizeOneTwice` | backend/bracket/sql/match_sets.py:126-167 | One match: growing and shrinking back is the identity; shrinking twice is shrinking to the smaller count. |
| `SetResize.ResizedFits` | backend/bracket/sql/match_sets.py:212-220 | A whole group: every listed match fits afterwards and no other match changes. |
| `SetResize.ResizesExactly` | backend/bracket/sql/match_sets.py:212-220 | A group resize is refused only for a negative number over some match; else every listed match has exactly the new sets, old ones with score and state, new ones idle at 0-0, and no other match is touched. |
| `SetResize.GrowShrink` | backend/bracket/sql/match_sets.py:212-220 | A whole group: growing and shrinking back restores the database. |
| `SetResize.ShrinkShrink` | backend/bracket/sql/match_sets.py:212-220 | A whole group, each with its own old count: shrinking to n and then to a smaller count equals shrinking there at once. |
| `SetResize.ResizeGroups` | backend/bracket/sql/match_sets.py:212-242 | Resizing two disjoint groups one after the other is resizing their union at once. |
| `Rankings.NormaliseRules` | backend/bracket/routes/rankings.py:38-62 | A best-of-n ranking is stored odd and without draws or refused with 422; other bodies are stored as they are. |
| `Rankings.UpdateRankingById` | backend/bracket/routes/rankings.py:74-135 | Editing a ranking as one request: all checks in order, the row and the set rows together, rolled back on error. |
| `Rankings.EditGoesThrough` | backend/bracket/routes/rankings.py:74-119 | Exactly when an edit goes through, and its error otherwise: best-of-n of an even number, a bracket on an even number, a started match without force, no such ranking, a negative number over a match. |
| `Rankings.EditStores` | backend/bracket/routes/rankings.py:121-129 | Then every column of the body is stored, draws only where they make sense, each match below is resized, and nothing else changes. |
| `Rankings.UpdateRankingKeeps` | backend/bracket/routes/rankings.py:121-129 | Whatever the old and new counts, negative ones included, after a successful edit every match has exactly the rows and the pointer range of its ranking. |
| `Rankings.EditThenMatch` | backend/bracket/routes/rankings.py:121-129 | After a successful edit the next match created under the ranking fits if and only if the edit asked for at least one set, which the request does not check. |
| `Rankings.ZeroSetsBreakTheNextMatch` | backend/bracket/routes/rankings.py:74-135 | That happens: a round robin of two as built; the edit to zero sets succeeds without force, and the next match has a set row its ranking does not ask for. |
| `Rankings.UnforcedEditKeepsPointers` | backend/bracket/routes/rankings.py:98-119 | An edit that succeeds without force leaves every match row, pointers included, as it was. |
| `Rankings.UnforcedEditKeepsStates` | backend/bracket/routes/rankings.py:98-119 | An edit that succeeds without force changes the derived state of no match, also when the play-all rule changes. |
| `Rankings.UpdateRankingKeepsParity` | backend/bracket/routes/rankings.py:82-90 | Edits keep: no elimination item plays an even number of sets, and stored best-of-n rankings are odd without draws. |
| `Rankings.CreateRankingIn` | backend/bracket/routes/rankings.py:150-165 | Creating a ranking as one request: normalised, at the next position, or refused. |
| `Rankings.CreateRankingStores` | backend/bracket/routes/rankings.py:150-165 | Exactly when a creation goes through; then the rules are stored as asked, one past the last position or at zero as the first. |
| `Deletion.RankingGoes` | backend/bracket/sql/rankings.py:236-240 | A ranking of the tournament goes with the scoring rows that name it, exactly when no item uses it. |
| `Rankings.CreateRankingKeeps` | backend/bracket/routes/rankings.py:150-165 | A new ranking changes nothing for any match and keeps the parity rules and tenancy. |
| `Rankings.NewRankingIsLast` | backend/bracket/routes/rankings.py:150-165 | The new ranking's position is above that of every ranking of its tournament. |
| `Rankings.ResizeItemsForMove` | backend/bracket/routes/stages.py:194-206 | The loop over the stage's items resizes each from its own old count; together this is one simultaneous resize. |
| `Rankings.SetRankingForStageItems` | backend/bracket/routes/stages.py:170-208 | Reassigning a stage as one request: refused, or all items and all their set rows change together. |
| `Rankings.SetRankingForStageStores` | backend/bracket/routes/stages.py:170-208 | A reassignment goes through exactly when stage and ranking are of the tournament, no bracket would play an even number and the number is not negative over a match; then every item of the stage has the ranking, its matches are resized, and everything else is as it was. |
| `Rankings.SetRankingForStageKeeps` | backend/bracket/routes/stages.py:194-208 | Beyond its checks a reassignment fails only on a ranking of a negative number of sets, and keeps set rows, tenancy and parity. |
| `ApplyPlan.ClearsAre` | backend/bracket/logic/apply_plan.py:35-39 | The clears are exactly the inputs that give up a team, each written as NULL. |
| `ApplyPlan.EveryPrefixUnique` | backend/bracket/logic/apply_plan.py:24-40 | If the final table has unique teams per item, so has the table after every prefix of the ordered writes. |
| `ApplyPlan.TryWritesForm` | backend/bracket/sql/stage_item_inputs.py:75-91 | Writes under UNIQUE(stage_item_id, team_id) and the foreign key on teams get through exactly when every prefix is unique and every write that hits a row names an existing team. |
| `ApplyPlan.AssignmentsOutcome` | backend/bracket/logic/apply_plan.py:24-40 | The ordered writes of a batch get through if and only if the simultaneous assignment is unique and names existing teams; then the table is that assignment. |
| `ApplyPlan.WriteAssignments` | backend/bracket/logic/apply_plan.py:67-70 | The loop of ordered writes, up to the first that the database refuses. |
| `ApplyPlan.WriteOthers` | backend/bracket/logic/apply_plan.py:55-65 | The loop over the other plan items, each with its own statement and its own way to fail. |
| `ApplyPlan.Apply` | backend/bracket/logic/apply_plan.py:43-70 | The whole plan in one transaction: fully written, or the named error with the database unchanged. |
| `PlanWrites.PlanGoesThrough` | backend/bracket/logic/apply_plan.py:43-70 | A plan goes through if and only if the rows and teams it refers to exist and the teams it ends with are unique per item. |
| `PlanWrites.PlanIsWritten` | backend/bracket/logic/apply_plan.py:43-70 | Then a match has the inputs of the last item that names it with its own round, its last referee and with one no free-text referee; an input of the tournament its last statistics and team; a round of the tournament its last state; and no other column has changed. |
| `ApplyPlan.SwapWithoutClearsCollides` | backend/bracket/logic/apply_plan.py:24-40 | Why the clears are needed: swapping two teams without them, or with a stale previous team, violates uniqueness at the first write. |
| `PlanHealth.PlanKeepsHealth` | backend/bracket/logic/apply_plan.py:43-70 | Whatever else a plan writes and however it trades teams, if it keeps to the inputs of a match's own item and to referees and teams of the tournament, a healthy database stays healthy. |
| `Deletion.DeletesKeepForeignKeys` | backend/bracket/schema.py:83-365 | Each DELETE statement, with CASCADE and SET NULL carried out and other references refused, leaves every foreign key intact. |
| `Cascades.SqlDeleteStageItemWithForeignKeys` | backend/bracket/sql/shared.py:22-31 | Deleting an item succeeds exactly when no other item's match is fed by or plays with it; all foreign keys hold before and after, and a failure changes nothing. |
| `Cascades.DependentsBecomeEmpty` | backend/bracket/sql/stage_item_inputs.py:94-107 | Inputs of other items that drew their team from the deleted item are empty slots afterwards; the rest are unchanged. |
| `TournamentDeletion.SqlDeleteStage` | backend/bracket/sql/stages.py:106-124 | Deleting a stage with its items in one transaction, in whatever order the query lists them, keeping every foreign key. |
| `TournamentDeletion.StageDeletionWorks` | backend/bracket/sql/stages.py:106-124 | It succeeds if and only if each of the stage's items is used only by itself and by items listed before it, whatever the listing; then exactly the stage, its items and everything below them are gone, otherwise a foreign key refuses it. |
| `TournamentDeletion.SqlDeleteTournamentCompletely` | backend/bracket/logic/tournaments.py:27-52 | The nested loops of phases carry out the function the next row is about, keeping every foreign key after every statement. |
| `TournamentDeletion.DeleteCompletelyWorks` | backend/bracket/logic/tournaments.py:27-52 | For a tournament nothing outside refers to, the phased deletion succeeds if and only if no match feeds a match of an item visited later; then exactly the tournament's rows are gone. |
| `TournamentDeletion.FeedingInsideItems` | backend/bracket/logic/tournaments.py:31-33 | In particular it succeeds whenever matches are fed only by matches of their own item. |
| `TournamentDeletion.FeedingAcrossItemsBlocks` | backend/bracket/logic/tournaments.py:31-33 | Two brackets as built, one match moved between them: every reference and every set row is in order, and the tournament cannot be deleted. |
| `TournamentDeletion.MatchPhaseForm` | backend/bracket/logic/tournaments.py:31-33 | The first phase gets through exactly when feeding never runs backwards; then the matches of the visited items are gone and nothing else. |
| `TournamentDeletion.RelationPhaseForm` | backend/bracket/logic/tournaments.py:35-37 | The second phase never fails once no match uses the items' rounds or inputs. |
| `TournamentDeletion.StagePhaseForm` | backend/bracket/logic/tournaments.py:39-43 | The third phase never fails once nothing but matches could refer to the items. |
| `Removals.ItemRemovalKeepsHealth` | backend/bracket/sql/shared.py:22-31 | From a healthy database an item can always be deleted, and the database stays healthy. |
| `Removals.StageRemovalKeepsHealth` | backend/bracket/routes/stages.py:94-103 | So can a stage of the tournament, whatever is in it and in whatever order its items are listed. |
| `Removals.TournamentRemovalKeepsHealth` | backend/bracket/logic/tournaments.py:27-52 | So can a tournament, without further assumption; exactly its rows are gone and the rest stays healthy. |
| `Removals.LocalCloses` | backend/bracket/schema.py:83-365 | Why: where every row refers inside its tournament, nothing outside a tournament refers into it, over all tables that carry references. |
| `ScoreTracking.ViewIsPointer` | frontend/src/logic/score_tracking.ts:9-32 | Searching the list of derived states gives what arithmetic on the pointer gives, for every number of sets. |
| `ScoreTracking.VisibleAreCompleted` | frontend/src/logic/score_tracking.ts:34-40 | The visible sets of a completed match are exactly its first completed_set_count sets, those of any other match all sets. |
| `ScoreTracking.CompareIsAnOrder` | frontend/src/logic/score_tracking.ts:77-84 | The schedule comparison is a strict total order on matches with different ids. |
| `ScoreTracking.ComparesSchedule` | frontend/src/logic/score_tracking.ts:77-84 | Matches with a start come before those without, earlier starts first, equal starts by id. |
| `ScoreTracking.GetNextMatchOnCourt` | frontend/src/logic/score_tracking.ts:88-105 | Sort and scan find, in that order written out, the first match on the court that is not completed and comes after the current one, and null exactly when there is none. |
| `ScoreTracking.NextIgnoresOrder` | frontend/src/logic/score_tracking.ts:88-105 | The answer does not depend on the order of the input list. |
| `ScoreTracking.GateFacts` | frontend/src/logic/score_tracking.ts:107-128 | The end-set gate does not depend on how the sides are displayed, and without draws it lets only decided sets end. |
| `ScoreTracking.GateOpens` | frontend/src/logic/score_tracking.ts:107-128 | A set may be ended exactly when a side has reached the limit, the other one for the last set where there is one, leads by two where that is asked for, and is not level where draws are not allowed. |
| `ScoreTracking.BestOfNDecides` | frontend/src/logic/score_tracking.ts:118-127 | Under a stored best-of-n ranking, sets ended through the gate all have a winner; at most one side has a majority, never before (n + 1) / 2 sets, never lost again, and there is one after n sets. |
| `Colours.StringToColour` | frontend/src/logic/colors.ts:56-76 | The loop computes the hash and picks a colour of the palette. |
| `Colours.HashIsPolynomial` | frontend/src/logic/colors.ts:57-61 | Although only the shift wraps, the hash is the base-31 polynomial of the character codes modulo 2^32. |
| `Colours.HashStep` | frontend/src/logic/colors.ts:57-61 | Per character only the shifted hash is cut to a signed word, not the sum. |
| `Colours.ColourAt` | frontend/src/logic/colors.ts:75 | The colour is the one at the remainder of the hash's magnitude by the number of colours, and at no other place of the palette. |
| `Colours.HashIsBounded` | frontend/src/logic/colors.ts:57-61 | Its absolute value is at most length * (2^31 + 65535). |
| `Colours.HashIsExact` | frontend/src/logic/colors.ts:57-61 | Up to 4194176 characters every intermediate value is exact as a double. |
| `NaturalSort.SplitAlternates` | backend/bracket/utils/sorting.py:6-16 | The split loses nothing and alternates text without decimal digits and runs of decimal digits, for any character table. |
| `NaturalSort.KeyExists` | backend/bracket/utils/sorting.py:13-16 | A name has a key if and only if no stretch of it between decimal digits or its ends consists of digits that are not decimal; on the others the conversion raises. |
| `NaturalSort.SuperscriptRaises` | backend/bracket/utils/sorting.py:13-16 | There are such names: a one followed by a superscript two. |
| `NaturalSort.KeysAreComparable` | backend/bracket/utils/sorting.py:11-15 | Two keys can always be compared: text never meets a number. |
| `NaturalSort.NamesArePreordered` | backend/bracket/utils/sorting.py:6-16 | Comparison by key is total and transitive on the names that have keys, whatever the case folding. |
| `NaturalSort.TextsCompareFolded` | backend/bracket/utils/sorting.py:13-16 | Names without decimal digits compare as folded text. |
| `NaturalSort.NumbersSortNumerically` | backend/bracket/utils/sorting.py:7-9 | Names that differ in a trailing number of decimal digits sort by its value. |
| `SideSwitch.ReminderEveryNPoints` | frontend/src/logic/side_switch.ts:16-43 | Over k single points from zero the reminder comes up exactly k / n times, however dismissals are interleaved; never without a threshold. |
| `SideSwitch.DismissalLasts` | frontend/src/logic/side_switch.ts:23-43 | After a dismissal at T the reminder does not come back at T while the score stays at or below T and nobody dismisses again. |
| `SideSwitch.PassingForgets` | frontend/src/logic/side_switch.ts:28-30 | Going past T forgets the dismissal. |

## Left out

- Runs.StepKeepsHealth: what reconciliation computes (standings, pairings, winners) is a parameter: the plans it arrives at, which keep to their tournament; recalculated statistics are not modelled. The deletion of a tournament is no transaction, but from a healthy database it does not fail. The checks of the routes on users, limits and archived tournaments are not part of this model.
- Requests.Handle: one request without what follows it; with its reconciliation it is `Runs.HandleStep`.
- StageItems.UpdateStageItemById: the transaction; the reconciliation after it is `Runs.HandleStep`, start times are not modelled.
- Rankings.UpdateRankingById: the reconciliation inside the transaction is `Runs.HandleStep`.
- Rankings.SetRankingForStageItems: the reconciliation of the stage's items is `Runs.HandleStep`.
- StageItems.AdjustGamesPerPlayer: the skeleton builders are a parameter here, any function from kind, team count and games to rounds; the program's two are in `SkeletonBuilders`.
- StageItems.CreateStageItemIn: the limit on items per subscription and creation from a stage template, which skips the parity check, are not part of this model.
- StageItems.DefaultRanking: positions may tie; then the database may return any of them, the model takes the lowest id.
- MatchMoves.UpdateMatchById: round and court only; durations, the referee and the reordering of the court's schedule are not part of this model.
- TournamentDeletion.DeleteCompletelyWorks: assumes that nothing outside the tournament refers into it, apart from feeding between matches, which is what its condition is about; items of equal name are visited in id order.
- ScoreTracking.GetNextMatchOnCourt: start times are integers, and the runtime's sort is an insertion sort; with distinct ids every correct sort gives the same list.
- NaturalSort.KeyExists: the character tables of Unicode are a parameter, of which only what the proofs need is assumed.
- SideSwitch.ReminderEveryNPoints: the transition function only; the screen also resets it when another set becomes active.
- A set is named by its match and its number; the surrogate ids of set rows are not modelled.
- The computations inside reconciliation (standings, resolving placeholder rounds, moving winners), assigning a team or a tracked position to one input by hand, and the schedule planner.
- Names beyond the order they list stage items in, colours of levels, schedule columns, scoring tables beyond their reference to a ranking, name, scoring type and side-switch threshold of rankings, users and clubs.
- HTTP routing, authentication, validation of request bodies beyond what the modelled code relies on, file uploads, logging.
- Concurrency: row locks are not modelled, requests run one after the other. Integer columns are unbounded.
