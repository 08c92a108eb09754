# Verified model of the beerengineer_ engine core

The engine takes an item through brainstorming, planning, execution and review. Each stage is
a loop between a stage agent, the user and a review agent; a scheduler starts runs under a
worker cap; runs that lost their worker are recovered; a plan can be replaced while its history
is kept; prompts and answers travel over an in-process bus; and a broken run can be resumed from
what it left on disk. This project models that control core in Dafny and proves what its runs
keep, for every behaviour of the agents, the user, the clock and the file system.

`dafny verify dfyconfig.toml` checks the whole project.

## How the models are built

- Where the engine changes an object step by step (a stage run, the worker controller, the run
  and item tables, the port table, the bus, the answer resolver, the plan's waves, the run
  directory) there is a class with those fields and one method per source function. Every method
  is proved to compute a function on values, and the theorems are lemmas about those functions.
- Agents, review agents, users, listeners, stage bodies, wave bodies, the host's `Number` and
  `toLowerCase`, and every failing file or database step are arbitrary functions or arbitrary
  lists, so a statement about all of them covers every adaptive behaviour.
- Interleavings are lists of atomic steps. A step ends where the source first awaits.
- Automatic induction is off for every lemma: a proof by induction shows its own recursive call.

| file | models |
|---|---|
| `StageRuntime.dfy` | `stageRuntime.ts`, `stageRuntimeSupport.ts`: draft, ask, review, revise |
| `StageUserReview.dfy` | `stageWithUserReview.ts`: the approve or revise gate around a stage |
| `WorkerAdmission.dfy`, `WorkerCap.dfy` | `workerAdmission.ts`: queue, reservations, cap |
| `OrphanRecovery.dfy` | `orphanRecovery.ts`: lost workers, item projection, startup pass |
| `ReplanHistory.dfy`, `ReplanActivation.dfy` | `replan.ts`: renaming, history, activation and undo |
| `PlanValidator.dfy` | `planValidator.ts`: which waves may run in parallel |
| `WaveExecution.dfy` | the wave loop of `waveExecution.ts`: order, checkpoints, resume |
| `ProjectPipeline.dfy` | `projectStageRegistry.ts`, `runProjectStages`: eight stages, run or loaded |
| `ResumeScope.dfy` | `recovery.ts`, `resume.ts`, the `normalize…Resume` functions of `workflow.ts` |
| `CliAnswers.dfy`, `EventBus.dfy` | `ioCli.ts`, `bus.ts`: who gets which answer |
| `Conversation.dfy`, `Messages.dfy` | `conversation.ts`, `listProjectedMessages`: what is shown of the log |
| `PortAllocator.dfy`, `BranchNames.dfy` | `portAllocator.ts`, `branchNames.ts`, `itemIdentity.ts` |
| `Outcomes.dfy`, `Text.dfy`, `Ordering.dfy`, `Arithmetic.dfy` | shared: results, numerals and trimming, sorting, maximum |

## Where the code differs from what it promises

Each of these is a lemma: the exact condition under which the promise holds, and where it helps
a concrete case in which it does not.

- The parallelism pass says its caller persists the plan afterwards. Planning writes the plan
  file first and serializes unsafe waves only in memory, so a resume behind planning hands them
  on as parallel again (`ProjectPipeline.ParallelFlagComesBack`, `ResumeRefinesTheRun`).
- A resume loads wave summaries in plan order by wave number, execution returns them in
  execution order; the two agree exactly when the plan lists its waves in execution order and
  numbers them apart (`WaveExecution.SummariesReloadInOrder`, `SummariesCanComeBackSwapped`).
- A resume prefers the PRD file a prepared import wrote for the project over the `prd.json` the
  requirements stage wrote (a condition of `Faithful` in `ResumeRefinesTheRun`;
  `ImportedPrdComesBack`), and it does not set the `supabase` flag again (`SupabaseFlagOnResume`).
- A failed replan does not put the overwritten plan file back; the exact state of that file, of
  the moved trees and of the history is in `ReplanActivation.ReplanStore.Activate`, a case in
  `FailureKeepsTheNewPlan`.
- Renaming a replacement plan can add a dependency when a dangling one is spelled like a new id
  (`ReplanHistory.RenamingCanAddADependency`).
- The transcript is called lossless in the sense that every event becomes an entry. A prompt
  without an id has no entry although its chat text was folded away
  (`Conversation.FoldingLosesOnlyToAnonymousPrompts`, `AnAnonymousPromptLosesItsQuestion`).
- The worker cap is clamped to at least 1, but NaN passes through the clamp
  (`WorkerCap.CapAdmitsOneWorker`). The engine's own call filters numbers that are not finite, so
  this concerns other callers of the exported function.
- A start enqueued while an earlier launch of its run is in flight is dropped when that launch
  settles, and never invoked (`WorkerAdmission.StartIsDroppedWhen`, `DroppedForGood`,
  `SecondStartIsDropped`).
- A run resumed directly holds no slot while its row still says blocked or failed, so two resumes
  that each found capacity can exceed the cap (`WorkerAdmission.CapacitySafety`,
  `TwoResumesCanExceedTheCap`); runs that are started or queued keep it (`CapacityOverLives`).
- An exhausted port pool leaves a failed stage run whose recovery record says blocked
  (`StageRuntime.RecordAgreesUnlessPortPool`, `NoPortLeavesABlockedRecord`), and the user review gate leaves no recovery record
  when its rounds run out, which it does when the user wants every round revised
  (`StageUserReview.SessionEnds`, `ARevisionCanEndTheSession`).
- The preview code spells the item branch by hand; it meets the engine's own name only for
  titles with a letter or digit, or ids that are slugs (`BranchNames.PreviewNameAgrees`,
  `PreviewCanNameAnotherBranch`).
- `answer` can return true for an answer that a listener has overtaken
  (`EventBus.ListenerCanOvertake`), and a listener that throws keeps the answer from the request
  (`EventBus.ThrowingListenerStopsTheAnswer`). A listener that throws while a request is made
  rejects it and leaves its entry, so a later answer returns true and changes nothing
  (`RejectedRequestIgnoresTheAnswer`).
- The end of stdin reads as a choice when a prompt offers an action named like the sentinel
  (`CliAnswers.EndOfInputIsNoAnswer`).
- A start is invoked at most once even when a run id is enqueued again or admitted directly: no
  assumption about ids is needed (`WorkerAdmission.StartsAreSingleShot`).

## Model

| member | source | states |
|---|---|---|
| `StageRuntime.LoopIsBounded` | apps/engine/src/core/stageRuntime.ts:246-294 | With k possible agent messages a stage run makes at most 1 + 2k + max(0, maxReviews - 1) agent steps, 2k questions and max(1, maxReviews) reviews, whatever agent, user and review agent do |
| `StageRuntime.FreshQuestionsNeverEnd` | apps/engine/src/core/stageRuntime.ts:372-413 | The finite message set is needed: an agent that never repeats itself keeps an answering user busy for any number of rounds |
| `StageRuntime.TurnKeeps` | apps/engine/src/core/stageRuntime.ts:260-293 | One round of the loop keeps the loop invariant and spends fuel, or ends the run in one of the allowed ways |
| `StageRuntime.ReviewHistoryIsFaithful` | apps/engine/src/core/stageRuntimeSupport.ts:43-77 | Over a whole run: the n-th review call has cycle n, is final iff n >= maxReviews, and gets exactly the n-1 earlier revisions in order; each agent call answers what the agent said before it, with the user's own reply (never the sentinel) or the review agent's own feedback; the questions put to the user are the agent's messages in order, and the log holds his replies |
| `StageRuntime.StageRunEndsFor` | apps/engine/src/core/stageRuntime.ts:219-348 | Every run ends for one of the reasons there are (a cancellation seen, an agent, user, storing or review that throws, a question asked twice before, the sentinel, a pass, a block, the review limit), each with its status, record and error; the wrapper adds exactly the failed record |
| `StageRuntime.SentinelBlocksTheRun` | apps/engine/src/core/stageRuntime.ts:427-445 | A reply that is the sentinel ends the run, blocked with cause `stage_error` unless it is cancelled just then; no reply before the last is one |
| `StageRuntime.CancellationEndsTheRun` | apps/engine/src/core/stageRuntime.ts:165-348 | The first check that sees a cancellation is the run's last step and ends it in a cancellation; a run that returns was checked at every place: twice around each agent call, after each reply, four times a review round, and twice around its approval |
| `StageRuntime.LogTellsTheRun` | apps/engine/src/core/stageRuntime.ts:246-348 | The last status in the log is the run's, each artifact is in it once with exactly the files written for it, and a run that returns has exactly one passed review |
| `StageRuntime.ExitAccounting` | apps/engine/src/core/stageRuntime.ts:219-244 | A stage run returns only when approved, with agent turns = user turns + reviews; every throw but a cancellation leaves it blocked or failed with exactly one recovery record; an approved run returns exactly when `onApproved` succeeds and it is not cancelled |
| `StageRuntime.RecordAgreesUnlessPortPool` | apps/engine/src/core/stageRuntime.ts:181-243 | Run status and record status agree on "failed" exactly when the body did not throw an exhausted port pool on a run it had not blocked |
| `StageRuntime.NoPortLeavesABlockedRecord` | apps/engine/src/core/stageRuntime.ts:219-244 | A stage whose agent finds no port is failed while its record says blocked |
| `StageRuntime.ReviewLimitMeansAllRevised` | apps/engine/src/core/stageRuntime.ts:379-394 | The review limit is the cause only after max(1, maxReviews) reviews that all asked for a revision |
| `StageRuntime.StageRun.AdvanceStageAgent` | apps/engine/src/core/stageRuntime.ts:165-179 | The whole new state of one agent step between two cancellation checks |
| `StageRuntime.StageRun.CountPriorIdenticalPrompts` | apps/engine/src/core/stageRuntime.ts:372-377 | The loop counts exactly the logged prompts with this text |
| `StageRuntime.StageRun.ContinueAfterUserMessage` | apps/engine/src/core/stageRuntime.ts:405-455 | The run object ends in the state the prompt turn specifies: cap, question, sentinel, answer |
| `StageRuntime.StageRun.RequestRevision` | apps/engine/src/core/stageRuntime.ts:379-403 | Likewise for a requested revision and the review limit |
| `StageRuntime.StageRun.HandleReviewOutcome` | apps/engine/src/core/stageRuntime.ts:307-348 | Likewise for pass, block and revise |
| `StageRuntime.StageRun.PersistRunArtifacts` | apps/engine/src/core/stageRuntime.ts:296-305 | A throw of `persistArtifacts` comes before the cancellation check, a throw of writing the files after it; otherwise one log entry per written file, in order |
| `StageRuntime.StageRun.ReviewArtifact` | apps/engine/src/core/stageRuntime.ts:266-293 | The artifact half of a round in place |
| `StageRuntime.StageRun.RunStageBody` | apps/engine/src/core/stageRuntime.ts:246-294 | The `while (true)` loop terminates and computes the specified run |
| `StageRuntime.StageRun.RunStage` | apps/engine/src/core/stageRuntime.ts:219-244 | The wrapper adds status failed and one record exactly when the body threw without blocking |
| `StageUserReview.StageRunsAreBounded` | apps/engine/src/core/stageWithUserReview.ts:132-179 | Between 1 and max(0, maxUserReviewRounds) + 1 stage runs, the i-th under the base id with `-rev<i>`, no two under the same run id |
| `StageUserReview.StateIsCarriedOver` | apps/engine/src/core/stageWithUserReview.ts:43-56 | Field by field: the i-th later run has the history and clarification limit the run before ended with, the i-th feedback the gates accepted pending, round number i, and as many clarifications counted as allowed; the first run starts fresh |
| `StageUserReview.SessionEnds` | apps/engine/src/core/stageWithUserReview.ts:132-179 | From stages and replies: each run is that of its stage, and a gate nobody answers adds the blocked status, its log entry and its record; the last round is the first not revised, or the one that uses up the rounds, and what the session returns or throws is iff by iff what its stage, its gate or `onUserApprove` says; earlier runs are approved without records; the rounds run out iff every round is approved and revised, and then the last run is approved without a record |
| `StageUserReview.ARevisionCanEndTheSession` | apps/engine/src/core/stageWithUserReview.ts:169-175 | A session with no further round allowed that one revision ends, leaving an approved run and no record |
| `StageUserReview.RevisionIsHeard` | apps/engine/src/core/stageWithUserReview.ts:110-112 | "revise:" in any letter case followed by any text asks for a revision with exactly the trimmed text |
| `StageUserReview.ApprovalIsHeard` | apps/engine/src/core/stageWithUserReview.ts:66-113 | A reply approves iff it is the word, trimmed and in any letter case; it counts as no answer iff it is the sentinel, and as unrecognised iff it is neither and does not start with "revise:" |
| `StageUserReview.GateEndsAtTheFirstDecision` | apps/engine/src/core/stageWithUserReview.ts:58-118 | A gate ends as the first reply says that is not unrecognised, and leaves the replies after it |
| `StageUserReview.ReviewGate.ReadUserReviewDecision` | apps/engine/src/core/stageWithUserReview.ts:58-118 | The gate loop reads replies up to the first that decides; on the sentinel it blocks, logs and records, otherwise it leaves the run alone |
| `StageUserReview.ReviewGate.RunRound` | apps/engine/src/core/stageWithUserReview.ts:165-166 | One stage run on a new run object and, if it returns, its gate |
| `StageUserReview.ReviewGate.RunStageWithUserReview` | apps/engine/src/core/stageWithUserReview.ts:132-179 | The two nested loops compute the specified session over real stage runs |
| `WorkerAdmission.CapacitySafety` | apps/engine/src/core/workerAdmission.ts:108-155 | Over every interleaving of enqueue, drain, start, end, settle and direct admission, running runs plus open reservations stay within the cap at every moment iff every direct admission and row change that gives a run a slot finds it holding one or finds capacity; the drain and the queue need no such condition |
| `WorkerAdmission.StepKeepsCapacity` | apps/engine/src/core/workerAdmission.ts:108-181 | One step keeps the cap iff it is covered in that sense |
| `WorkerAdmission.WhoHoldsASlot` | apps/engine/src/core/workerAdmission.ts:108-123 | A run holds a slot iff its row is running, or it is being launched and its row is absent or none of running, completed, failed and blocked |
| `WorkerAdmission.EndingFreesTheSlot` | apps/engine/src/core/workerAdmission.ts:110-117 | A row that comes to say completed, failed or blocked gives the run's slot back, its launch settled or not, and no other |
| `WorkerAdmission.EndedRunMakesRoom` | apps/engine/src/core/workerAdmission.ts:136-155 | Right after a run has ended, with fewer than `cap` others holding a slot, a drain invokes the registered start of a waiting run, the oldest such |
| `WorkerAdmission.SettlingEndsTheLaunch` | apps/engine/src/core/workerAdmission.ts:125-134 | A settled launch leaves no reservation and no registration, and a slot only to a run whose row is running |
| `WorkerAdmission.AdmittingStarts` | apps/engine/src/core/workerAdmission.ts:125-169 | A direct admission invokes its start at once, with a token of its own |
| `WorkerAdmission.CapacityOverLives` | apps/engine/src/core/workerAdmission.ts:108-181 | Runs inserted as running while there is capacity, or turned running from queued while their launch is in flight, and that stay ended once ended, keep the cap in every interleaving |
| `WorkerAdmission.TwoResumesCanExceedTheCap` | apps/engine/src/core/workerAdmission.ts:108-134 | Two runs resumed directly, each after `hasCapacity()` said yes, run under a cap of one |
| `WorkerAdmission.DrainKeepsCapacity` | apps/engine/src/core/workerAdmission.ts:136-155 | A drain never raises the occupancy above max(before, cap), without any assumption |
| `WorkerAdmission.AdmittingNeedsCapacity` | apps/engine/src/core/workerAdmission.ts:167-169 | For a run without a slot `runAdmitted` keeps the cap exactly when there was capacity or the admission gives it no slot |
| `WorkerAdmission.DrainStartsAPrefix` | apps/engine/src/core/workerAdmission.ts:136-155 | A drain starts a prefix of the eligible queue in order, each with its registered start, stops early only for want of capacity, and touches no other run |
| `WorkerAdmission.DrainIsFifo` | apps/engine/src/core/workerAdmission.ts:140-150 | No waiting run is left behind by a drain that starts a younger one |
| `WorkerAdmission.DrainConservesWork` | apps/engine/src/core/workerAdmission.ts:136-155 | After a drain there is no capacity or nothing waiting; with capacity and a waiting run something starts |
| `WorkerAdmission.DrainStartsTheOldest` | apps/engine/src/core/workerAdmission.ts:136-155 | With capacity, the first start a drain invokes is the registered one of a waiting run no waiting run is older than |
| `WorkerAdmission.EnqueuedStartIsInvoked` | apps/engine/src/core/workerAdmission.ts:136-174 | A start enqueued for a queued run is the one a drain with capacity invokes first, unless an older run waits |
| `WorkerAdmission.StartsAreSingleShot` | apps/engine/src/core/workerAdmission.ts:125-181 | Over every interleaving each start handed over is invoked at most once |
| `WorkerAdmission.StartIsDroppedWhen` | apps/engine/src/core/workerAdmission.ts:125-181 | A registered start is dropped without being invoked by exactly these steps: its run is enqueued again, a launch of its run settles, or its run is admitted directly and throws at once |
| `WorkerAdmission.SecondStartIsDropped` | apps/engine/src/core/workerAdmission.ts:125-174 | A run enqueued again while its start is in flight loses the second start when the first settles |
| `WorkerAdmission.DroppedForGood` | apps/engine/src/core/workerAdmission.ts:125-181 | A start that is neither invoked nor registered any more is never invoked |
| `WorkerAdmission.Controller.DrainOnce` | apps/engine/src/core/workerAdmission.ts:136-155 | The drain loop performs the specified drain; a drain under way makes it a no-op |
| `WorkerAdmission.Controller.EnqueueStart` | apps/engine/src/core/workerAdmission.ts:170-174 | Enqueueing replaces the start registered for the id |
| `WorkerAdmission.Controller.AdmitDirectly` | apps/engine/src/core/workerAdmission.ts:167-169 | A direct admission is a launch that looks at no capacity |
| `WorkerAdmission.Controller.LaunchStart` | apps/engine/src/core/workerAdmission.ts:125-128 | Reservation and synchronous prefix of a start, which settles at once if the prefix throws |
| `WorkerAdmission.Controller.SettleStart` | apps/engine/src/core/workerAdmission.ts:129-133 | The `finally` clears reservation and registration |
| `WorkerCap.CapAdmitsOneWorker` | apps/engine/src/core/workerAdmission.ts:44-82 | For every caller of the exported function: the resolved cap admits a first worker iff the override is finite or the host memory is a number |
| `WorkerCap.OverrideIsTheCap` | apps/engine/src/core/workerAdmission.ts:53-66 | A finite override admits exactly max(1, its floor) workers |
| `WorkerCap.HostMemoryIsTheCap` | apps/engine/src/core/workerAdmission.ts:68-82 | Without one the cap is the floor of host memory over worker memory, 4 GiB by default, and at least one |
| `OrphanRecovery.ScanFailsExactlyTheOrphans` | apps/engine/src/core/orphanRecovery.ts:357-385 | With rows and statuses written out: after the scan no running run has an orphaned lease; exactly the orphaned ones are failed with a run-level recovery that names the lost worker; no other row changed |
| `OrphanRecovery.ScanProjectsEachDeadItemOnce` | apps/engine/src/core/orphanRecovery.ts:91-119 | An item with a recovered run and no live run left is projected exactly once, by its last recovered run, although the scan changes the table it asks; every other item is untouched |
| `OrphanRecovery.PassAccountsForEveryCandidate` | apps/engine/src/core/orphanRecovery.ts:285-331 | The startup pass attempts all or none of the eligible runs and at most `threshold`, and its outcomes name every candidate once |
| `OrphanRecovery.PassSaysWhatHappened` | apps/engine/src/core/orphanRecovery.ts:207-331 | For every pass and id: resumed is an outcome iff the id was attempted and its resume succeeded, failed with its error iff it threw, skipped for a reason iff a candidate with that id is ineligible for it, held back iff more runs are eligible than the threshold allows; the log says the same |
| `OrphanRecovery.CandidatesAreTheStaleRuns` | apps/engine/src/core/orphanRecovery.ts:140-152 | The candidates are exactly the runs left failed and recoverable by a lost worker, oldest first |
| `OrphanRecovery.CandidateIsClassified` | apps/engine/src/core/orphanRecovery.ts:160-168 | The eligibility of a run, condition by condition |
| `OrphanRecovery.ScannedRunsAreCandidates` | apps/engine/src/core/orphanRecovery.ts:140-168 | Every run the scan failed is a candidate of the pass, with its exact eligibility |
| `OrphanRecovery.StartupSpeaksForEveryOrphan` | apps/engine/src/core/orphanRecovery.ts:231-385 | Scan and pass together: every run the scan failed is spoken for by exactly one outcome, and resumes are attempted oldest first |
| `OrphanRecovery.OrphanGetsItsOutcome` | apps/engine/src/core/orphanRecovery.ts:231-385 | Scan and pass together: what becomes of each run the scan failed, by its own resume, its eligibility and the threshold |
| `OrphanRecovery.Repos.RecoverLostWorkerRuns` | apps/engine/src/core/orphanRecovery.ts:357-385 | The loop over a stale listing performs the specified scan in place |
| `OrphanRecovery.Repos.MarkRunFailedRecoverable` | apps/engine/src/core/orphanRecovery.ts:108-119 | Row update and item projection of one run |
| `OrphanRecovery.Repos.ResolveStartupPass` | apps/engine/src/core/orphanRecovery.ts:304-331 | Outcomes, recovery log and resume attempts of the pass |
| `ReplanHistory.RenamingPreservesGraph` | apps/engine/src/core/replan.ts:208-251 | Renaming keeps the dependency graph iff no dangling dependency is spelled like a new id |
| `ReplanHistory.DependencyRenamed` | apps/engine/src/core/replan.ts:221-233 | A renamed wave depends on another iff it did before or such a clash adds it |
| `ReplanHistory.RenamingCanAddADependency` | apps/engine/src/core/replan.ts:208-233 | A plan of two waves whose graph the renaming changes |
| `ReplanHistory.RenamingIsInjective` | apps/engine/src/core/replan.ts:214-233 | Distinct waves keep distinct ids |
| `ReplanHistory.RenamingTouchesIdsOnly` | apps/engine/src/core/replan.ts:208-233 | Wave by wave: the id gets the suffix, and so does each dependency some wave goes by; dangling ones, the order and every other field stay |
| `ReplanHistory.ActiveIdInjective` | apps/engine/src/core/replan.ts:216-219 | Equal suffixed ids come from the same id and version |
| `ReplanHistory.SummaryMapsBack` | apps/engine/src/core/replan.ts:182-206 | Every active id in the summary maps back to the id the planner gave |
| `ReplanHistory.SummaryTakesOver` | apps/engine/src/core/replan.ts:182-206 | Version, time, summary text and the waves' other fields are those of the plan |
| `ReplanHistory.ReplanKeepsChain` | apps/engine/src/core/replan.ts:392-408 | One replan counts one up, links its record to the last one and forgets nothing |
| `ReplanHistory.ReplanIsRecorded` | apps/engine/src/core/replan.ts:392-408 | A replan leaves the renamed replacement, its summary, and one more record with the reason, leading from the revision before to this one |
| `ReplanHistory.HistoryOverReplans` | apps/engine/src/core/replan.ts:392-408 | Over any number of replans versions are consecutive, records link up, the k-th new record has the k-th reason and version, and the earlier history is still there |
| `ReplanHistory.RevisionsNeverCollide` | apps/engine/src/core/replan.ts:208-251 | No wave id of one revision is a wave id of another |
| `ReplanHistory.FreshPlanIsChained` | apps/engine/src/core/replan.ts:160-180 | A plan without metadata loads as version 1 with an empty, well-formed history |
| `ReplanHistory.LoadingFillsIn` | apps/engine/src/core/replan.ts:160-180 | Metadata that is there is kept; a missing history is empty, a missing revision is version 1 made up from the waves as they are |
| `ReplanHistory.SavedLoadsBack` | apps/engine/src/core/replan.ts:126-180 | Loading a saved plan gives the same plan, whenever it is loaded |
| `ReplanHistory.FillIdMaps` | apps/engine/src/core/replan.ts:214-219 | The loop maps exactly the wave ids, and back |
| `ReplanHistory.NamespaceReplacementPlan` | apps/engine/src/core/replan.ts:208-251 | The renamed plan and its summary are the specified ones |
| `ReplanActivation.ReplanStore.ArchiveAll` | apps/engine/src/core/replan.ts:458-466 | Archiving moves exactly the trees it reports, leaves a copy of both plan documents that could be examined, the plan first, and keeps the old plan readable at every moment |
| `ReplanActivation.ReplanStore.RestoreTree` | apps/engine/src/core/replan.ts:535-541 | One undo step puts its tree back iff the archived tree can be examined and neither mkdir nor rename fails; an unexaminable one is passed over |
| `ReplanActivation.ReplanStore.Undo` | apps/engine/src/core/replan.ts:534-543 | The reverse-order undo puts every moved tree back iff every archived tree can be examined and no mkdir or rename of it fails; in any case each tree is at its place or whole in the archive |
| `ReplanActivation.ReplanStore.RecordActivation` | apps/engine/src/core/replan.ts:474-533 | The database steps taken before a failure stay: from the first one on the recovery is widened to the run, its status kept and its references cleared; all six make the activation complete |
| `ReplanActivation.ReplanStore.Activate` | apps/engine/src/core/replan.ts:448-544 | A success moves exactly the trees there were, archives both documents, installs plan, rendering and audit, and widens the recovery to the run with its references cleared. If any step may fail: no tree is lost, trees are back iff no stat, mkdir or rename of the undo fails, the plan file's and the recovery row's state per phase, and the old plan is readable at every moment unless the plan file could not be examined; then no copy of it is in the archive and it is lost iff the active file changed. Without file faults it succeeds iff no database step fails |
| `ReplanActivation.FailureKeepsTheNewPlan` | apps/engine/src/core/replan.ts:448-544 | An activation that fails in the database leaves the new plan in place |
| `ReplanActivation.ReplanStore.PerformExplicitReplan` | apps/engine/src/core/replan.ts:546-563 | Whatever fails, the plan generator and the `afterPreparation` hook included, a plan file that reads back is the old plan or its one successor, with a chained history; a throwing generator changes nothing, a throwing hook only staged files; a success installs that successor, its rendering and its audit, archives the old documents and trees, and widens the recovery; a failure widens it only with the new plan in place |
| `PlanValidator.EnforcedWavesAreSafe` | apps/engine/src/core/planValidator.ts:115-166 | Afterwards a wave that is still parallel was so before and is a feature wave whose stories declare pairwise disjoint files; nothing but the flag changes |
| `PlanValidator.OnlyUnsafeOrAmbiguousWavesLose` | apps/engine/src/core/planValidator.ts:115-135 | A safe parallel feature wave keeps its flag iff its story ids are distinct or there are fewer than two |
| `PlanValidator.FindOverlappingFiles` | apps/engine/src/core/planValidator.ts:68-89 | A report exactly for waves of two or more that are not declared, distinct and disjoint; the shared files once each, sorted |
| `PlanValidator.ReportedFilesAreDeclaredTwice` | apps/engine/src/core/planValidator.ts:80-103 | With distinct ids the reported files are exactly those two stories declare |
| `PlanValidator.NoneSharedMeansSafe` | apps/engine/src/core/planValidator.ts:53-89 | With every story declaring files, nothing shared iff ids are distinct and files disjoint |
| `PlanValidator.SecondPassIsIdle` | apps/engine/src/core/planValidator.ts:115-166 | A second pass decides nothing and changes nothing |
| `PlanValidator.DowngradedInOrder` | apps/engine/src/core/planValidator.ts:115-166 | Decisions are made for exactly the feature waves that lose their flag, in plan order |
| `PlanValidator.LastStoryWins` | apps/engine/src/core/planValidator.ts:53-66 | Of several stories with the same id the last one's files count |
| `PlanValidator.CollectStoryFiles` | apps/engine/src/core/planValidator.ts:53-66 | The map a later story with the same id overwrites, and whether any story declares nothing |
| `PlanValidator.CollectOverlap` | apps/engine/src/core/planValidator.ts:80-88 | The nested loops collect exactly the files some pair shares, once each |
| `PlanValidator.EnforceWaveParallelism` | apps/engine/src/core/planValidator.ts:115-166 | The walk only turns flags off, on exactly the right waves, and returns one explained decision per downgraded feature wave, in order |
| `WaveExecution.OrderVisitsAll` | apps/engine/src/stages/execution/waveExecution.ts:65-69 | The execution order visits every planned wave as often as it is planned |
| `WaveExecution.OrderIsRight` | apps/engine/src/stages/execution/waveExecution.ts:65-69 | Setup waves before feature waves, lower numbers first |
| `WaveExecution.OrderIsStable` | apps/engine/src/stages/execution/waveExecution.ts:65-69 | Waves of the same kind and number keep the order of the plan |
| `WaveExecution.WalkStopsFor` | apps/engine/src/stages/execution/waveExecution.ts:71-112 | One step of any walk: which wave is skipped, executed, or stops it, for want of a summary file, of a wave it depends on, or because it fails; which file it writes; and when the resume number is dropped |
| `WaveExecution.WalkExecutesInOrder` | apps/engine/src/stages/execution/waveExecution.ts:71-112 | A walk that gets through n waves executed them once each, in order, with their summaries |
| `WaveExecution.ResumedWalkRefinesFull` | apps/engine/src/stages/execution/waveExecution.ts:77-112 | A walk resumed at a wave number ends like the full walk, with the same summaries, and executes just the waves it does not skip, if each skipped wave left its own summary |
| `WaveExecution.CheckpointsAreThere` | apps/engine/src/stages/execution/ralphRuntime.ts:51-79 | A walk that got to the wave to resume at, or further, left all checkpoints the resumed one needs iff none of the waves it went through shares the number of an earlier wave to skip |
| `WaveExecution.BrokenWalkCheckpoints` | apps/engine/src/stages/execution/waveExecution.ts:71-117 | The same after a walk that broke in a wave of that number, the first or a later one, before or after its summary was written |
| `WaveExecution.SummariesReloadInOrder` | apps/engine/src/core/projectStageRegistry.ts:235-242 | Loaded summaries are the returned ones iff the plan lists its waves in execution order and numbers them apart |
| `WaveExecution.SummariesCanComeBackSwapped` | apps/engine/src/core/projectStageRegistry.ts:235-242 | A plan of two waves whose summaries come back in another order |
| `WaveExecution.WaveStore.Execution` | apps/engine/src/stages/execution/waveExecution.ts:53-113 | The loop with its skip, dependency check, summary file and resume reset computes the specified walk |
| `ProjectPipeline.ResumeRefinesTheRun` | apps/engine/src/workflow.ts:724-751 | A resume at any stage, on a disk that still holds the earlier stages' files, stands after any later stage (so for any `stopAfter`) with the artifacts of the uninterrupted run iff those files are faithful, and then executes the stages from there on once, in order |
| `ProjectPipeline.ResumeRefinesPlainly` | apps/engine/src/workflow.ts:724-751 | The same with a condition on the files alone: the imported PRD is the written one or absent, no wave of the plan file would lose its flag, and the plan, whose wave ids are distinct, lists its waves in execution order with numbers apart |
| `ProjectPipeline.ResumeAfterFailure` | apps/engine/src/workflow.ts:724-751 | The same on the disk of a run that went wrong at that stage or later, in whatever way |
| `ProjectPipeline.WaveReadyAfterFailure` | apps/engine/src/stages/execution/waveExecution.ts:53-113 | An execution without a readiness hook, or with one that is satisfied, that fails in any wave leaves what a resume at that wave's number needs iff no wave before it shares the number of an earlier wave to skip |
| `ProjectPipeline.NoAssertFires` | apps/engine/src/core/projectStageRegistry.ts:130-191 | With the earlier files on disk no invariant check and no loader throws whatever the stages do; earlier stages do not execute, later ones once each in order |
| `ProjectPipeline.LaterStagesKeepEarlier` | apps/engine/src/core/projectStageRegistry.ts:258-372 | However a stage ends, files and artifacts of earlier stages stay as they were |
| `ProjectPipeline.FullRun` | apps/engine/src/core/projectStageRegistry.ts:258-372 | What an uninterrupted run leaves on disk and in the context after n stages |
| `ProjectPipeline.RunMakes` | apps/engine/src/core/projectStageRegistry.ts:258-372 | Each artifact of a run is what its stage made when it was given those of the stages before it; the summaries are those of the waves in execution order; the hook was satisfied, and qa and handoff raised no objection |
| `ProjectPipeline.StageThrows` | apps/engine/src/core/projectStageRegistry.ts:258-372 | A stage throws exactly what its body throws, keeps the context, and leaves on disk the draft it wrote, if any, and nothing else |
| `ProjectPipeline.UnreadyRunEnds` | apps/engine/src/core/projectStageRegistry.ts:286-327 | A run whose readiness hook is not satisfied ends in `NotReady` before the first wave, with disk and context as they were |
| `ProjectPipeline.NotReadyMeansUnsatisfied` | apps/engine/src/core/projectStageRegistry.ts:308-327 | Only such a hook makes a run end that way |
| `ProjectPipeline.CancellationStops` | apps/engine/src/workflow.ts:742-749 | A cancellation seen before a stage keeps it from starting, one seen after it ends the run with what the stage made |
| `ProjectPipeline.ChecksFire` | apps/engine/src/core/projectStageRegistry.ts:140-191 | Which missing artifacts make the check in front of which stage throw |
| `ProjectPipeline.ResumeNeedsTheFiles` | apps/engine/src/core/projectStageRegistry.ts:193-256 | A resume ends at the first skipped stage whose file is missing, with nothing executed |
| `ProjectPipeline.SupabaseFlagOnResume` | apps/engine/src/core/projectStageRegistry.ts:273-284 | The whole context agrees iff the resume starts no later than planning or the flag was set from the start |
| `ProjectPipeline.ImportedPrdComesBack` | apps/engine/src/core/projectStageRegistry.ts:199-212 | A run and its resume that see different PRDs |
| `ProjectPipeline.ParallelFlagComesBack` | apps/engine/src/stages/planning/index.ts:623-634 | A wave the written plan shows as unsafely parallel is parallel again behind a resume, sequential in the run |
| `ProjectPipeline.SomeWaveLosesItsFlag` | apps/engine/src/core/planValidator.ts:115-135 | A concrete wave of that kind |
| `ProjectPipeline.SummariesReloadOnResume` | apps/engine/src/core/projectStageRegistry.ts:235-242 | The reload condition for the plan a run executed |
| `ProjectPipeline.SerializeWaves` | apps/engine/src/stages/planning/index.ts:599-609 | The pass on the plan's own wave objects gives the serialized plan |
| `ProjectPipeline.ProjectFiles.RunPlanningStage` | apps/engine/src/stages/planning/index.ts:623-634 | The file holds the plan before the pass, the context the plan after it |
| `ProjectPipeline.ProjectFiles.VisitNode` | apps/engine/src/workflow.ts:743-747 | One registry node: loaded, or executed behind its check, as specified |
| `ProjectPipeline.ProjectFiles.RunProjectStages` | apps/engine/src/workflow.ts:724-751 | The loop over the registry computes the specified pipeline, cancellation and `stopAfter` included |
| `ResumeScope.RecoveryRestartsInPlace` | apps/engine/src/core/resume.ts:66-141 | Write record and columns, read them back, build the input, normalize it: the workflow starts at that stage, of the project or of the item, or at that wave and story |
| `ResumeScope.ReadinessSaysWhy` | apps/engine/src/core/resume.ts:95-110 | Not found, resume in progress, prompt open, nothing to recover (no recovery status or no workspace), ready: each iff its condition, in this order |
| `ResumeScope.RecordIsMadeUp` | apps/engine/src/core/resume.ts:112-140 | A ready resume works with the record of its scope if the columns decode and the file is there, else with one for the whole run made from the row |
| `ResumeScope.UndecodableColumns` | apps/engine/src/core/resume.ts:112-127 | Which column pairs name no scope |
| `ResumeScope.RecordIsFoundAgain` | apps/engine/src/core/resume.ts:112-138 | The record just written is the one loaded iff the stage id is not empty, or what follows the first "/" of the story id leads back to the directory it starts from, dot segments folded as `join` does |
| `ResumeScope.DotSegmentsLeadBack` | apps/engine/src/core/recovery.ts:48-73 | A story id ending in "/." is found again, one ending in "/b" is not |
| `ResumeScope.DecodeEncoded` | apps/engine/src/core/recovery.ts:64-73 | Decoding the encoded scope gives it back iff the stage id is not empty, or the story id has no "/" |
| `ResumeScope.TopOfIs` | apps/engine/src/workflow.ts:201-235 | The part before the first "/" names a stage iff the id is that stage or lies under it |
| `ResumeScope.TestWriterRestarts` | apps/engine/src/workflow.ts:191-199 | A test-writer stage id normalizes to its own wave and story iff the story id is not empty and has no "/", else to none |
| `ResumeScope.OnlyTestWritersNameAStory` | apps/engine/src/workflow.ts:191-199 | An id names a story iff it has exactly the parts of a test-writer id, and then that wave and story |
| `ResumeScope.TestWriterScopeRestarts` | apps/engine/src/stages/execution/testWriter.ts:26-28 | A blocked test-writer stage restarts its wave and story, test writer included |
| `ResumeScope.ScopeReachesThePipeline` | apps/engine/src/workflow.ts:201-235 | A story scope resumes execution at its wave number; a wave number never goes with another start stage |
| `ResumeScope.RunScopeKeepsThePlan` | apps/engine/src/core/resume.ts:71-77 | With a plan on disk a run-scoped resume never starts at planning, and starts a run without a stage at execution |
| `ResumeScope.RunScopeGoesOn` | apps/engine/src/core/resume.ts:66-80 | A run-scoped resume goes on with the stage the run was at, trimmed; with a plan on disk and no stage or planning, with execution; otherwise with the projects |
| `ResumeScope.CurrentStageIs` | apps/engine/src/core/resume.ts:66-70 | The current stage of a stage or story scope, spelled out |
| `ResumeScope.ProjectsStartOnTheirOwn` | apps/engine/src/workflow.ts:201-235 | A project with a start stage of its own starts there, the others at the stage the id lies under or with requirements; brainstorm alone leaves nothing to resume |
| `ResumeScope.ProjectResumeSkipsItemStages` | apps/engine/src/workflow.ts:237-252 | A resume that starts a project at a stage leaves the item's own stages alone |
| `ResumeScope.RecoveryFiles.WriteRecoveryRecord` | apps/engine/src/core/recovery.ts:75-86 | One record per path; a rewritten one keeps its creation time |
| `ResumeScope.RewritingKeepsCreation` | apps/engine/src/core/recovery.ts:75-86 | Writing a record twice keeps the first time and takes the second summary; other records stay |
| `ResumeScope.RecordsLieIn` | apps/engine/src/core/recovery.ts:48-62 | The directory of each kind of scope, for ids that are plain names |
| `ResumeScope.DotsAreFolded` | apps/engine/src/core/recovery.ts:48-62 | How dot segments of an id are folded by the path join |
| `ResumeScope.TestWriterIsNamed` | apps/engine/src/stages/execution/testWriter.ts:26-28 | The test-writer stage id, spelled out |
| `CliAnswers.AnswersFollowThePrompts` | apps/engine/src/core/ioCli.ts:68-148 | After every interleaving of prompts, lines and close the answers given and the two queues are the expected ones |
| `CliAnswers.InterleavingDoesNotMatter` | apps/engine/src/core/ioCli.ts:68-148 | Same prompts, lines and end, in whatever interleaving, give the same state |
| `CliAnswers.EachPromptGetsItsLine` | apps/engine/src/core/ioCli.ts:101-148 | The k-th prompt gets the normalised k-th line, or the sentinel when stdin ended without it |
| `CliAnswers.QueuesNeverBothWait` | apps/engine/src/core/ioCli.ts:47-50 | The queues never both hold something; after close every prompt is answered |
| `CliAnswers.NormalizedIsOffered` | apps/engine/src/core/ioCli.ts:52-66 | A normalised answer is the value of the action with that number; without one, of the first action with that value; without one, of the first with that label; else the trimmed text, as it is without actions |
| `CliAnswers.SentinelSurvives` | apps/engine/src/core/ioCli.ts:52-66 | Normalising leaves the sentinel as it is iff no action is named like it in value or label, or the first such value is the sentinel itself |
| `CliAnswers.EndOfInputIsNoAnswer` | apps/engine/src/core/ioCli.ts:101-148 | A prompt left without a line at the end of stdin is answered with the sentinel under exactly that condition on its actions |
| `CliAnswers.Resolver.OnPrompt` | apps/engine/src/core/ioCli.ts:70-126 | One prompt event on the two queues |
| `CliAnswers.Resolver.OnLine` | apps/engine/src/core/ioCli.ts:134-138 | One line on the two queues |
| `CliAnswers.Resolver.OnClose` | apps/engine/src/core/ioCli.ts:139-147 | Close answers every waiting prompt with the sentinel |
| `EventBus.ResolvedAtMostOnce` | apps/engine/src/core/bus.ts:42-106 | Over any calls with listeners calling back and throwing, no promise's `resolve` is called twice and no request waits after it was called |
| `EventBus.EveryBusIsSound` | apps/engine/src/core/bus.ts:42-106 | What the statements below require of a bus holds after any calls |
| `EventBus.RequestMeetsItsFate` | apps/engine/src/core/bus.ts:50-103 | Over any calls, nested ones and throwing listeners included: a pending request that was rejected while it was made stays so and no answer resolves it; otherwise the first answer, close or re-registration that concerns its id decides, finally, and no throw can reject it any more |
| `EventBus.CallRejectsItsOwn` | apps/engine/src/core/bus.ts:42-106 | A call rejects no promise made before it |
| `EventBus.NewRequestMeetsItsFate` | apps/engine/src/core/bus.ts:69-85 | From its registration until `request` returns a request meets the fate its listeners decide: it is rejected iff one throws and none answered it or closed the bus before |
| `EventBus.CallsActInOrder` | apps/engine/src/core/bus.ts:50-62 | Nested calls act on the requests like their effects in sequence, listeners' effects before the answer being emitted |
| `EventBus.AnswerIsDeliveredUnlessOvertaken` | apps/engine/src/core/bus.ts:87-97 | `answer` returns true iff the id was pending and no listener throws; its text is what the request gets iff moreover the request was not rejected while it was made and the listeners leave it waiting |
| `EventBus.ListenerCanOvertake` | apps/engine/src/core/bus.ts:87-97 | A case in which it returns true and another text counts |
| `EventBus.ThrowingListenerStopsTheAnswer` | apps/engine/src/core/bus.ts:50-62 | A case in which a listener throws and the request goes on waiting |
| `EventBus.RejectedRequestIgnoresTheAnswer` | apps/engine/src/core/bus.ts:69-97 | A case in which `answer` returns true and removes the entry, and the request stays rejected |
| `EventBus.AnsweredBeforeTheThrow` | apps/engine/src/core/bus.ts:69-85 | A case in which a listener answers and then throws: the request is resolved, not rejected |
| `EventBus.OverwrittenIsLost` | apps/engine/src/core/bus.ts:69-76 | A request whose id is registered again never resolves |
| `EventBus.ClosedBusIsDeaf` | apps/engine/src/core/bus.ts:99-103 | After `close` and until somebody subscribes listeners have no effect: calls act as if their listeners did nothing, a new request waits and is all that is pending, an emit and an answer change nothing, and none of them throws |
| `EventBus.ClosingLeaves` | apps/engine/src/core/bus.ts:99-103 | Nothing pending, no listeners, and "" for each waiting request in map order |
| `EventBus.SubscribingEndsTheSilence` | apps/engine/src/core/bus.ts:64-67 | Who subscribes after `close` is called again |
| `EventBus.NoRequestNoAnswer` | apps/engine/src/core/bus.ts:87-97 | An answer to a prompt that is not pending returns false and runs no listener |
| `EventBus.ThrowEndsTheCalls` | apps/engine/src/core/bus.ts:50-62 | A throw ends the calls it is among and keeps what was done; a listener that catches it goes on |
| `EventBus.EmittingBus.RunCall` | apps/engine/src/core/bus.ts:42-106 | The bus object performs calls and nested calls as specified, ends a call when a listener throws, and turns a throw inside `request` into a rejection |
| `Conversation.RowsShown` | apps/engine/src/core/conversation.ts:252-306 | Exactly the rows that should show have an entry, their own, with kind, actor and prompt id of the row and a non-empty text: the row's, the folded message's, or the fixed phrase for a prompt without one |
| `Conversation.SuppressedIsExact` | apps/engine/src/core/conversation.ts:223-250 | Exactly the messages a prompt swallows are suppressed |
| `Conversation.SuppressedByOne` | apps/engine/src/core/conversation.ts:243-250 | A message is swallowed by one prompt only |
| `Conversation.SwallowedTextIsTheQuestion` | apps/engine/src/core/conversation.ts:223-290 | The prompt that swallows a message shows its trimmed text |
| `Conversation.FoldedTextIsExact` | apps/engine/src/core/conversation.ts:223-241 | Which rows carry a folded text, and which text |
| `Conversation.FoldableIsNearest` | apps/engine/src/core/conversation.ts:243-250 | The message a prompt folds is the nearest non-blank chat message with only blank ones in between |
| `Conversation.PlaceholdersAreSeen` | apps/engine/src/core/conversation.ts:156-161 | "you >" in any letter case and spacing is a placeholder, and so is no text |
| `Conversation.PlaceholderIsSpelled` | apps/engine/src/core/conversation.ts:156-161 | Nothing else is |
| `Conversation.EntryOfRow` | apps/engine/src/core/conversation.ts:187-203 | Entries keep log order and come from one row each |
| `Conversation.FoldingLosesOnlyToAnonymousPrompts` | apps/engine/src/core/conversation.ts:223-250 | A message's text survives folding iff the prompt that swallowed it has an id |
| `Conversation.AnAnonymousPromptLosesItsQuestion` | apps/engine/src/core/conversation.ts:223-290 | A log of a message and its prompt whose transcript is empty |
| `Conversation.FindFoldable` | apps/engine/src/core/conversation.ts:243-250 | The backward scan finds the message to fold, if any |
| `Conversation.FoldPromptMessages` | apps/engine/src/core/conversation.ts:223-241 | The loop over set and map computes the specified folding |
| `Conversation.BuildConversation` | apps/engine/src/core/conversation.ts:187-203 | The transcript |
| `Messages.PaginationIsFiltering` | apps/engine/src/cli/common.ts:153-175 | Following `nextSince` to the end concatenates to exactly the filtered log |
| `Messages.NextPageContinues` | apps/engine/src/cli/common.ts:153-175 | Behind a full page the rest starts where the page ended, and gets shorter |
| `Messages.RowIsDelivered` | apps/engine/src/cli/common.ts:160-167 | A row is delivered iff it projects to an entry that is forced or at least of the level, with the row's fields, in log order |
| `Messages.PageIsFilled` | apps/engine/src/cli/common.ts:153-175 | A page is the front of the filtered log, full or all of it, and names its last entry as the next cursor iff it is full |
| `Messages.GrowingPagesLoseNothing` | apps/engine/src/cli/common.ts:153-175 | Pages taken while rows are appended never repeat, skip or reorder an entry |
| `Messages.GrowingPagesGoOn` | apps/engine/src/cli/common.ts:153-175 | Nor do they stop early: a full page for every call, or together all there was at the call that ended them |
| `Messages.ListProjectedMessages` | apps/engine/src/cli/common.ts:153-175 | The nested loops return the first `limit` deliverable entries whatever the batch size; none for a limit below 1 |
| `Messages.ScanBatch` | apps/engine/src/cli/common.ts:160-173 | The inner loop up to a full page |
| `PortAllocator.AssignIsRight` | apps/engine/src/core/portAllocator.ts:66-100 | A known path keeps its port; a new one gets the first free port in cyclic probe order; it fails iff every port of the pool is taken; live ports stay distinct |
| `PortAllocator.PortsStayDistinct` | apps/engine/src/core/portAllocator.ts:66-156 | Over any assign, release and prune sequence live ports are pairwise distinct |
| `PortAllocator.PathKeepsItsPort` | apps/engine/src/core/portAllocator.ts:66-156 | A path keeps its port until it is released or its directory is gone |
| `PortAllocator.ReleasedPortIsFree` | apps/engine/src/core/portAllocator.ts:66-113 | A released port is free, other assignments stay, and with the rest of the pool taken the next path gets it |
| `PortAllocator.PrunedPortsAreFree` | apps/engine/src/core/portAllocator.ts:136-156 | Pruning keeps exactly the rows with a directory and frees the other ports |
| `PortAllocator.ProbesCoverThePool` | apps/engine/src/core/portAllocator.ts:84-99 | The probe visits exactly the ports of the pool |
| `PortAllocator.FirstFreeIsFirst` | apps/engine/src/core/portAllocator.ts:84-99 | The port found is free and every port probed before it is taken |
| `PortAllocator.HashIsBounded` | apps/engine/src/core/portAllocator.ts:58-64 | After n code units the hash is at most n * (2^31 + 0x10FFFF) in size |
| `PortAllocator.HashStaysExact` | apps/engine/src/core/portAllocator.ts:58-64 | Up to four million code units every value of the loop is an exact double integer |
| `PortAllocator.HashIsThePolynomial` | apps/engine/src/core/portAllocator.ts:58-64 | However the shift wraps around, the hash is the polynomial in 31 over the code points modulo 2^32 |
| `PortAllocator.CodePointsAreRead` | apps/engine/src/core/portAllocator.ts:61 | A surrogate pair reads as its code point, any other unit as itself |
| `PortAllocator.HashBranch` | apps/engine/src/core/portAllocator.ts:58-64 | The loop computes the specified hash |
| `PortAllocator.WrittenPoolReadsBack` | apps/engine/src/core/portAllocator.ts:30-39 | A pool written as start-end reads back as itself iff it is a pool, else as the default |
| `PortAllocator.OnlyPoolsAreRead` | apps/engine/src/core/portAllocator.ts:30-39 | Anything but two numerals with a dash reads as the default pool |
| `PortAllocator.PoolFallsBack` | apps/engine/src/core/portAllocator.ts:41-56 | Without a valid pool in the workspace file the environment decides, without one there the default |
| `PortAllocator.AssignmentTable.AssignPort` | apps/engine/src/core/portAllocator.ts:66-100 | The probing loop over the table computes the specified assignment |
| `PortAllocator.AssignmentTable.ReleasePort` | apps/engine/src/core/portAllocator.ts:102-113 | Only the released path's assignment goes |
| `PortAllocator.ReadWorkspacePool` | apps/engine/src/core/portAllocator.ts:41-56 | Always a valid pool, and the workspace file's own when that is one |
| `PortAllocator.AssignmentTable.PruneMissing` | apps/engine/src/core/portAllocator.ts:136-156 | Exactly the assignments without a directory go, and are counted |
| `BranchNames.NameReadsBack` | apps/engine/src/core/branchNames.ts:28-55 | Every branch name reads back as its kind, slugs and wave number |
| `BranchNames.NamesAreUnique` | apps/engine/src/core/branchNames.ts:28-55 | Equal names come from equal kinds, slugs and numbers |
| `BranchNames.NamesAreSpelled` | apps/engine/src/core/branchNames.ts:28-55 | The five names, spelled out |
| `BranchNames.ContextNames` | apps/engine/src/core/branchNames.ts:21-55 | A context without an item slug has no names, one with a slug those of its slugs |
| `BranchNames.StoryNamesAreUnique` | apps/engine/src/core/branchNames.ts:44-51 | The engine's story names are told apart by project slug, wave and story slug |
| `BranchNames.SlugifyGivesSlug` | apps/engine/src/core/branchNames.ts:13-19 | A slug has letters, digits and single inner dashes only |
| `BranchNames.SlugifyKeepsSlugs` | apps/engine/src/core/branchNames.ts:13-19 | Slugify leaves a slug as it is |
| `BranchNames.SlugKeepsLetters` | apps/engine/src/core/branchNames.ts:13-19 | A slug keeps every letter and digit of the lower-cased text in order; the fallback is taken iff there is none |
| `BranchNames.TitleSlug` | apps/engine/src/core/itemIdentity.ts:1-4 | A title gives a slug iff its lower-case form has a letter or digit, and then the same one in both places that compute it |
| `BranchNames.NamesAreEngineOwned` | apps/engine/src/core/baseBranch.ts:8-10 | Every branch name is recognised as the engine's |
| `BranchNames.PreviewNameAgrees` | apps/engine/src/core/itemPreview.ts:43 | The name the preview code spells is the engine's iff the title gives a slug or the lower-cased id is one |
| `BranchNames.PreviewCanNameAnotherBranch` | apps/engine/src/core/itemPreview.ts:43 | An item for which the preview spells another branch |

## Left out

- The user interface, HTTP routes, message rendering, command parsing, model adapters, git, preview servers, Supabase calls and the update switcher: plumbing or foreign calls.
- The text of log lines and summaries: they are constructors of a `Note` type, so equal texts from different phrases are kept apart.
- Failures of the engine's own persistence inside a stage run (`persistRun`, writing a recovery record): assumed to succeed, as the exit accounting needs.
- Sessions, chat events and artifact events of a stage run: they do not feed back into the loop.
- An interactive user at the review gate who never gives a reply that decides: the gate then asks forever; the model gives finitely many replies and then the sentinel.
- Microtask and interval scheduling of drains: a drain may happen at any step, so when it happens does not matter to what is proved.
- The worker cap inside the controller is an integer; non-finite caps are in `WorkerCap`.
- `listRuns` order among runs created at the same time: any listing order is allowed and the sort is stable.
- Removal of the temporary replan directory, and a `waves` field that is not an array.
- `localeCompare` is an integer key and `toLowerCase` works letter by letter; nothing else is assumed of either.
- The host's `Number` in answers and scope references is abstract; numerals beyond 2^53 are not rounded in `parsePool` and in wave numbers.
- Lines that arrive after stdin closed, and the interactive terminal.
- `recordAnswer`, `recordUserMessage` and `findOpenPrompt`: single table writes and one search.
- SQL: tables are maps, and the unique port index is the check the insert makes.
- Stage bodies see the artifacts made so far and nothing else; that a wave's summary does not depend on story checkpoints left by an earlier attempt is part of that.
- Execution ownership hand-over inside execution, and several projects sharing one run directory: the pipeline is that of a single project.
- `performResume` itself (leases, heartbeats, events) beyond readiness and the resume input.
- The design preparation plan, the action matrix, loop configuration and `mergePrd`: finite tables or claims the code does not support.
- StageRuntime.LoopIsBounded: assumes the agent draws its messages from a finite set, since without that the loop need not end (`FreshQuestionsNeverEnd`).
- StageUserReview.StageRunsAreBounded: the stages of a session are those `LoopIsBounded` speaks of, each agent with finitely many messages (`BoundedOptions`).
- PortAllocator.HashStaysExact: branch names beyond four million code units are not covered.
