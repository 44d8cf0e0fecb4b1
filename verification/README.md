# Verified model of the durable execution kernel and its neighbours

This project models, in Dafny, the parts of the repository that move state under
concurrency, money or evidence, and proves what they promise over whole runs.

* **Execution kernel.** `Contracts` is the snapshot validator. `Journal` is the journal of
  one job: one pure function per public transaction of `execution/store.py`. `JobStore`
  is the store itself, a class whose methods update the tables statement by statement
  and are proved equal to those functions. `JournalInvariants`, `Guarantees`, `EventLog`,
  `Replay`, `StreamFilter`, `Streaming`, `ScheduleIndependence`, `Completeness` and
  `Stranding` prove what every run keeps. `Scheduling`, `StageThreads`, `CalmRuns`,
  `RunnerSteps`, `Runner` and `RunEndings` are the batch scheduler, with an oracle that
  decides every interleaving.
* **Account admission.** `Admission` is the whole database (jobs, accounts, reservations,
  tombstones) with one function per transaction, `AccountStore` the class over
  `JobStore`, `AdmissionSafety` the inductive invariant, `AccountGuarantees`, `SlotLimits`
  and `Suspension` the theorems.
* **Dispatch.** `Dispatch`, `Supervisor` (the class), `DispatchSafety`, `DispatchGuarantees`,
  `DispatchReturns` and `Custody` (who holds a dispatched job, and until when).
* **Witnesses.** `Witnesses` holds the concrete runs behind the conditions listed below.
* **Controller ledger.** `Ledger` (transition, record, replay), `LedgerController` (one
  controller and the blob object), `LedgerStorage` (controllers racing over a wire that
  delays, repeats and loses requests).
* **Smaller cores.** `CoreAdapter` and `ArtifactBinding` (plan builder, artifact binder),
  `Rollout` (canary journal), `Topological` (reference order), `Safetensors` (tensor
  tiling), `QualityEvidence` and `SuiteBridge` (evidence accounting).

A class method and the function that specifies it carry the same name: the method's
contract equates the new tables with the function's result, and the lemmas are about
the function. What the functions themselves say is pinned down a second time, without
them, by lemmas over the tables alone that decide acceptance and give the result:
`SnapshotRules`, `Transactions`, `Provenance`, `PageContents`, `AdmissionRules`,
`DispatchRules`, `LedgerLaws`, `PlanShape`, `BinderRules` and `RolloutRules`.

## Modelling decisions

* A transaction is one atomic step; a refused one leaves the state as it was. One clock
  reading stands for all readings inside a transaction.
* The worker is a function of the stage and the artifacts. The engine-response sanitiser
  is an arbitrary partial function; it includes the encoded-size check on a result.
* Lower-casing works character by character.
* Digests are injective: a fingerprint is the snapshot, a record's previous digest is the
  previous record. Signatures and sealed payloads open as they were written; corrupted
  rows are not part of this model.
* A grant is an owner with the routes it currently permits; whether execution is
  authorised at all is folded into that set.
* Random identifiers are new: a step that would reuse one is not a legal step. A runner's
  token is known to that runner and to the supervisor's recovery only.
* A reservation row carries the idempotency key it was made for. The table does not; the
  field is history, used only to state that a key is charged once.
* The source multiplies by 0.95 in floating point for the percentile index; the model
  uses exact arithmetic, which has the same ceiling for the at most 10000 samples allowed.

## What turned out to need a condition

* `contracts.py` accepts a plan whose final stage is the conditional debate round. If the
  judge then asks for no debate, all stages are done, success is refused, and the run
  leaves the job owned. `Stranding.DebateLastAccepted` gives such a plan,
  `Stranding.DebateLastStrands` strands it, `StageThreads.FinishObserved` says
  exactly when the release is refused, `Runner.RunJob` that this is the only way a run
  can leave its fence behind while it still holds it, and
  `Stranding.StrandingDecided` that exactly the plans whose final stage is conditional and
  depends on the judge allow it.
* Confirmed recovery is refused for a crashed runner's job that can no longer be opened.
  `DispatchGuarantees.RecoveryDecided` is the exact condition, `Witnesses.RecoveryRefused`
  a run (configure, create, enqueue, claim, begin) after which it is refused from the
  retention date on, and `Custody.CrashedPastRetention` the consequence: unless someone
  uses the dead runner's fence the job keeps its runner, its row stays claimed and its
  slot stays held for ever.
* `build_core_plan` accepts any number of passes, the validator 1 to 16 stages:
  `CoreAdapter.BuilderMeetsValidator` is an equivalence with exactly that bound. The route
  policies of `router/policy.py` have 1 to 11 passes, so none of them ever meets it.
* A run that has lost its fence to someone else can say nothing about results that others
  complete; `Runner.RunJob` states schedule independence for runs that released the job
  themselves, and for all runs when nobody else completes stages meanwhile.
* A run that the runner reports as paused may have been paused by a confirmed recovery of
  that very runner, and then has not moved its slice: `Witnesses.RecoveredPause` is such a
  run. Foreign transactions take the fence away exactly if one of them is such a recovery
  (`StageThreads.FenceLostExactly`), so `Runner.RunJob` promises the exact slice, and that
  the run hands the job back itself unless success is refused, to every run during which
  nobody recovers its runner.
* `configure_account` may lower the maximum below the slots held. Held slots stay within
  the maximum throughout a run exactly if no granted configuration of the run does that
  (`SlotLimits.WithinExactlyUnlessLowered`, and `SlotLimits.StepWithinDecided` for one
  step); `Witnesses.SlotsAboveMaximum` is a run that does.

## Model

| member | source | states |
|---|---|---|
| Contracts.Admit | execution/contracts.py:226-260 | the scan with a growing set of seen ids accepts exactly the well-formed snapshots: earlier dependencies, unique ids, one public final stage, sums within limits |
| SnapshotRules.AcceptanceDecided | execution/contracts.py:226-260 | accepted means: numbers and names in range, every stage equal to its operation and within the context, dependencies named once and earlier, only the last stage public, sums from either end within the limits |
| JobStore.LocalJobStore.Insert | execution/store.py:257-265 | a queued job with one pending row per stage and its first event |
| JobStore.LocalJobStore.LogEvent | execution/store.py:170-175 | one more event, numbered by the counter it bumps |
| JobStore.LocalJobStore.Begin | execution/store.py:340-356 | ownership changes the tables as `Journal.Begin` changes the job, and nothing else |
| JobStore.LocalJobStore.ReadArtifacts | execution/store.py:385-393 | the artifacts of a stage exactly when every dependency is usable, reading them one by one |
| JobStore.LocalJobStore.Claim | execution/store.py:370-410 | claiming is `Journal.Claim` on the owned job; others never see it |
| JobStore.LocalJobStore.ChargeAndStart | execution/store.py:401-410 | both counters are charged and the row starts under the current fence, or nothing happens |
| JobStore.LocalJobStore.Complete | execution/store.py:412-437 | completion is `Journal.Complete`: cancellation, then expiry, then tool calls decide what is kept |
| JobStore.LocalJobStore.FailStage | execution/store.py:439-447 | only the live attempt can fail its stage |
| JobStore.LocalJobStore.AppendPublicDelta | execution/store.py:184-228 | a fragment is stored as `Journal.Publish` says, with its own event |
| JobStore.LocalJobStore.RequestCancel | execution/store.py:449-459 | marks once; unowned jobs end at once, with two events |
| JobStore.LocalJobStore.Finish | execution/store.py:461-486 | releases ownership in the state that cancellation, deadline and frontier allow |
| JobStore.LocalJobStore.FinishUnreadable | execution/private_store.py:142-155 | the retention fallback closes the job as cancelled or expired without opening it |
| JobStore.LocalJobStore.RecoverAbandoned | execution/store.py:488-516 | quarantine, new epoch and verdict in one step, as `Journal.Recover` |
| JobStore.LocalJobStore.ReplayEvents | execution/store.py:287-322 | one page, built row by row, equals the page function |
| Transactions.ClaimDecided | execution/store.py:370-404 | a stage is claimed iff its row is pending, the fence, grant, state and deadline are in order, fewer rows than the limit are in flight, its inputs may be read, a conditional stage has its decision, and it is skipped or affordable |
| Transactions.ClaimStarts | execution/store.py:385-410 | a started stage is charged its input, output and cost caps and handed the stored result of every dependency, and nothing for a skipped one |
| Transactions.ResultDecided | execution/store.py:71-93 | the result check passes iff the token counts, the decision and the length are in order and the sanitiser answers, and stores exactly what the sanitiser returned with the worker's counts and decision |
| Transactions.CompletionExact | execution/store.py:412-437 | an answer is accepted iff the attempt is live and it is presentable; a completed or waiting stage holds the sanitised content and calls, a cancelled or expired one nothing, and no other field changes |
| Transactions.PublicationExact | execution/store.py:184-228 | a fragment is stored iff the final public stage is at work under this fence, the limits have room and the window is clean, and nothing else changes |
| Transactions.FinishExact | execution/store.py:461-486 | which state a job is closed in, and exactly which rows support it |
| Transactions.RecoveryDecided | execution/store.py:488-516 | the verdict of a recovery as an equivalence on the rows for each of its six states, with every attempt in flight quarantined |
| Provenance.EveryResultDelivered | execution/store.py:412-437 | in every run a stored result is what the sanitiser made of an answer that some completion of the run delivered to that stage |
| Provenance.EveryAnswerExplained | execution/store.py:324-332 | in every reachable world a completed row holds the sanitised answer of the worker to the stored results of its dependencies, a skipped one was declined by the judge, and a succeeded job shows the sanitised answer to its final stage |
| JournalInvariants.RunKeepsControl | execution/store.py:340-516 | in every run a runner is set iff running or cancelling, attempts in flight carry the current epoch, queued and paused jobs have clean rows, succeeded jobs are complete |
| JournalInvariants.RunSound | execution/store.py:340-516 | terminal states absorb; done rows, attempts, results, events and fragments never change back |
| Guarantees.FenceNeverReturns | execution/store.py:164-168 | a runner fence that stopped matching never matches again |
| Guarantees.CancellationDominates | execution/store.py:449-516 | after a true `request_cancel` nothing starts or is stored in any continuation and the job ends only cancelled, or interrupted if an attempt was in flight |
| Guarantees.DeadlineDominates | execution/store.py:340-516 | from the original deadline on no run owns, starts, stores, publishes or newly succeeds |
| Guarantees.ReservationNeverRefused | execution/store.py:401-404 | the reservation guard inside `claim` never fires on an accepted snapshot |
| Guarantees.BudgetIsExact | execution/store.py:401-408 | both counters are the sums over the stages ever started, within the snapshot's limits |
| Guarantees.RunWithinWidth | execution/store.py:383-384 | never more than max_parallel attempts in flight, whoever claims |
| Guarantees.RecoveryExact | execution/store.py:488-516 | recovery resumes exactly the clean uncancelled frontiers, interrupts exactly when an attempt was in flight, and otherwise ends the job by its worst row: cancelled, expired, failed, waiting for tools |
| Guarantees.OnlyDebateSkipped | execution/store.py:394-400 | a skipped stage is the Ultra debate round |
| Guarantees.UnconditionalFinalNeverSkipped | execution/store.py:394-400 | in no run is an unconditional final stage skipped, so only plans that end in the conditional debate can strand |
| EventLog.RunKeepsLogbook | execution/store.py:170-243 | numbering, one start per attempt, and fragments aligned with answer events hold after every run |
| Replay.LogIsGapless | execution/store.py:170-175 | events are numbered 1..sequence, no stage starts twice, all fragments carry one attempt |
| Replay.PageExact | execution/store.py:295-322 | a page is never refused, advances by min(remaining, limit) and tells exactly that range |
| Replay.PagingIsExact | execution/store.py:287-322 | any paging with any limits, while the job runs on, hears the filtered log in order with no loss or repeat, and the fragments spell the whole text |
| PageContents.PageTells | execution/store.py:295-322 | a page holds exactly the events of its range that are the job's, answer fragments, or of a stage with activity, each with its stored number, kind, time and text, in order |
| PageContents.IntegrityDecided | execution/store.py:295-322 | whatever the tables hold, an event is refused iff it is an answer fragment without the text stored for it at the public final stage |
| PageContents.PagingTells | execution/store.py:287-322 | over a whole reading, runs between pages included, nothing of a stage without activity is told and nothing visible is left out |
| StreamFilter.MarkersNamed | execution/store.py:217-222 | clean text contains neither marker in any place of its lowered form |
| StreamFilter.WindowDecides | execution/store.py:217-222 | with a clean history, seven characters decide the whole extended text |
| StreamFilter.ChunkingIrrelevant | execution/store.py:217-222 | the window check passes every cut of a text into nonempty pieces exactly when the whole text is clean |
| Streaming.CuttingDecided | execution/store.py:184-228 | publishing a cutting of a text piece by piece stores all of it iff its pieces fit the limits and what was said before, extended by the whole text, holds no marker |
| Streaming.CuttingIrrelevant | execution/runner.py:129-139 | of two cuttings of one text within the row bounds, one is stored whole iff the other is, and readers then get the same text |
| StreamFilter.FilterIsExact | execution/store.py:184-228 | after any run a fragment is stored iff the other checks pass and the whole text extended by it holds no marker |
| ScheduleIndependence.SucceededIsEvaluation | execution/store.py:324-332 | every run that succeeds leaves exactly the in-order evaluation, skips included, and `result` is its last entry |
| ScheduleIndependence.ScheduleIndependent | execution/runner.py:156-203 | two successful runs agree on every stage, whatever the scheduling |
| Completeness.SuccessDecided | execution/store.py:370-486 | a run that succeeds exists iff the evaluation exists and its final stage answers |
| Stranding.SkippedFinalStrands | execution/store.py:473-478 | if the evaluation skips the final stage, a run reaches a frontier with every stage done whose owner is refused success until the deadline |
| Stranding.StrandingDecided | execution/store.py:394-400 | some worker and run strand the owner of a finished job iff the final stage is conditional and lists the judge as a dependency |
| Stranding.DebateLastAccepted | execution/contracts.py:226-260 | the snapshot validator accepts a concrete plan whose final stage is the conditional debate |
| Stranding.DebateLastStrands | execution/store.py:473-478 | a run of that plan strands its owner |
| Scheduling.ReadyStageExists | execution/runner.py:167-169 | a clean frontier with work left has a ready stage |
| StageThreads.Pieces | execution/runner.py:129-139 | cutting at the row bound loses nothing and stays within the bound |
| StageThreads.PiecesSpell | execution/runner.py:129-139 | cutting all provider fragments loses and adds nothing; `Runner.RunJob` carries this over to the stored text |
| StageThreads.BatchFits | execution/runner.py:170-175 | while a batch member is pending the store's parallel limit has room |
| StageThreads.BatchDone | execution/runner.py:177-203 | a batch without failure leaves a clean frontier with exactly its members moved |
| StageThreads.PendingNeverGrows | execution/store.py:370-516 | between slices no stage becomes pending again |
| StageThreads.FinishObserved | execution/store.py:461-486 | a final release of a drained job is refused iff the fence is gone, or success is asked for a skipped final stage while neither cancelled nor expired |
| StageThreads.FenceLostExactly | execution/store.py:488-516 | foreign transactions end this runner's ownership iff one of them is a recovery under its fence |
| CalmRuns.ClaimGoes | execution/store.py:370-410 | on rows that the worker computed, with an evaluation, a ready stage with room is never refused |
| CalmRuns.CompleteGoes | execution/store.py:412-437 | the worker's answer to a live attempt completes its stage |
| Runner.LocalRunner.Check | execution/runner.py:90-105 | passes iff nothing stopped the run and the grant, the fence, the state, the cancellation mark and all deadlines are in order at that moment |
| Runner.LocalRunner.ClaimStage | execution/runner.py:107-115 | a thread claims its stage, finds it skipped, or raises; its deadline is the stage timeout from the claim, or the run's if that is earlier |
| Runner.LocalRunner.ClaimBatched | execution/runner.py:170-175 | a batch never exceeds the parallel limit, so the limit is never why its claim is refused |
| Runner.LocalRunner.Stream | execution/runner.py:129-139 | exactly one piece more is stored if the thread streams on, and nothing otherwise |
| Runner.LocalRunner.CompleteStage | execution/runner.py:143-145 | the thread ends with the state the store recorded |
| Runner.LocalRunner.AbandonStage | execution/runner.py:146-154 | a raising thread leaves no attempt in flight while the fence holds |
| StageThreads.FirstOnes | execution/runner.py:167-176 | the batch that is picked is the first ready stages in the order of the plan, as many as the width allows; what is ready and not picked comes later |
| Runner.DeadlineExact | execution/runner.py:69-78 | on the runner's clock the deadline is as far off as on the wall clock, and never before the start |
| Runner.LocalRunner.Collect | execution/runner.py:186-195 | the first bad outcome decides the failure and the final state, each accounted for by what a thread returned or raised |
| Runner.LocalRunner.RunBatch | execution/runner.py:177-195 | the drain loop terminates with every thread finished; without failure all outcomes are good |
| Runner.LocalRunner.Next | execution/runner.py:156-203 | one round launches a batch within the slice, or ends with the state to ask for; an undisturbed round ends only in success or at the slice |
| Runner.LocalRunner.Drive | execution/runner.py:156-203 | terminates; asks for success only when all is done, for a pause only after exactly the slice, always with no attempt in flight; if undisturbed it asks for one of these two |
| Runner.LocalRunner.Release | execution/runner.py:215-216 | an owner's finish is accepted unless the final stage was skipped |
| Runner.LocalRunner.Look | execution/runner.py:157-160 | a frontier the runner gets to see is exactly what this runner last made of the rows, under a fence that still holds; otherwise the run has failed and its siblings stop |
| Runner.RunJob | execution/runner.py:58-222 | the job is taken iff `begin` grants it; what happened is a run of the journal; unless its runner is recovered the run hands the job back itself, or success was refused for a skipped final stage, and a reported pause moved exactly its slice; success is the in-order evaluation, streamed text spells the provider's fragments, and an undisturbed run whose evaluation ends in an answer succeeds or pauses at its slice; without a stream nothing is published; why a run is refused, and what it reports when others took the job, is exact |
| RunEndings.WaitingEnds | execution/runner.py:186-202 | with the grant kept and no recovery, cancellation or deadline: some stage waiting for tools, none failed and none unclaimed leave the job, and the answer, waiting for tools |
| RunEndings.ExpiredEnds | execution/runner.py:186-202 | the same with an expired stage and none that waits: expired |
| RunEndings.FailedEnds | execution/runner.py:186-202 | the same with a failed or unclaimed stage and none that waits or expired: failed |
| RunEndings.CancelledEnds | execution/runner.py:186-216 | a released job whose cancellation was requested, or one of whose stages was cancelled, ends cancelled |
| RunEndings.EndingHasReason | execution/runner.py:156-216 | conversely each of these endings has such a row, or such a loss, and success or a pause has neither |
| Runner.CalmDecided | execution/runner.py:58-222 | an undisturbed run without a slice succeeds iff the in-order evaluation exists and ends in an answer |
| Runner.RunSlices | execution/runner.py:58-222 | over any visits with slice k, by any runners and with anything in between, the runs pause the job at most ceil(n/k)-1 times; with one worker behind them success is its in-order evaluation, across slices, pauses and recoveries |
| Runner.RunFromCreation | execution/runner.py:58-222 | a job that is inserted and then run in slices with one worker behind them holds that worker's in-order evaluation if it succeeded, without any hypothesis on its rows |
| Witnesses.RecoveredPause | execution/runner.py:215-222 | a run recovered before its first look reports a pause and has moved no stage |
| AccountStore.AccountPostgresStore.Totals | execution/postgres_admission.py:129-135 | the loop computes the sums and the slot count |
| AccountStore.AccountPostgresStore.ConfigureAccount | execution/postgres_admission.py:137-160 | policy changes as `Admission.Configure` |
| AccountStore.AccountPostgresStore.CreatePrivate | execution/private_store.py:47-73 | tombstone, idempotent answer or new job |
| AccountStore.AccountPostgresStore.Create | execution/postgres_admission.py:162-180 | job and reservation together, or rolled back together |
| AccountStore.AccountPostgresStore.CheckJobAdmission | execution/postgres_admission.py:182-191 | answers exactly the admission predicate |
| AccountStore.AccountPostgresStore.ReleaseIfSafe | execution/postgres_admission.py:216-220 | frees the slot of an ended job that succeeded or never started work |
| AccountStore.AccountPostgresStore.Begin | execution/postgres_admission.py:193-199 | gated begin, releasing the slot when the job expired |
| AccountStore.AccountPostgresStore.Claim | execution/postgres_admission.py:201-204 | gated claim |
| AccountStore.AccountPostgresStore.Complete | execution/postgres_admission.py:211-214 | gated completion |
| AccountStore.AccountPostgresStore.Finish | execution/postgres_admission.py:222-231 | success is downgraded when no longer admitted; the retention fallback applies |
| AccountStore.AccountPostgresStore.RequestCancel | execution/postgres_admission.py:233-237 | cancels and releases in one transaction |
| AccountStore.AccountPostgresStore.ConfirmQuiescence | execution/postgres_admission.py:239-254 | frees the slot of an ended job under one receipt |
| AccountStore.AccountPostgresStore.DeleteJob | execution/postgres_admission.py:256-263 | deletes only with a free slot, leaving a tombstone |
| AdmissionRules.ConfigurationDecided | execution/postgres_admission.py:137-160 | a policy is taken iff authorised, sensible, current in revision, not over, compatible with the one it replaces, and not below what is reserved in its period |
| AdmissionRules.CreateDecided | execution/postgres_admission.py:162-180 | `create` answers iff the account is enabled and in its period, the job ends within it, the grant and the key are good, and either the request repeats an earlier one, which changes nothing, or tokens, cost and slots have room, which adds one full reservation |
| AdmissionRules.AdmittedDecided | execution/postgres_admission.py:182-191 | the gate passes iff the account is enabled and in its period, its caps hold, and a held reservation of this period matches owner and snapshot |
| AdmissionRules.BeginGated | execution/postgres_admission.py:193-199 | begin is accepted iff the job opens, the gate passes and the kernel accepts, and gives the slot back iff the job ended at rest |
| AdmissionRules.FinishGated | execution/postgres_admission.py:222-231 | no success passes without the gate; past retention the job is closed unopened; the slot is freed iff the job is at rest |
| AdmissionRules.DeletionDecided | execution/postgres_admission.py:256-263 | a job goes iff ended, unheld and allowed, with a receipt if it started work without success, and leaves exactly its tombstone |
| Suspension.StepLoses | execution/postgres_admission.py:162-231 | while an account is disabled or outside its period no create, begin, claim or complete of it is accepted, and no step makes a job of it start, advance or succeed |
| Suspension.DisabledLoses | execution/postgres_admission.py:137-231 | from a granted disabling configuration to the next granted one, over every run: no new job, no charge, no completed stage, no success |
| AdmissionSafety.TransactShape | execution/postgres_admission.py:193-237 | every kernel transaction is refused, or is one journal step on one job plus a safe release |
| AdmissionSafety.CreateShape | execution/postgres_admission.py:162-180 | `create` answers with the job of the key or admits exactly one that fits |
| AdmissionSafety.StepKeepsConsistent | execution/postgres_admission.py:137-263 | the database invariant survives every transaction |
| AccountGuarantees.BudgetHolds | execution/postgres_admission.py:137-180 | from an empty schema, tokens and cost spent are at most those reserved, which are at most the account caps, in every reachable state |
| AccountGuarantees.ChargedOnce | execution/private_store.py:183-210 | one reservation per owner and key for ever, deletion included |
| AccountGuarantees.JobsAreJournalRuns | execution/postgres_admission.py:193-237 | every job of the account store has gone through a run of the kernel journal |
| AccountGuarantees.CancellationDominatesEverywhere | execution/postgres_admission.py:222-237 | cancellation beats admission checks, the downgrade, recovery and completion |
| AccountGuarantees.AliveAtMostSlots | execution/postgres_admission.py:216-254 | jobs that may still run never outnumber the slots held |
| AccountGuarantees.CreateWithinMaximum | execution/postgres_admission.py:173-180 | an admitted job takes one slot and stays within the maximum |
| SlotLimits.StepWithinDecided | execution/postgres_admission.py:137-263 | a legal step from slots within the maximum keeps them within it iff it is not a granted configuration below the slots held |
| SlotLimits.WithinExactlyUnlessLowered | execution/postgres_admission.py:137-263 | over a run from the empty schema slots are always within the maximum iff no configuration lowers it below the slots then held |
| Witnesses.SlotsAboveMaximum | execution/postgres_admission.py:137-160 | a legal run that holds two slots under a maximum of one |
| AccountGuarantees.FreedNeverRuns | execution/postgres_admission.py:216-254 | behind a freed slot the job never changes again and the slot is never retaken |
| AccountGuarantees.CreateIdempotent | execution/private_store.py:54-58 | the same key gives the same job without charge; another request under it is refused |
| AccountGuarantees.DeletionIsFinal | execution/private_store.py:205-208 | a deleted key is never admitted again |
| AccountGuarantees.OneConfigurationPerRevision | execution/postgres_admission.py:140-142 | of two changes against one revision only one succeeds |
| AccountGuarantees.PeriodsDisjoint | execution/postgres_admission.py:143-149 | a new period starts empty after the old one ended |
| AccountGuarantees.PeriodsNeverOverlap | execution/postgres_admission.py:137-160 | the policies of an account at any two moments of a run have the same period or disjoint ones |
| Supervisor.PostgresSupervisor.Enqueue | execution/postgres_supervisor.py:113-128 | queues resumable admitted jobs, once |
| Supervisor.PostgresSupervisor.ClaimOne | execution/postgres_supervisor.py:140-164 | the scan finishes, holds or takes rows in query order |
| Supervisor.PostgresSupervisor.Begin | execution/postgres_supervisor.py:60-69 | begins under a current claim and records the fence next to it |
| Supervisor.PostgresSupervisor.Acknowledge | execution/postgres_supervisor.py:190-198 | gives the row back for an unowned ended or paused job |
| Supervisor.PostgresSupervisor.RecoverStoppedWorker | execution/postgres_supervisor.py:200-225 | recovers the kernel if needed, bumps the generation, records the receipt |
| DispatchRules.EnqueueDecided | execution/postgres_supervisor.py:113-128 | a job is queued iff it is idle, opens, is entitled and admitted, and its row, if any, waits or is held for its owner |
| DispatchRules.JudgeDecided | execution/postgres_supervisor.py:146-160 | a scanned row is done iff its job has ended, and taken iff the account rules and the owner's grant let it run |
| DispatchRules.ClaimOneDecided | execution/postgres_supervisor.py:130-164 | who may scan, over which rows |
| DispatchRules.ScanDecided | execution/postgres_supervisor.py:140-164 | the scan takes the first row that may run under a new generation, has passed the earlier ones as done or held, and leaves the rest of the queue alone |
| DispatchRules.AcknowledgementDecided | execution/postgres_supervisor.py:190-198 | a claim is given back iff it is current and the job is unowned and ended or paused; the row rests as the job asks |
| DispatchRules.RecoveryExact | execution/postgres_supervisor.py:200-225 | an accepted recovery was confirmed under the current claim, fenced off exactly the recorded runner, and left the row unowned in the next generation |
| DispatchSafety.StepKeepsLinked | execution/postgres_supervisor.py:60-225 | the agreement of queue and journal survives every step of either |
| DispatchGuarantees.FencesAgree | execution/postgres_supervisor.py:60-225 | a job with a runner has a claimed row recording its fence; no unended job is lost in a finished or interrupted row |
| DispatchGuarantees.ClaimNeverReturns | execution/postgres_supervisor.py:166-173 | a superseded claim is never accepted again |
| DispatchGuarantees.RecoveryNeverMismatches | execution/postgres_supervisor.py:214-218 | recovery never fails its fence comparison |
| DispatchGuarantees.RecoveryDecided | execution/postgres_supervisor.py:200-225 | in a reachable state recovery goes through iff the claim matches, the receipt is an identifier, the stop is confirmed, and the job has no runner or is still retained |
| Witnesses.RecoveryRefused | execution/postgres_supervisor.py:200-225 | a legal run after which confirmed recovery of the crashed worker is refused from the retention date on |
| Custody.CrashedPastRetention | execution/postgres_supervisor.py:200-225 | past the retention date, unless the dead runner's fence is used, the job keeps its runner, the row its claim, the account its held slot, and recovery is refused, in every continuation |
| Custody.DispatchedRun | execution/postgres_supervisor.py:60-198 | from an accepted begin to the last finish or a recovery nobody takes the claim or the job away, and once the runner has drained the job its finish is followed by an accepted acknowledge iff success was not refused |
| DispatchGuarantees.ClaimsEarliest | execution/postgres_supervisor.py:143-164 | the claimed job is the earliest pending one that may run |
| DispatchReturns.ReturnedClaimIsDead | execution/postgres_supervisor.py:166-225 | in every continuation after a claim was given back no begin, acknowledgement or recovery is accepted under it |
| DispatchReturns.EndedNeverDispatched | execution/postgres_supervisor.py:113-225 | giving back leaves the row waiting iff the job can be resumed, and a job that had ended is never waiting or claimed again in any continuation |
| DispatchReturns.FinishedIsAcknowledged | execution/postgres_supervisor.py:190-198 | in a reachable state, after the last finish of a runner that has drained its job, acknowledge agrees iff success was not refused for a skipped final stage |
| Ledger.FloorAccepts | training/cosmo_controller_ledger.py:257-329 | what is accepted at a sub-second time is accepted at its whole second with the same state |
| Ledger.ReplayLoop | training/cosmo_controller_ledger.py:343-379 | the loop over the lines computes the replay of the history |
| Ledger.PreparedExtends | training/cosmo_controller_ledger.py:422-444 | a prepared record extends an accepted history to an accepted one with the state computed |
| Ledger.GenesisAccepted | training/cosmo_controller_ledger.py:405-418 | the genesis record alone replays |
| Ledger.OneGrant | training/three_family_contract.py:873-879 | an accepted history consumes at most one training run |
| LedgerLaws.ReplayDecided | training/cosmo_controller_ledger.py:343-379 | `replay` accepts iff the records are numbered, linked, dated, bounded and tell the history so far, and every event is in order: an admission after a watchdog and never offering more than before, a grant after an admission with its own quote with its bounds in seconds, a preservation naming the grant |
| LedgerLaws.PreparedFollows | training/cosmo_controller_ledger.py:422-444 | what `append` prepares is the record that follows, dated to the second, and extends the history in order |
| LedgerLaws.FollowingPrepared | training/cosmo_controller_ledger.py:422-444 | at a whole second every following record that is in order, in time and small enough is prepared |
| LedgerLaws.GenesisExact | training/cosmo_controller_ledger.py:405-418 | the genesis is prepared iff the clocks lie in the window in order and it is small enough |
| LedgerLaws.StoredInOrder | training/cosmo_controller_ledger.py:381-446 | whatever races, the stored history is in order, every grant with its own quote behind it |
| LedgerLaws.AppendCommits | training/cosmo_controller_ledger.py:422-446 | one controller that takes the lease and is not raced commits what it prepared |
| LedgerStorage.AlwaysReplayable | training/cosmo_controller_ledger.py:381-446 | whatever races, the blob is missing, empty or replayable by every reader whose clock reached it, with record i at sequence i |
| LedgerStorage.CommittedOnce | training/cosmo_controller_ledger.py:388-393 | each sequence number is committed at most once and stays |
| LedgerStorage.OneWinner | training/cosmo_controller_ledger.py:388-393 | of the requests prepared from one history at most one commits |
| LedgerController.AppendBlob.PutBlock | training/cosmo_controller_ledger.py:388-393 | the conditional append of the service |
| LedgerController.ControllerLedger.AppendRecord | training/cosmo_controller_ledger.py:381-403 | success means committed, read back and still fresh; failure may still have committed exactly this record |
| LedgerController.ControllerLedger.Initialize | training/cosmo_controller_ledger.py:405-420 | create-only genesis |
| LedgerController.ControllerLedger.Append | training/cosmo_controller_ledger.py:422-446 | only the prepared record can be added, and only success is reported as success |
| CoreAdapter.Stages | core/adapter.py:51-56 | the four runs of numbered passes |
| CoreAdapter.IdsDistinct | core/adapter.py:115-116 | no two stages of a plan share an identifier |
| CoreAdapter.BuildCorePlan | core/adapter.py:113-183 | returns the plan of the request, or refuses as soon as a stage does not fit |
| CoreAdapter.StageOfPlan | core/adapter.py:140-150 | a stage reserves its template count plus the sum of all earlier output caps, within the context |
| PlanShape.StageStands | core/adapter.py:51-56 | the i-th stage, by kind and number: planning, then answers, critics, verifications |
| PlanShape.LastStands | core/adapter.py:51-56 | the public last stage is the last pass of the last kind that has any |
| PlanShape.DecimalRead | core/adapter.py:115-116 | stage numbers are written in digits without leading zeros and read back to themselves |
| PlanShape.PlanStands | core/adapter.py:113-183 | every field of an operation from the earlier operations: name, all earlier dependencies, prompt and templates word for word, bindings by target, reservation and caps |
| CoreAdapter.BuilderMeetsValidator | execution/contracts.py:226-260 | an accepted plan passes the validator iff it has 1 to 16 passes |
| ArtifactBinding.CheckOutputs | core/adapter.py:219-229 | exactly the declared outputs, each and together within bounds |
| ArtifactBinding.BindAll | core/adapter.py:241-258 | the in-place loop is the simultaneous substitution, accepted iff all bindings fit and targets differ |
| ArtifactBinding.OrderIrrelevant | core/adapter.py:241-258 | reordering bindings changes neither acceptance nor result |
| ArtifactBinding.ReplacementExact | core/adapter.py:256-257 | the check for one occurrence passes iff there is a place where the needle occurs and no other; it is replaced there, and everything around it stays |
| ArtifactBinding.BindCoreOperation | core/adapter.py:208-280 | success iff outputs, identity, bindings, absence of placeholders and recount are all right |
| BinderRules.BinderDecided | core/adapter.py:208-280 | the binder succeeds with a request iff outputs are exactly those declared and within their bounds, the system messages are the server's, every placeholder stands exactly once in its own assistant message, the request is that rewriting with no placeholder left, and the recount fits |
| ArtifactBinding.BuiltPlansBind | core/adapter.py:241-265 | every built operation binds clean outputs to header plus output, leaving no placeholder |
| Rollout.RehearsalJournal.Create | release/rollout.py:256-266 | creates once, at weight zero |
| Rollout.RehearsalJournal.Save | release/rollout.py:278-281 | one version per save, with the history guard |
| Rollout.RehearsalJournal.PromoteNext | release/rollout.py:301-311 | records the next weight's intent |
| Rollout.RehearsalJournal.RollBack | release/rollout.py:313-329 | records a rollback intent |
| Rollout.RehearsalJournal.Confirm | release/rollout.py:331-351 | applies the pending intent to the confirmed state |
| RolloutRules.CreationDecided | release/rollout.py:256-266 | a journal is created iff the weights rise to 100, both engines are seen at zero with healthy baselines, and no intent is around |
| RolloutRules.PromotionDecided | release/rollout.py:301-311 | a promotion is taken iff nothing is pending or rolled back, both engines are healthy at the confirmed weight and the evidence passes for this version, and records the next weight |
| RolloutRules.RollbackDecided | release/rollout.py:313-329 | a rollback is taken whatever the candidates' health, with healthy baselines, and over a pending promotion once that has settled |
| RolloutRules.ConfirmationDecided | release/rollout.py:331-351 | the pending intent is confirmed iff both engines are seen settled at its weight, with healthy candidates for a promotion |
| Rollout.StepGood | release/rollout.py:278-351 | the invariant survives and the history guard never refuses |
| Rollout.RolloutRuns | release/rollout.py:278-351 | confirmed weights climb the plan without a gap, then fall to zero; version counts a history of at most 2n+2 entries |
| Rollout.RollbackAbsorbs | release/rollout.py:301-317 | nothing is enabled after a confirmed rollback |
| Rollout.AlwaysCanLeave | release/rollout.py:313-351 | from every reachable state before a confirmed rollback at most two transactions, with both candidates unhealthy and no gate, reach weight zero for good |
| Topological.Order | evaluation/a35_correction_data.py:51-58 | terminates, succeeds iff an order exists, and returns the lexicographically least |
| Safetensors.ChainedIffTiles | training/cosmo_adapter_receipt.py:363-367 | the sorted check accepts exactly the ranges that put every byte in one range |
| Safetensors.TensorDecided | training/cosmo_adapter_receipt.py:347-362 | an entry is valid iff it matches one target, has a shape, and spans exactly its numbers in a known type |
| Safetensors.ValidateSafetensors | training/cosmo_adapter_receipt.py:338-367 | accepts exactly the complete inventories that tile the data section |
| QualityEvidence.Analyze | evaluation/quality_evidence.py:131-235 | accepts exactly the analysable bundles and returns their units |
| QualityEvidence.UnitsPartitionAttempts | evaluation/quality_evidence.py:203-235 | cases x routes x 2 units, every attempt in exactly one, the counts adding up |
| QualityEvidence.VerdictDecided | evaluation/quality_evidence.py:203-235 | a unit is missing iff it has no attempt, and otherwise judged by its last one |
| QualityEvidence.P95IsNearestRank | evaluation/quality_evidence.py:250-254 | the percentile is the least value with 19/20 of the samples at or below it |
| SuiteBridge.MapCases | evaluation/historical_suite_bridge.py:53-84 | accepts exactly the pinned category and kind counts |
| SuiteBridge.SummarizeEvidence | evaluation/historical_suite_bridge.py:109-133 | refused iff the mapping or the analysis refuses; both final reconciliations always pass |

## Left out

- SQL, savepoints, advisory locks and connections: a transaction is one atomic step.
- Ciphers, key rotation, signatures and hashes as algorithms: they would only add injectivity axioms.
- Undecodable text (lone surrogates) and the byte bound of a fragment: 8192 characters never exceed it otherwise.
- A supervisor constructed with `enabled=False`: it refuses every call before it looks at anything.
- `status`, `account_status` and `admit_and_enqueue`: reports, and two modelled transactions in a row.
- Thread-pool internals: a thread is a sequence of store transactions in an arbitrary interleaving; consecutive control checks of one thread count as one.
- Idle polls of the runner: bounded by an arbitrary number per batch, so that termination can be proved.
- The runner is driven over the kernel store; that a dispatched run keeps its claim to the end and is then acknowledged is stated for the steps of any runner (`Custody.DispatchedRun`), not by running the loop over the account store.
- Azure transport, container policy reads and HTTP: `protected` says that the policy read succeeded.
- `verify_external_terminal` and the terminal event: they act after the ledger is deleted.
- The shapes of signed grants and receipts in the ledger: `genuine` stands for them.
- Message shape limits of a Core request, route tables and identity texts: finite case analysis.
- Plan, deployment and evidence field validation of the rollout journal: `genuine` stands for it.
- Scoring of answers, reviews, costs, means and medians in the evidence report: no accounting depends on them.
- Header parsing of the safetensors file: the model starts from the parsed entries and the size of the data section.
