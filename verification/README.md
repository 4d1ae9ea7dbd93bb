# Coding-agent adapter: a verified model

The repository lets a control plane hand approved coding tasks to an isolated adapter. The adapter reserves a job,
starts it at most once, runs a coding agent behind a budgeted model broker, verifies and publishes one patch as a
Draft, and reports one terminal event, across crashes, lost responses and restarts. This project models that core and
proves what it keeps over every run.

| module | what it models |
|---|---|
| `Records` | evidence, checkpoints, results and control-plane events, with their validators |
| `Protocol`, `ProtocolInvariant` | the job protocol as a crash-restart state machine, and its inductive invariant |
| `ProtocolTheorems`, `DeliveryTheorems`, `CancelTheorems`, `RecoveryTheorems` | the guarantees over all runs: reload, run once, terminal identity, checkpoints; delivery and reporting; cancellation; recovery |
| `AdapterJob` | the same handlers as methods that update a job object and its receipt file in place, each proved to be the protocol's steps |
| `Usage`, `Broker` | the incremental usage reader, and the job-scoped model broker with budgets, retries, latch and refunds |
| `Output`, `Patch` | bounded process output; patch validation, the verify/repair loop and the order of commit, checkpoint, push and Draft |
| `RepairTheorems` | the verify/repair loop stated without the loop: which cycles are verified and repaired, and every outcome |
| `Publication` | one execution inside the job protocol: its effects are all that the job ever publishes |
| `Text`, `Replacement` | literal search and replace, the deterministic campaign replacement and its patch check |
| `Scan`, `ScanOrder` | the campaign scan, and when its report depends on the order of the listing |
| `Decision` | the admission classifier, the thresholded model choice with its rounding sum, and the monotone merge |
| `Dispatch` | the runner's dispatch of one plan, with any number of concurrent and repeated deliveries |
| `Joint` | dispatch and job protocol together, joined at the one-use start gate |
| `Credentials` | concurrent OAuth refresh by compare-and-swap |

`dafny verify dfyconfig.toml` checks the whole project.

## How to read it

A protocol is a total function `Apply` from a state and a step to a state; a step that is not possible leaves the
state alone, so *every* sequence of steps is a run and the theorems quantify over all of them. One step of the job
protocol is one critical section of the job's state lock, one call to the outside, a crash or a restart. A save
succeeds, or fails leaving the old or the new receipt on disk. `start` keeps the lock from its first save to its last.
The ghost log records start claims, launches, accepted checkpoints, pushes, Draft requests, callbacks and
acknowledged cancels.

Assumptions of the job protocol: the executor implements publication reconciliation, as the pipeline does; the
configuration does not change across restarts; an encoded submission decodes to itself, so its digest is a function of
the submission; an admitted submission has a parseable attempt ID (`Records.GoodSetting`); a receipt directory is
configured, as cmd/agent-task-adapter requires; failure diagnostics are non-blank and at most 4000 bytes.

## Where the code does less than it promises

- `loadReceipts` compares a terminal event's attempt ID in canonical UUID spelling with the submitted spelling
  (internal/agentadapter/service.go:229). For an attempt ID in another accepted spelling the adapter rejects its own
  terminal receipt on restart. `ProtocolTheorems.ClosureExactly` proves that every receipt of every run is accepted
  if and only if the attempt ID is canonical.
- The cancel handler answers 204 without writing anything in two cases (internal/agentadapter/service.go:649-668). A
  job that is terminal in memory is not saved, though its disk may still say "reserved" (`LostCancelReachable`). And a
  request that names no job in memory has no effect at all: one in another spelling of the attempt ID
  (`MisspelledCancelLaunches`), or one for a reservation whose save was reported lost but reached the disk
  (`UnknownCancelLaunches`). In each of these runs the job is launched after its acknowledged cancel.
  `CancelFinalExactly` proves, for every reachable state and every acknowledged request, that no launch and no
  checkpoint can follow if and only if the request names the job in memory and is not the lost cancel, or no work was
  left to do anyway.
- Recovery runs beside request serving (cmd/agent-task-adapter/main.go:195), so a reservation that is reloaded and
  started before recovery reaches it is reported as interrupted while it runs (`LiveJobReportedInterrupted`).
  `MistakenExactly` proves, for every run that reaches an execution with nothing reported, that some continuation
  reports the job while it runs if and only if recovery still has it queued as started, is probing it, or is about to
  report it.
- A scan of a listing with duplicate paths ends as incomplete, but the partial counts it reports can depend on the
  listing order (`ScanOrder.DuplicatesDepend`). `ScanOrder.OrderIndependentExactly` proves that all sorts of a listing
  give one report if and only if the scan stops before the first repeated eligible path or all entries of that path
  look the same to it there; the completeness flag and every complete report never depend on the order.
- The model's probabilities are added as floating-point numbers in map order, so a sum at a threshold can fall on
  either side: 0.813, 0.049, 0.059 and 0.059 answer "plan" in one order and fail as inconsistent in another
  (`Decision.RoundingDepends`). With an addition that is off by at most u, `Decision.ClearExactly` proves that the order
  never matters for an exact sum if and only if that sum is clear of 0.98 and 1.02 by 3u. The two largest
  probabilities never depend on the order.

## Model

| member | source | states |
|---|---|---|
| `Records.CompletedEventValid` | internal/agentadapter/service.go:837-839 | a valid result that matches a valid checkpoint always yields a completed event that the control plane's own validator accepts, with the checkpoint's evidence, the task's branch, the policy-checked Draft and, where required, all criteria verified |
| `Records.AttentionEventValid` | internal/domain/agent_task.go:450-498 | every attention event the adapter builds passes the control plane's validator |
| `Records.CheckpointEventExactly` | internal/agentadapter/service.go:710-720 | of the checkpoints the adapter keeps, the control plane accepts exactly those with a lower-case head and an agent branch |
| `Records.TrimIdempotent` | internal/agentadapter/service.go:1032-1038 | trimming leaves no blank at either end, is idempotent, never lengthens, and leaves a text that starts and ends with non-blanks as it is |
| `ProtocolInvariant.KeepStep` | internal/agentadapter/service.go:510-914 | every step of every thread, every failed save and every crash keeps the protocol invariant |
| `ProtocolInvariant.Reachable` | internal/agentadapter/service.go:449-914 | the invariant holds after every sequence of steps |
| `ProtocolTheorems.AcceptsExactly` | internal/agentadapter/service.go:211-252 | a well-formed receipt passes every reload check exactly when it holds no event or the attempt ID is canonical |
| `ProtocolTheorems.RestartAlwaysLoads` | internal/agentadapter/service.go:211-269 | with a canonical attempt ID, a crash at any point of any run is followed by a restart that loads what was written |
| `ProtocolTheorems.ClosureExactly` | internal/agentadapter/service.go:229-231 | every receipt of every run is accepted on reload if and only if the attempt ID is in canonical spelling |
| `ProtocolTheorems.SubmitExactly` | internal/agentadapter/service.go:449-505 | a reservation is made exactly by an admitted submission of the attempt to a serving process without the job, and is served only once saved |
| `ProtocolTheorems.RunOnce` | internal/agentadapter/service.go:510-579 | over every run with crashes: drafts <= pushes <= accepted checkpoints <= launches <= start claims <= 1 |
| `ProtocolTheorems.DurableRankNeverDrops` | internal/agentadapter/service.go:274-280 | the durable status never moves back along reserved, starting, started, cancelled, terminal, and a job past its reservation keeps its identity |
| `ProtocolTheorems.OneTerminalIdentity` | internal/agentadapter/service.go:859-914 | all terminal callbacks ever sent are one and the same event, which is the durable one; delivered and rejected never both hold |
| `ProtocolTheorems.SentOnlyDurable` | internal/agentadapter/service.go:872-889 | no terminal callback is sent before that very event is on disk |
| `ProtocolTheorems.CheckpointSoundness` | internal/agentadapter/service.go:686-783 | each push follows the acceptance of a valid checkpoint with the same head; an accepted checkpoint never changes; a completed event equals the checkpoint on all evidence and criteria |
| `DeliveryTheorems.FlagsMean` | internal/agentadapter/service.go:882-900 | over every run "delivered" is on disk only after an acceptance reached a delivery in progress, and "rejected" only after a conflict did |
| `DeliveryTheorems.AnswerKept` | internal/agentadapter/service.go:882-900 | in every run with a delivery in progress, a saved acceptance leaves "delivered" and a saved conflict leaves "rejected" on disk for this event, and not the other flag, under every continuation |
| `DeliveryTheorems.RecoveryResends` | internal/agentadapter/service.go:305-308 | after a restart, a durable undelivered event is sent once more and its acceptance is recorded |
| `DeliveryTheorems.RetryResends` | internal/agentadapter/service.go:340-364 | a pass over pending events sends an undelivered event once more and its acceptance is recorded |
| `DeliveryTheorems.FinishExactly` | internal/agentadapter/service.go:723-776 | an execution is reported completed if and only if it returned a valid result that matches its checkpoint, or failed and the provider confirms the checkpoint; otherwise it needs attention, with the kind and code of what was wrong |
| `DeliveryTheorems.StoppedReportsNothing` | internal/agentadapter/service.go:725-727 | once a launched execution is stopped before it began to report, no continuation makes it report |
| `DeliveryTheorems.ClosedLaunchesNothing` | internal/agentadapter/service.go:565-575 | a process that is shutting down launches nothing |
| `DeliveryTheorems.ElapsedCancels` | internal/agentadapter/service.go:533-544 | a start past the deadline is cancelled on disk and launches nothing |
| `DeliveryTheorems.ReloadKeeps` | internal/agentadapter/service.go:256-258 | reloading brings back exactly what was written |
| `DeliveryTheorems.TamperedRefused` | internal/agentadapter/service.go:216-246 | an accepted receipt that is altered in what binds it, or into a state the service never writes, is refused |
| `CancelTheorems.CancelFinalExactly` | internal/agentadapter/service.go:641-669 | in every reachable state, for every acknowledged cancel request, no continuation launches or records a checkpoint, if and only if the request names the job in memory and is not the lost cancel, or no work was left |
| `CancelTheorems.BarredExactly` | internal/agentadapter/service.go:510-579 | no continuation launches or records a checkpoint, exactly when the start claim is spent on disk, no open start can launch and no running execution may record |
| `CancelTheorems.CancelStops` | internal/agentadapter/service.go:656-659 | a cancel of a job in memory stops its execution, and is on disk once saved |
| `CancelTheorems.MisspelledCancelLaunches` | internal/agentadapter/service.go:649-668 | a run in which a job is cancelled in another spelling of its attempt ID, acknowledged, and launched |
| `CancelTheorems.UnknownCancelLaunches` | internal/agentadapter/service.go:647-668 | a run in which a reservation that only the disk knows is cancelled, acknowledged, reloaded and launched |
| `CancelTheorems.LostCancelReachable` | internal/agentadapter/service.go:651-655 | a run in which the acknowledged cancel is lost |
| `CancelTheorems.ReservedRelaunches` | internal/agentadapter/service.go:256-266 | whenever the disk says reserved, a crash, a restart and a start launch the job once more |
| `RecoveryTheorems.RecoveryTotal` | internal/agentadapter/service.go:286-335 | after a crash anywhere, if saves succeed and nobody cancels, a job reloaded as starting or started that recovery handled has a durable terminal event under every interleaving and delivery outcome |
| `RecoveryTheorems.RecoveryReports` | internal/agentadapter/service.go:302-334 | an undisturbed recovery reports completion if and only if a started job's checkpoint is confirmed by a valid, matching provider reading, and otherwise says whether a checkpoint is left unverified |
| `RecoveryTheorems.CompletedConfirmed` | internal/agentadapter/service.go:309-319 | under every interleaving, a completed event comes to be on disk only if the job was reloaded as started with a checkpoint and some provider reading of recovery confirmed that checkpoint |
| `RecoveryTheorems.ReservedUntouched` | internal/agentadapter/service.go:296-309 | a job reloaded as reserved keeps its receipt and stays startable under recovery and everything else that is not a start or a cancel, further crashes included |
| `RecoveryTheorems.MistakenExactly` | internal/agentadapter/service.go:286-335 | in every reachable state with an unreported execution in progress, some continuation reports the job while it runs if and only if recovery has it queued as started, is probing it or is handing its report on |
| `RecoveryTheorems.LiveJobReportedInterrupted` | internal/agentadapter/service.go:309-333 | a run in which a started job is reported interrupted while it executes |
| `ProtocolTheorems.FailingRunEnds` | internal/agentadapter/service.go:671-776 | a reserved, started and failed execution ends with a durable terminal receipt |
| `AdapterJob.ReceiptFile.Save` | internal/agentadapter/receipts.go:94-127 | the file after a save that succeeded, failed before or failed after the rename |
| `AdapterJob.ServiceJob.Load` | internal/agentadapter/service.go:259-266 | a reloaded job past its reservation is spent: started, cancelled and stopped |
| `AdapterJob.HandleSubmit` | internal/agentadapter/service.go:449-505 | the handler is the protocol's submit step; a repeated submission gets the job it made, a different one of the same attempt is a conflict, and a new job is served only once saved |
| `AdapterJob.ServiceJob.Start` | internal/agentadapter/service.go:510-579 | the whole handler is the protocol's begin, gate and commit steps; 204 exactly for a launch or a job already started |
| `AdapterJob.ServiceJob.Cancel` | internal/agentadapter/service.go:650-665 | the part under the job's lock is the protocol's cancel step, and its 204 is exactly the acknowledged cancel in the log |
| `AdapterJob.HandleCancel` | internal/agentadapter/service.go:641-669 | the whole handler is the protocol's cancel step: a request that names no job in memory is answered 204 and changes nothing |
| `AdapterJob.ServiceJob.Retain` | internal/agentadapter/service.go:686-709 | the checkpoint recorder is the protocol's retain step; a failed save restores the previous checkpoint in memory |
| `AdapterJob.ServiceJob.SendTerminal` | internal/agentadapter/service.go:879-914 | the callback loop is at most five protocol callbacks; it records delivered exactly when the first reply that is not an unexpired failure is an acceptance, and rejected exactly when it is a conflict |
| `AdapterJob.ServiceJob.DeliverTerminal` | internal/agentadapter/service.go:859-914 | ignored, saved and sent deliveries are the protocol's steps, in that order; the flags change only for an event that is neither ignored nor unsaved, and then by the deciding reply |
| `AdapterJob.ServiceJob.Recover` | internal/agentadapter/service.go:300-334 | one job's turn in recovery is the protocol's look, probe and deliver steps |
| `AdapterJob.LoadReceipts` | internal/agentadapter/service.go:211-269 | startup succeeds exactly when no record is from the future, every record passes every check, every expired one can be removed, and no attempt or job ID repeats among the others; it then loads exactly those, in order |
| `Usage.ChunkIndependence` | internal/agentadapter/anthropic_usage.go:18-39 | however a stream is split into reads, the reader ends as for the whole stream, or is invalid both times |
| `Usage.RefundOfStream` | internal/agentadapter/anthropic_usage.go:82-106 | two splittings of one stream earn the same refund |
| `Usage.ScanFolds` | internal/agentadapter/anthropic_usage.go:27-38 | reading byte by byte is folding the stream's data events, provided no line is over 64 KiB |
| `Usage.Phases` | internal/agentadapter/anthropic_usage.go:41-80 | the reader's flags say exactly whether the events so far are before, inside or after one message, and `last` is the count reported last |
| `Usage.RefundMeaning` | internal/agentadapter/anthropic_usage.go:82-94 | a stream earns ceiling minus its last reported count exactly when it is one complete message with non-decreasing counts within the ceiling, stopped by its last event, with a positive final count; otherwise nothing |
| `Usage.PlainRefundMeaning` | internal/agentadapter/anthropic_usage.go:95-105 | a response that is not streamed earns ceiling minus its count exactly when it is one complete message with a positive count within the ceiling |
| `Usage.ReportedBounded` | internal/agentadapter/anthropic_usage.go:67-72 | the reported count of a message is between zero and the ceiling |
| `Usage.RefundSettles` | internal/agentadapter/anthropic_usage.go:82-106 | for streams and plain bodies in any chunks, the refund leaves exactly what the response owes, at least one token and at most the ceiling |
| `Usage.AnthropicUsage.Feed` | internal/agentadapter/anthropic_usage.go:18-39 | the in-place byte loop is the specified scan |
| `Usage.AnthropicUsage.Consume` | internal/agentadapter/anthropic_usage.go:41-80 | one line's update of the flags is the specified event step |
| `Usage.AnthropicUsage.Settle` | internal/agentadapter/anthropic_usage.go:82-106 | the refund of the accumulated state, an unterminated last line included |
| `Broker.RetryBounded` | internal/agentadapter/model_upstream.go:157-179 | a status is retried exactly when it is transient and Retry-After is absent or asks for at most five seconds, and the wait is the larger of 250 * 2^retry ms and what is asked for |
| `Broker.CopyBounded` | internal/agentadapter/model_broker.go:265-287 | the child receives at most 16 MiB, exactly the reads in order, each filled to the room left and none refused before the last; a whole response is all of the reads up to the one that ended the body |
| `Broker.SendAccounts` | internal/agentadapter/model_upstream.go:115-150 | every send has its own reservation, at most three sends are made, and what remains is accounted for |
| `Broker.SendLatches` | internal/agentadapter/model_upstream.go:115-150 | a send latches exactly when its final answer is 300 or above or the transport was lost, and records that failure; only a caller leaving during a transient failure's wait ends unanswered and unlatched |
| `Broker.SendsExactly` | internal/agentadapter/model_upstream.go:115-150 | a request is sent again exactly as long as the answer is transient and retryable, the caller waits and all budgets have room, at most three times; the last send decides the answer, and the counters are those of the sends made |
| `Broker.RetrySucceeds` | internal/agentadapter/model_upstream.go:127-147 | a 503 without Retry-After followed by a 200 is answered 200 after two sends, unlatched |
| `Broker.RefusalCosts` | internal/agentadapter/model_broker.go:172-234 | what a call costs that is not forwarded, and that an exhausted budget latches with status 429 |
| `Broker.ForwardCosts` | internal/agentadapter/anthropic_model_broker.go:138-184 | nothing is given back unless a 200 response is handed on whole, and then exactly what it does not owe; only a broken connection latches after the sending |
| `Broker.HandleKeeps` | internal/agentadapter/anthropic_model_broker.go:19-184 | one handler call keeps the budgets, the ledger and the latch, and sends at most three times |
| `Broker.BudgetInvariant` | internal/agentadapter/model_broker.go:147-288 | the accounting invariant holds after every sequence of handler calls |
| `Broker.BudgetsHold` | internal/agentadapter/model_broker.go:25-32 | an unlatched broker has at most 24 requests, 65536 reserved tokens and 2^20 charged bytes; a job makes at most 24 sends, each on its own reservation |
| `Broker.ReservedIsOwed` | internal/agentadapter/anthropic_model_broker.go:116-178 | over every run the reserved tokens are the ceilings minus the refunds, which is the reported usage of settled messages plus the full ceilings of all other sends |
| `Broker.WholeAnswerCharged` | internal/agentadapter/anthropic_model_broker.go:116-178 | a call answered at once by a whole 200 response costs one request, its body's bytes and exactly the tokens the response owes |
| `Broker.LatchForever` | internal/agentadapter/model_upstream.go:38-51 | once latched, no handler call changes the first failure, a counter or the number of sends |
| `Broker.LatchDiagnosed` | internal/agentadapter/execution_diagnostics.go:67-92 | a latched broker is always diagnosed as a failure, as a budget failure exactly when a reservation overflowed, and the latch holds exactly when a failure status is recorded |
| `Broker.DiagnosisMeans` | internal/agentadapter/execution_diagnostics.go:67-92 | the diagnosis carries the counters after an overflow, the first failure of a latched broker, and the last answer where the coding phase failed by itself |
| `Broker.ModelBroker.BlockUpstream` | internal/agentadapter/model_upstream.go:41-51 | the first failure is kept |
| `Broker.ModelBroker.ObserveUpstream` | internal/agentadapter/model_upstream.go:28-36 | an observation is recorded, and a definite client error latches |
| `Broker.ModelBroker.SendOnce` | internal/agentadapter/model_upstream.go:117-148 | one pass of the retry loop is the specified attempt, short-circuited reservations included |
| `Broker.ModelBroker.SendModelRequest` | internal/agentadapter/model_upstream.go:115-150 | the in-place retry loop is the specified sending |
| `Broker.ModelBroker.RelayBody` | internal/agentadapter/anthropic_model_broker.go:150-184 | the read loop settles a whole 200 response once, latches a broken one, and leaves the counters alone otherwise |
| `Broker.ModelBroker.HandleRequest` | internal/agentadapter/anthropic_model_broker.go:19-184 | the handler's updates in place are the specified handler call |
| `Output.WholeOrExceeded` | internal/agentadapter/pipeline.go:789-814 | for every sequence of writes the captured text is the prefix of length min(limit, total), `exceeded` holds exactly when total is over the limit, and the child is then asked to stop exactly once |
| `Output.BoundedOutput.Write` | internal/agentadapter/pipeline.go:789-808 | one write in place is the specified capture step |
| `Output.Git` | internal/agentadapter/pipeline.go:531-558 | a Git command's output is accepted exactly when the command succeeded within 8 MiB, and then it is everything the command wrote |
| `Patch.RepairBudget` | internal/agentadapter/repair.go:23-95 | with budget b there are at most b + 1 verifications and b repairs, alternating by cycle; the final return is reached exactly for a negative budget |
| `Patch.RepairBounded` | internal/agentadapter/repair.go:33-66 | the same bound from any cycle on |
| `Patch.RepairSound` | internal/agentadapter/repair.go:37-63 | on success the last verification passed on exactly the returned tree, which was validated again after it with the returned digest and length; no criterion failed, and required criteria are all verified |
| `RepairTheorems.LoopExactly` | internal/agentadapter/repair.go:33-95 | in terms of each verification and repair alone: cycle k is verified exactly when all before it failed in the ordinary way and were mended and time was left, and repaired exactly when it then failed with the patch intact below the budget; the outcome is verified exactly when some cycle so reached passes, and a refusal names what was wrong there |
| `RepairTheorems.OrdinaryFailureRepaired` | internal/agentadapter/repair.go:64-67 | a nonzero exit below the budget is repaired, and a verifier that was stopped never is |
| `Patch.ValidatePatch` | internal/agentadapter/pipeline.go:846-920 | the checks with their loops accept exactly the publishable trees and give their identity |
| `Patch.ValidateExactly` | internal/agentadapter/pipeline.go:846-920 | a tree is accepted exactly when Git could be read, its paths, counts and sizes are allowed, and its diff has no binary part and no secret |
| `Patch.CheckPatch` | internal/agentadapter/repair.go:37-67 | one verification and the checks after it, on the workspace it changed |
| `Patch.RepairPatch` | internal/agentadapter/repair.go:71-92 | one repair and the validation of the patch it left |
| `Patch.HasFailed` | internal/agentadapter/repair.go:49-55 | a failed criterion is found exactly when there is one |
| `Patch.VerifyAndRepair` | internal/agentadapter/repair.go:23-95 | the loop over the workspace is the specified loop, with the same work and outcome |
| `Patch.Prepare` | internal/agentadapter/pipeline.go:152-182 | a patch is prepared exactly when coding was clean, its tree is publishable and, where a profile is approved, the loop verified it; the evidence is that of a verification that passed on this tree |
| `Patch.Execute` | internal/agentadapter/pipeline.go:184-258 | the outside sees at most a saved checkpoint, then, once it is acknowledged, a push of its head under the branch lease and a Draft of the same head, each behind its own checks; exactly how far it gets in the world it meets, and a result exactly when it gets to the Draft; checkpoint, staged diff, commit and verified tree have one digest, length and evidence; a result matches the checkpoint and is valid exactly when its Draft is |
| `Patch.LeaseExactly` | internal/agentadapter/pipeline.go:277-294 | a push creates an absent branch for an issue or a campaign, or replaces exactly the frozen head of the feedback task's own agent branch |
| `Patch.ResultValid` | internal/agentadapter/service.go:989-1003 | a result that matches an accepted checkpoint is valid exactly when its Draft and sentence are |
| `Publication.EffectsAreActs` | internal/agentadapter/service.go:686-723 | for every effects an execution can have and every result, the protocol steps of that execution add exactly its acts to the log and return its result |
| `Publication.OnePublication` | internal/agentadapter/pipeline.go:205-258 | in every run that reaches an execution, the checkpoints, pushes and Draft requests of the whole run, under every continuation with crashes and recovery, are exactly the effects of that one execution: at most one of each |
| `Publication.ExecutionCompletes` | internal/agentadapter/service.go:723-776 | an execution that had all three effects and returned a valid result of its checkpoint is reported as completed with the checkpoint's evidence |
| `Text.PiecesJoin` | internal/agentadapter/campaign.go:81-91 | a text is its pieces joined by the search text, the replacement is the same pieces joined by the new text, and there is one piece more than the count |
| `Text.PiecesFree` | internal/agentadapter/campaign.go:91 | between replaced occurrences there is no occurrence |
| `Text.ReplaceLength` | internal/agentadapter/campaign.go:84 | the length after replacement is len + matches * (len(new) - len(old)) |
| `Text.ReplaceDiffers` | internal/domain/agent_campaign.go:205-207 | replacing by another text changes every text that has an occurrence |
| `Replacement.PlanUpdates` | internal/agentadapter/campaign.go:61-92 | the checking pass succeeds exactly for a valid binding whose frozen files all have their digest, count and bounded size, and plans exactly their replacements |
| `Replacement.ApplyReplacement` | internal/agentadapter/campaign.go:60-99 | nothing is written unless every frozen file passed; on success exactly the frozen files are replaced; a failed write touches frozen files only |
| `Replacement.ReplacedSize` | internal/agentadapter/campaign.go:84-91 | each frozen file changed, and its new length is the predicted one, at most 500000 |
| `Replacement.ValidateCampaignFiles` | internal/agentadapter/campaign.go:100-141 | the patch check accepts exactly when the binding is valid and every changed path is in scope and, for a replacement, frozen with the approved result |
| `Replacement.ReplacementAccepted` | internal/agentadapter/campaign.go:93-141 | after a replacement on a clean checkout exactly the frozen files differ, and the patch check accepts each of them |
| `Scan.ScanCampaign` | internal/agenttasksource/campaign.go:95-173 | the loop with its seen paths and counters is the specified scan |
| `Scan.CompleteExactly` | internal/agenttasksource/campaign.go:104-172 | a scan is complete exactly when the eligible paths are distinct and every regular file is readable and met within the budgets, and then its counts, bytes, matches and files are the exact totals |
| `Scan.IncompleteExplained` | internal/agenttasksource/campaign.go:108-166 | a report is incomplete exactly when it carries an error code or a failed read |
| `Scan.StopCodes` | internal/agenttasksource/campaign.go:117-166 | which error code stands for what, and that a stopped scan counts nothing more except the file that was too much |
| `Scan.ListedExactly` | internal/agenttasksource/campaign.go:105-169 | a complete report lists exactly the in-scope regular text files that have a match, or all of them for documentation, with digest, count and size |
| `Scan.CompleteCovers` | internal/agenttasksource/campaign.go:108-166 | in a complete scan, scanned plus excluded is the number of in-scope entries that are not directories, within 1000 files, 20 MiB plus one file, and 100000 matches |
| `ScanOrder.OrderIndependent` | internal/agenttasksource/campaign.go:95-172 | the completeness flag and every complete report are the same for every listing order and every treatment of equal paths by the sort |
| `ScanOrder.OrderIndependentExactly` | internal/agenttasksource/campaign.go:95-116 | all sorts of a listing give one report if and only if the scan stops before the first repeated eligible path or all entries of that path look the same to it there |
| `ScanOrder.DuplicatesDepend` | internal/agenttasksource/campaign.go:108-116 | a listing with a duplicate path whose incomplete report depends on the order |
| `Scan.ScanAgrees` | internal/agenttasksource/campaign.go:153-169 | a literal replace-mode receipt gives a valid binding, passes the replacement's digest and count checks on the same commit, and is admitted exactly when the paths are plain and the results fit |
| `Decision.ThresholdedChoice` | internal/agentdecision/backend.go:356-379 | the loop over the map in any order and with any addition gives the specified answer |
| `Decision.AnswerOrderFree` | internal/agentdecision/backend.go:360-374 | with every addition that is off by at most u, the answer, errors included, is the same for every map order if the exact sum is clear of 0.98 and 1.02 by 3u |
| `Decision.ClearExactly` | internal/agentdecision/backend.go:365-374 | the order can never matter for an exact sum, whatever the rounding within u, if and only if that sum is clear of both thresholds by 3u |
| `Decision.RoundingDepends` | internal/agentdecision/backend.go:365-374 | for every error bound, a distribution and an addition for which one order answers "plan" and another is inconsistent |
| `Decision.SumNear` | internal/agentdecision/backend.go:365 | the sum of n probabilities is off by at most n - 1 rounding errors |
| `Decision.ExactOrderFree` | internal/agentdecision/backend.go:360-378 | with exact addition the order never matters |
| `Decision.WalkOrderFree` | internal/agentdecision/backend.go:366-370 | the two largest probabilities, and the exact sum, are the same for every order |
| `Decision.BestIsMax` | internal/agentdecision/backend.go:366-370 | `best` is the largest probability |
| `Decision.AnswerMeans` | internal/agentdecision/backend.go:372-378 | the answer names the model's choice exactly when that has at least 0.80 and leads every other option by 0.15, and "uncertain" otherwise; confidence is the nearest percentage, 0 to 100 |
| `Decision.AnswerKinds` | internal/agentdecision/backend.go:357-374 | which responses are incomplete or invalid, and that exactly the others with a sum within the thresholds and the named choice on top are answered |
| `Decision.SignalAccepted` | internal/agentdecision/backend.go:300-310 | a signal built from an answer is never refused by the merge for the same backend |
| `Decision.RefusedExactly` | internal/agentdecision/backend.go:301-310 | model evidence is refused exactly when it is needed and is missing, for another backend or malformed |
| `Decision.MergeMonotone` | internal/agentdecision/backend.go:298-325 | no sequence of signals weakens a classification, only requires_human changes, and reasons are only appended |
| `Decision.MergeConsistent` | internal/agentdecision/backend.go:313-323 | no sequence of signals makes decision, risk and next action disagree, or lowers the risk of a task that stays open |
| `Decision.ModelDecides` | internal/agentdecision/backend.go:307-324 | a task stays with its owner exactly after a decisive "plan", which changes nothing, or "human", which makes the risk high, and is rejected exactly after a decisive "reject" |
| `Decision.GuardIndependent` | internal/agentdecision/backend.go:270-275 | the guard asks the model exactly when the classifier leaves the decision to a human, whatever the source state, which is exactly for requests without hostile text, with a title and at least 80 bytes of body; hostile and empty requests stay refused whatever the model says |
| `Decision.ClassifyMeans` | internal/agentdecision/classifier.go:37-86 | decision, risk, confidence and next action in terms of hostile, sensitive and checkable text, title, body and source state |
| `Dispatch.KeepStep` | cmd/agent-task-runner/main.go:173-252 | every store call, adapter call, failure, lost answer and redelivery keeps the dispatch invariant |
| `Dispatch.DispatchOrdering` | cmd/agent-task-runner/main.go:173-252 | over every run a start is sent only for a job attached before, right after the thread found it pending with its gate unused or attached it itself; a cancel only right after the thread's own attach did not succeed; a gate is granted only for an attached job; no attempt is claimed once a job is attached; every claim follows its own thread's successful readiness check |
| `Dispatch.AttachDecides` | cmd/agent-task-runner/main.go:230-251 | a job whose attachment succeeded is started and not cancelled; one whose attach failed, was refused or lost its answer is cancelled and not started |
| `Dispatch.DispatchPath` | cmd/agent-task-runner/main.go:173-252 | an undisturbed delivery of a queued plan claims once, attaches once and starts that job, without a cancel |
| `Dispatch.LookExactly` | internal/store/agent_tasks.go:1829-1850 | a pending start is found exactly in the worker's own live lease on an attached job whose gate is unused |
| `Dispatch.ClaimExactly` | internal/store/agent_tasks.go:1590-1655 | a claim is taken exactly where there is no row, or an expired lease without a job and with attempts left |
| `Dispatch.LeaseDecides` | internal/store/agent_tasks.go:1699-1702 | the target is loaded and an attempt marked only under the worker's own live lease |
| `Dispatch.UnreadyHolds` | cmd/agent-task-runner/main.go:185-197 | without readiness nothing is claimed or started, and a queued plan is held |
| `Dispatch.RefusedSubmitMarks` | cmd/agent-task-runner/main.go:223-229 | a refused submission stops the attempt, without a start or a cancel |
| `Dispatch.OneJobOneGrant` | internal/store/agent_tasks.go:1806-1885 | over every run at most one job is attached, every start and grant names it, and the one-use gate is granted at most once |
| `Dispatch.RedeliveryRestarts` | cmd/agent-task-runner/main.go:176-180 | a lost start response is recovered by a redelivery to the same worker, with the same job and without a claim |
| `Dispatch.RetryRestarts` | cmd/agent-task-runner/main.go:211-220 | so does a delivery that found nothing to claim or to hold |
| `Joint.AttachedLaunchesOnce` | internal/agentadapter/service.go:549-578 | over every run of dispatch and adapter together, at most one job is launched, and a launched job was granted by the gate, attached before, and is the job that every start request names |
| `Joint.GateDecides` | internal/store/agent_tasks.go:1866-1872 | an answered gate call lets the start through exactly when the row is live, holds this job and its gate is unused; the commit then launches the job, and a refused start never does |
| `Joint.KeepMove` | internal/store/agent_tasks.go:1855-1885 | every move of either side, and the gate call that joins them, keeps both invariants and the coupling |
| `Credentials.KeepStep` | internal/credentials/resolver.go:104-182 | every load, refresh, swap, reload, reconnection and revocation keeps the credential invariant |
| `Credentials.OnlyStoredTokens` | internal/credentials/resolver.go:158-176 | over every run each token handed out belongs to a durably stored version, unexpired where the row was read, and newer than the one the call had found expired, whether it won or lost the swap |
| `Credentials.VersionsSourced` | internal/credentials/resolver.go:143-163 | over every run a version without a parent holds what an owner connected, and a refreshed one the access token and expiry of a provider's reply, with its refresh token or, where it has none, the parent's |
| `Credentials.HandedOutSourced` | internal/credentials/resolver.go:127-170 | every token handed out was given as an access token, by an owner who connected or by the provider |
| `Credentials.LoadGives` | internal/credentials/resolver.go:111-125 | a load hands out the stored token exactly when it is there, not revoked and not expired |
| `Credentials.RefreshGives` | internal/credentials/resolver.go:135-171 | an undisturbed refresh stores and hands out the provider's new access token |
| `Credentials.SwapExactly` | internal/store/provider_oauth_credentials.go:82-98 | a swap takes hold exactly while the version it was made from is stored and not revoked |
| `Credentials.LoserGets` | internal/credentials/resolver.go:173-182 | a call that lost gets the winner's token exactly when that is another version, unrevoked and known to be unexpired |
| `Credentials.ConnectGives` | internal/store/provider_oauth_credentials.go:33-38 | connecting an account again makes it usable at once |
| `Credentials.RefreshedOnce` | internal/store/provider_oauth_credentials.go:82-92 | each stored refresh replaced exactly the version it was made from, and no version is refreshed into the store twice |

## Left out

- Clocks and retention: `retain`, `forget` and the age of receipts while the service runs; a deadline, a receipt from the future and an expired receipt are arbitrary tests.
- HTTP, HMAC, JSON, SHA-256, regular expressions, UUID parsing, base64, UTF-8 validity and lower-casing are uninterpreted functions or the results of steps.
- Trimming knows the ASCII white space characters only; other Unicode white space is not modelled.
- Absent and empty criterion lists are one value; the source tells them apart when it compares checkpoints.
- Several attempts in one service: the protocol is about one attempt, and the two job maps appear only in `AdapterJob.LoadReceipts`.
- `run`, `RetryPending` and `Close` are steps of the protocol and have no method on the job object.
- Heartbeats and the progress callbacks change no durable state; the checkpoint callback appears only by its outcome.
- Broker request validation and rewriting (tool lists, thinking budgets, fixed model and headers) is one validity bit and the two body lengths; requests refused before the request lock change nothing.
- Counters are unbounded integers: with at most 25 requests of at most 256 KiB and 8192 tokens the source's 32- and 64-bit counters cannot wrap.
- Git, Docker, the coding agent, the verifier and provider reads are oracles; symbolic-link checks and the path allowlist are predicates.
- Patch.Execute: does not bound the result's sentence or validate the Draft URL; it states that these are all that is left to check.
- Patch.VerifyAndRepair: the diagnostics text handed to a repair is not modelled.
- The workflow policy's rules for names of required checks are one validity bit.
- Replacement.ApplyReplacement: file modes are not modelled, and a workspace is a map of clean paths, so hard links between frozen files do not exist.
- The provider's tree listing (paging, truncation) ends before the modelled part of the scan.
- Comparing, subtracting and scaling probabilities is exact in the model; the margin's subtraction is exact in doubles where it matters, because the two numbers are then within a factor of two, and none of this depends on the map order.
- The classifier's word lists are parameters, and its fixed explanation texts are not modelled.
- Dispatch is modelled as steps over values and not as methods, because every call may interleave with those of other deliveries; a runner without an adapter, which sends nothing, is not modelled.
- The PostgreSQL conditions of the dispatch and credential stores are single atomic transitions; approval, plan digest and budget conditions of a claim are one admission bit.
- Provider URL policy, Draft text, reports, the web application and the rest of the control plane are not modelled.
