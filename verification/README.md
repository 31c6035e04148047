# Verified model of the Samuel controller

Samuel is a controller that runs one workload at a time through GitHub workflows. Everything it knows is one
research state, stored in a single issue comment: a queue of actions, a map of diagnostic recoveries, a map of
execution results and a revision number. An action moves from pending to a saved intent, to a dispatched run, and
then to complete, rejected, retried or suspended. A failure that repeats opens a recovery, which runs three
sub-protocols of its own (diagnostic, evidence, corrective) until the action may be tried again. Processes can
crash between any two writes, several writers can hold old copies, and artifacts can be replayed.

This project models that protocol and the planners around it in Dafny, and proves what no single function of the
source checks by itself.

## How the model is organised

| file | what it holds |
|---|---|
| `Prelude`, `Records` | results, the order of `sorted()`, the typed records |
| `Diagnosis`, `DurableState`, `Ingestion` | each state change as a function from the old state to the new one or an error |
| `ResearchObject`, `Transactions` | the same changes in the source's form: a mutable object changed in place, and `apply_*` on a deep copy |
| `Selector` | the scheduler: specification, and the collecting loop with its cascade of early returns |
| `Protocol`, `Preservation` | one step per durable write, the joint invariant, and its preservation by every step |
| `ControllerTheorems`, `AtMostOnce`, `CorrectiveTermination`, `Limits`, `Liveness` | what the invariant buys for every reachable state and run |
| `Outcomes` | what each result decides, said of the records themselves and not through the state changes' own functions |
| `Gateway`, `CrashSafety` | the gateway that starts runs, and a world of commands, crashes and unsaved receipts |
| `StateLedger`, `LostUpdate` | the state comment, its optimistic precondition, many writers |
| `ResearchStages` | stage transitions and the history of attempts |
| `Preflight`, `EvidenceTheorems` | acceptance evidence and the preflight, tied back to the protocol |
| `ForeignWork`, `ForeignTheorems` | the ledger of work in another repository |
| `Throughput`, `Pareto`, `StateRefresh`, `RefreshTheorems`, `Qualification`, `Framing` | the planners and the text codecs |

The central definition is `Protocol.Inv`: every queue entry and every recovery is lawful, a live recovery has a
suspended action, a suspended action has a live recovery or a failure recorded as not retryable, and at most one
record is in flight over all four surfaces. A state is `Reachable` when some sequence of steps leads to it from a
new workload; the main results quantify over all reachable states or all sequences of steps.

## Modelling decisions

- A SHA-256 identity is the value it is a digest of, so equal identities mean equal contents. The idempotency key
  of a plan is the exception: it orders work as text, so it is a field of the plan and nothing is assumed about
  which plans share it.
- Raised exceptions are `Err` or `Fail` values with shortened messages. Text fields are taken as already stripped.
- Intents are recorded only for the work the scheduler selected. Enqueueing requires a new key, as the
  `duplicate_action` preflight does, because the runtime overwrites the progress claim afterwards.
- A diagnostic artifact is the result of `advance_diagnostic`, or of `record_diagnostic_wait` when that does not
  advance, on the recovery it patches, for a dispatch the state still records.
- In `CrashSafety` a DISPATCH command runs at most once and commands run in the order they were issued; any command
  can be lost, RECONCILE and OBSERVE commands can be delivered again, and a receipt is saved only if the ledger still
  holds the state it was computed from. GitHub is assumed to answer truthfully which run belongs to which intent
  (on the evidence surface a false "no match" is allowed). Run ids are assumed unique.
- In `LostUpdate` the validation of a write and the write itself are one step.
- Floats are real numbers.

## Where the code keeps less than one might expect

Each of these is a promise the code does not keep on every input. For each there is a concrete run or input that
breaks it, and the exact condition under which it holds.

- A committed state replaces the state its writer read. The write precondition compares revisions, not workloads, so
  a request prepared on workload A lands on workload B, unread, when B has the same revision and may be replaced
  (`StaleRequestCanCrossTenures`). The promise holds if and only if no other workload was stored in between
  (`CommitReplacesWhatItRead`). Where replaced workloads never return, that is if and only if the workload read is
  the workload stored now (`CommitIsSafeExactlyOnTheSameWorkload`); where one does return, comparing the workload is
  not enough (`ReturningWorkloadHidesTheGap`).
- The newest stored state is the one every reader finds. Comments are read as one page of 100, so a state created
  behind a full page is never found and can be created again (`FullPageBreaksTheChain`). The promise holds if and
  only if the state is created while the page has room (`StoredStateIsFoundExactly`).
- A diagnostic artifact is applied at most once. Its provenance is checked only while a diagnostic dispatch is
  recorded. After any run of the protocol an artifact that was already applied is accepted again if and only if the
  recovery is open and no diagnostic dispatch is recorded (`DiagnosticReplayExactly`). The harm is real: with a
  correction in flight the replay forgets it, refuses its result and lets the scheduler start it again
  (`ReplayedDiagnosisDropsTheCorrection`). The protocol's own ingestion step therefore takes a diagnostic artifact
  only while its dispatch is recorded, which is what the gateway requires before it reports the artifact.
- A bound failure is ingested. A provider-infrastructure failure that does not report itself retryable is requeued,
  and then the failure of the retried run is refused (`RetriedInfrastructureFailureIsRefused`), whatever steps are
  taken in between (`RequeuedInfrastructureFailureBlocks`). The promise holds if and only if nothing settled and
  different is stored for the action (`FailureIsIngestedExactly`).
- An admitted foreign ledger can be read back. Admission checks neither digest of its snapshot
  (`UnreadableAdmission`). The promise holds if and only if both digests and the run id are well-formed
  (`AdmissionIsReadableExactly`).

## Objects and copies

`ResearchState` is changed in place, and every `apply_*` works on a deep copy. Two facts hold for all of these
methods and are part of every contract in `ResearchObject` and `Transactions`: a method of the object either has
exactly the effect of its specification function or raises and leaves every field as it was (only
`FollowExecution` keeps a change when it raises), and a `CopyAnd...` transaction either returns a new object in
exactly the specified state or raises, and the object it was given is never touched. Their rows stand together at
the end of the table and name the operation.

## Model

| member | source | states |
|---|---|---|
| Selector.CollectInFlight | src/chatgpt_operation/controller/bootstrap.py:118-153 | the collecting loop accepts exactly the recoveries in supported stages, and its three lists hold exactly the in-flight records, once each |
| Selector.SelectControllerWork | src/chatgpt_operation/controller/bootstrap.py:84-288 | loop and cascade compute the specified choice for every input; with every record supported and nothing in flight it is, read off the records alone, the least planned correction, else the least open recovery's diagnosis, else the least recovery waiting for evidence, else the least pending action, else the least admitted issue, else the first legacy work |
| Selector.ResumeInFlight | src/chatgpt_operation/controller/bootstrap.py:155-229 | with one record in flight, the first half of the cascade returns its reconcile or observe work |
| Selector.SelectIdleWork | src/chatgpt_operation/controller/bootstrap.py:231-288 | the idle half of the cascade, with the same priority read off the records |
| Prelude.SortedFirst | src/chatgpt_operation/controller/bootstrap.py:231-288 | the least element in Python's string order, which is proved total and antisymmetric |
| Preservation.StartFacts | src/chatgpt_operation/controller/bootstrap.py:231-288 | work is started only when nothing is in flight, and only on a record that is ready for it |
| Preservation.PrepareKeeps | src/chatgpt_operation/controller/runtime.py:431-519 | saving an intent for the selected work keeps the joint invariant on all four surfaces |
| Preservation.ReceiptKeeps | src/chatgpt_operation/controller/durable_state.py:417-452 | binding a receipt keeps the joint invariant on all four surfaces |
| Preservation.FailureKeeps | src/chatgpt_operation/controller/durable_state.py:503-570 | an ingested failure keeps the joint invariant whether it requeues, diagnoses or ends the action |
| Preservation.CorrectiveCases | src/chatgpt_operation/controller/durable_state.py:573-656 | a corrective result either closes the recovery and makes its action pending, or blames its provider; one revision, nothing else changes |
| Preservation.OutcomeCases | src/chatgpt_operation/controller/diagnostic.py:31-86 | one diagnostic run in each of the three phases: refused exactly when all three fields are filled, advanced when the typed evidence decides the phase, else one more wait |
| Preservation.OutcomeOk | src/chatgpt_operation/controller/diagnostic.py:488-520 | a diagnostic run leaves a lawful recovery live, lawful and with nothing in flight |
| Preservation.EvidenceKeeps | src/chatgpt_operation/controller/durable_state.py:659-711 | acquired evidence keeps the joint invariant |
| Preservation.StaleIntentKeeps | src/chatgpt_operation/controller/runtime.py:1877-1933 | retiring an intent whose source head moved keeps the joint invariant |
| Preservation.StepKeeps | src/chatgpt_operation/controller/terminal_ingestion.py:100-227 | every step, refused or not, keeps the joint invariant |
| Preservation.ReachableInv | src/chatgpt_operation/controller/diagnostic.py:274-320 | the joint invariant holds in every state any run can reach |
| ControllerTheorems.SchedulerNeverRaises | src/chatgpt_operation/controller/bootstrap.py:107-162 | single flight: in every reachable state at most one record is in flight over the four surfaces, and the scheduler never raises |
| ControllerTheorems.FlightIsResumed | src/chatgpt_operation/controller/bootstrap.py:155-229 | in every reachable state the one record in flight is the choice, whatever else waits: a saved intent is reconciled, a dispatched run observed |
| ControllerTheorems.ResumeExactlyInFlight | src/chatgpt_operation/controller/diagnostic.py:323-339 | in every reachable state a record is accepted by the resume function of its surface if and only if it is in flight |
| ControllerTheorems.NoReplayWhileDiagnosed | src/chatgpt_operation/controller/bootstrap.py:231-288 | an action with a live recovery is suspended and is never the scheduler's choice |
| ControllerTheorems.ChosenActionsAreRecoverable | src/chatgpt_operation/controller/execution.py:277-283 | every action the scheduler starts or resumes passes the recoverability guard, and has no recovery waiting for evidence either, which the guard alone would let pass |
| ControllerTheorems.QuiescenceIsRollover | src/chatgpt_operation/controller/durable_state.py:217-249 | a non-empty workload with no retirement and no active pre-dispatch failure may yield its slot exactly when the scheduler has nothing to do |
| ControllerTheorems.StepAdvances | src/chatgpt_operation/controller/durable_state.py:417-452 | every step leaves the state unchanged or strictly raises its revision, and never changes the workload |
| AtMostOnce.IngestLands | src/chatgpt_operation/controller/terminal_ingestion.py:115-227 | an artifact that changes the state ends the one flight that carried its run; only that action changes, its plan and progress stay, and completion comes with proof |
| AtMostOnce.ReceiptCarries | src/chatgpt_operation/controller/diagnostic.py:342-373 | a receipt step makes at most its own run id newly carried |
| AtMostOnce.StepAccounts | src/chatgpt_operation/controller/terminal_ingestion.py:100-227 | a run that changes the state was bound before and not consumed before |
| AtMostOnce.ArtifactsApplyAtMostOnce | src/chatgpt_operation/controller/terminal_ingestion.py:115-227 | if no run id is bound twice, no run's artifact changes the state twice, over every run of the protocol |
| AtMostOnce.DiagnosticReplayExactly | src/chatgpt_operation/controller/durable_state.py:376-414 | after every run, a diagnostic artifact that was applied before is accepted again if and only if the recovery is open and no diagnostic dispatch is recorded |
| AtMostOnce.PatchIsAcceptedExactly | src/chatgpt_operation/controller/durable_state.py:359-414 | for every state, when a diagnostic patch is accepted, and that it then overwrites the whole recovery |
| AtMostOnce.ReplayChangesNothing | src/chatgpt_operation/controller/execution.py:159-170 | after a run was applied, any further artifact of it is a no-op or refused, even after requeue and redispatch |
| CorrectiveTermination.StepMoves | src/chatgpt_operation/controller/diagnostic.py:488-520 | every step leaves a live recovery alone or launches, binds, diagnoses, blames or ends its episode |
| CorrectiveTermination.BlameShrinks | src/chatgpt_operation/controller/durable_state.py:630-656 | a corrective run that does not verify removes exactly its provider from the eligible ones |
| CorrectiveTermination.MovePays | src/chatgpt_operation/controller/diagnostic.py:51-75 | each run a recovery starts is paid from a budget that only new evidence refills |
| CorrectiveTermination.RecoveryIsBounded | src/chatgpt_operation/controller/diagnostic.py:51-75 | between evidence acquisitions a recovery makes at most as many corrective dispatches as it has unfailed providers, and at most twice that plus four on all surfaces |
| CorrectiveTermination.StuckAsksForEvidence | src/chatgpt_operation/controller/diagnostic.py:488-520 | over every run within one episode a recovery with no eligible provider or no typed failure absorbs at most two diagnostic artifacts, and after two the stored state waits for evidence |
| Limits.FailureIsIngestedExactly | src/chatgpt_operation/controller/execution.py:173-207 | a bound failure is ingested exactly when it is of this workload and nothing settled and different is stored for its action |
| Limits.FailureIsDisposedExactly | src/chatgpt_operation/controller/durable_state.py:528-570 | retried, suspended under an open recovery with its plan, or ended, in terms of the stored fingerprint |
| Outcomes.RepeatedFailureIsDiagnosedExactly | src/chatgpt_operation/controller/durable_state.py:532-567 | an accepted failure that may be retried puts its action under a live recovery exactly when the stored failure agrees with it in executor, observation, provider, error type and provider status; otherwise the action is pending; one that may not be retried suspends it for good |
| Outcomes.CorrectionIsDecidedExactly | src/chatgpt_operation/controller/diagnostic.py:89-127 | an accepted corrective result releases the action exactly when it is a PASS with a readback after or a NOOP with a readback before; otherwise the action stays suspended and the tried provider is blamed |
| Outcomes.CorrectiveResultIsFromRun | src/chatgpt_operation/controller/durable_state.py:586-614 | a corrective result is accepted only from the native executor, of the dispatched run and source |
| Outcomes.CorrectionUsesUntriedProvider | src/chatgpt_operation/controller/diagnostic.py:51-75 | with a known cause the least provider not yet tried is planned, exactly when there is one |
| Outcomes.PlannedProviderIsUntried | src/chatgpt_operation/controller/diagnostic.py:51-75 | in every reachable state a planned correction uses an available provider that has not failed |
| Outcomes.ActionResultIsDecided | src/chatgpt_operation/controller/terminal_ingestion.py:115-175 | an accepted action result is of the dispatched run and source, ends exactly this run, and completes, rejects, or leaves the action pending or suspended by its status |
| Outcomes.EvidenceIsFromRun | src/chatgpt_operation/controller/durable_state.py:676-703 | evidence is accepted only while waited for, from the run dispatched for this very request |
| Outcomes.DiagnosisIsFromRun | src/chatgpt_operation/controller/durable_state.py:376-407 | while a dispatch is recorded a diagnostic patch is accepted only from its run, for the recovery as it was dispatched |
| Outcomes.UnusableAttemptIsFiledExactly | src/chatgpt_operation/controller/diagnostic.py:376-416 | an unusable attempt is filed exactly for the bound run of a dispatched native action, and is the only change |
| Outcomes.IntentIsPreparedExactly | src/chatgpt_operation/controller/runtime.py:431-498 | the chosen work gets its intent exactly when the executor source is complete and the plan runnable; the intent names action, workload, workflow, source and revision |
| Outcomes.StaleIntentIsRetiredExactly | src/chatgpt_operation/controller/runtime.py:1890-1912 | an action intent in flight is retired exactly when its own ref is observed at another head, and how |
| Outcomes.DispatchedIsBound | src/chatgpt_operation/controller/diagnostic.py:355-373 | every dispatched record holds a receipt with its saved identity, a positive run id, and the ref and workflow of its intent |
| Outcomes.MatchesExactly | src/chatgpt_operation/controller/diagnostic.py:356-369 | a receipt binds an intent exactly when identity, run id, ref and the last path segment fit |
| Limits.EvidenceReopens | src/chatgpt_operation/controller/diagnostic.py:983-1003 | acquired evidence reopens the recovery, frees the surface, overlays the details field by field and decides the eligible providers |
| Liveness.RepeatedFailureOpensDiagnosis | src/chatgpt_operation/controller/durable_state.py:503-570 | from every new workload and native plan, two runs failing alike lead to a reachable state with the action suspended under a new open recovery that holds its plan and the second failure |
| Limits.RequeuedInfrastructureFailureBlocks | src/chatgpt_operation/controller/durable_state.py:548-567 | after a requeued failure that did not report itself retryable, and any further steps, every failure of another attempt of that action is refused |
| Liveness.RetriedInfrastructureFailureIsRefused | src/chatgpt_operation/controller/execution.py:192-203 | from every new workload: a reachable state in which the bound failure of the retried run is refused |
| Liveness.ReplayedDiagnosisDropsTheCorrection | src/chatgpt_operation/controller/durable_state.py:376-414 | from every new workload with a correctable failure: a reachable state with a correction in flight in which an applied diagnostic artifact is accepted again, after which the correction's result is refused and the correction is started again |
| Gateway.ExecutionGateway.Execute | src/chatgpt_operation/controller/execution_gateway.py:84-123 | a command of the four surfaces changes GitHub's runs and replies exactly as specified; a stale or foreign one starts nothing |
| Gateway.ExecutionGateway.Dispatch | src/chatgpt_operation/controller/execution_gateway.py:135-231 | a dispatch starts at most the run of the intent it resumed, and no action past a blocking gate or a forbidden branch |
| Gateway.ExecutionGateway.Reconcile | src/chatgpt_operation/controller/execution_gateway.py:568-634 | a reconcile recovers the unique match, waits, or starts the run on NO_MATCH except for evidence |
| Gateway.StartsExactly | src/chatgpt_operation/controller/execution_gateway.py:84-231 | a command starts a run exactly when it is current, asks to start one, its intent resumes, no gate blocks the action, a mutation may touch its branch, and GitHub starts it; a launch refused there fails and starts nothing |
| Gateway.RecoversExactly | src/chatgpt_operation/controller/execution_gateway.py:584-634 | a reconcile recovers a receipt exactly from the one matching run, and when it waits or fails |
| Gateway.ObservesExactly | src/chatgpt_operation/controller/execution_gateway.py:297-340 | an observation ends exactly the bound run exactly as GitHub reports it, and starts nothing |
| CrashSafety.WorldStepKeeps | src/chatgpt_operation/controller/execution_gateway.py:84-90 | every controller write, command, delivery, loss and save keeps the invariant of the world |
| CrashSafety.CommandIsForTheFlight | src/chatgpt_operation/controller/runtime.py:613-638 | in every reachable state the command issued is for the record in flight at the current revision: reconcile a saved intent, observe a dispatched run |
| CrashSafety.OneRunPerIntent | src/chatgpt_operation/controller/execution_gateway.py:226-295 | whatever is lost or redelivered, no intent ever gets two runs |
| CrashSafety.SavedReceiptRefusesOlderCommands | src/chatgpt_operation/controller/execution_gateway.py:84-90 | once a receipt is saved every command issued before is refused and starts nothing |
| CrashSafety.CrashesNeverDuplicate | src/chatgpt_operation/controller/execution_gateway.py:412-480 | over every run of the world no workflow run is bound twice, so each run's artifact changes the state at most once |
| StateLedger.WrittenIsAuthoritative | src/chatgpt_operation/controller/durable_state.py:313-356 | a validated write leaves exactly the requested state as the authoritative one if and only if it is an update or the page has room |
| StateLedger.PreparedRequestValidates | src/chatgpt_operation/controller/durable_state.py:281-356 | a request prepared on an unchanged ledger always validates, and one can be prepared exactly when a fresh write is allowed |
| StateLedger.IssueCommentTransport.PersistStateWrite | src/chatgpt_operation/controller/state_persistence.py:45-118 | success exactly when lawful, stored, visible on the page of 100 comments and acknowledged with the right identity; then the requested state is authoritative; an unlawful write changes nothing |
| LostUpdate.CommitReplacesWhatItRead | src/chatgpt_operation/controller/durable_state.py:313-356 | a committed request replaces exactly the state its writer read, with nothing stored in between, if and only if no other workload was stored in between |
| LostUpdate.CommitIsSafeExactlyOnTheSameWorkload | src/chatgpt_operation/controller/durable_state.py:341-356 | where replaced workloads never return, that is if and only if the workload read is the one stored now |
| LostUpdate.StoredStatesFormAChain | src/chatgpt_operation/controller/durable_state.py:252-263 | with any number of writers, and the state created on the page, the stored states form a chain: revisions of a workload strictly rise, and it is replaced only when finished |
| LostUpdate.BusyStateIsNeverReplaced | src/chatgpt_operation/controller/durable_state.py:217-263 | a state with no action yet, pending or in-flight work, a live recovery or an unresolved failure before dispatch is never replaced by another workload |
| LostUpdate.ReplaceableExactly | src/chatgpt_operation/controller/durable_state.py:217-263 | in every reachable state another workload may be written exactly when this one is not busy and, if retired, retired with nothing on record and not written since |
| LostUpdate.NewWorkloadIsKept | src/chatgpt_operation/controller/durable_state.py:227-260 | a newly created workload cannot be overwritten by another one |
| LostUpdate.EmptyWorkloadIsNeverReplaced | src/chatgpt_operation/controller/durable_state.py:227-260 | along every run a stored workload without actions and retirement is followed only by itself |
| LostUpdate.RetirementEndsWithTheNextWrite | src/chatgpt_operation/controller/durable_state.py:184-214 | a retirement lets another workload in at once, and no more after any step that changes the state |
| LostUpdate.StaleRequestCanCrossTenures | src/chatgpt_operation/controller/durable_state.py:341-356 | a run in which the protocol's next state of workload A lands on workload B, which its writer never read |
| LostUpdate.ReturningWorkloadHidesTheGap | src/chatgpt_operation/controller/durable_state.py:341-356 | a run A, B, A in which comparing the workload as well would not help |
| LostUpdate.StoredStateIsFoundExactly | src/chatgpt_operation/controller/state_persistence.py:45-55 | readers find the newest stored state if and only if the state was created while the page had room |
| LostUpdate.FullPageBreaksTheChain | src/chatgpt_operation/controller/state_persistence.py:45-118 | behind a full page one request creates the state twice, and no reader finds it |
| ResearchStages.CompletionIsEarned | src/chatgpt_operation/controller/research.py:29-52 | a COMPLETE state still holds PASS or NOOP evidence, and its run passed the five milestones in order |
| ResearchStages.OperationAppliesOnce | src/chatgpt_operation/controller/research.py:220-231 | once an operation was applied, the same operation changes nothing, whatever was called in between |
| ResearchStages.CompletionIsAlwaysPossible | src/chatgpt_operation/controller/research.py:29-52 | from every stage the table leads on to COMPLETE, and from COMPLETE nowhere |
| ResearchStages.SettledResultStays | src/chatgpt_operation/controller/execution.py:189-203 | a result that is not a retryable failure is never replaced |
| ResearchStages.AttemptsAreConserved | src/chatgpt_operation/controller/execution.py:173-207 | k successive retryable failures leave exactly the k - 1 earlier ones, in order, in the history |
| ResearchStages.AttemptsOnlyGrow | src/chatgpt_operation/controller/durable_state.py:503-570 | over every run of the protocol no recorded attempt is dropped or reordered |
| Preflight.CollectVerifiedEvidence | src/chatgpt_operation/controller/preflight.py:79-104 | the loops compute exactly the verified evidence ids |
| Preflight.CollectMergedPrs | src/chatgpt_operation/controller/preflight.py:118-137 | the first pass computes exactly the merged pull requests |
| Preflight.CollectMergedHeads | src/chatgpt_operation/controller/preflight.py:139-158 | the second pass computes exactly the merged heads |
| Preflight.CollectIntegratedEvidence | src/chatgpt_operation/controller/preflight.py:107-198 | the three passes map exactly the criteria with integrated evidence to all of that evidence |
| EvidenceTheorems.EvidenceExactly | src/chatgpt_operation/controller/preflight.py:111-198 | an action is integrated evidence exactly when it is proven, claims the criterion, and opened or merged a merged pull request or changed a file on a branch such a pull request carried |
| EvidenceTheorems.RunKeepsWork | src/chatgpt_operation/controller/diagnostic.py:465-485 | along every run queued work keeps its plan and progress, and settled work keeps its whole record |
| EvidenceTheorems.CompletedActionsAreProven | src/chatgpt_operation/controller/diagnostic.py:465-485 | in every reachable state a completed action holds PASS/NOOP evidence of exactly the run and source head it was dispatched with |
| EvidenceTheorems.EligibleNeverRegains | src/chatgpt_operation/controller/preflight.py:64-76 | along every run integrated evidence only grows and eligible criteria never regain a member |
| EvidenceTheorems.ClaimHasCriteria | src/chatgpt_operation/controller/preflight.py:329-348 | a completion claim exists exactly when there are criteria and none is still eligible |
| EvidenceTheorems.DeterministicCloseIsAccepted | src/chatgpt_operation/controller/preflight.py:351-438 | closing with the deterministic claim passes the preflight exactly unless the plan is already queued |
| EvidenceTheorems.ClosableStaysClosable | src/chatgpt_operation/controller/preflight.py:329-348 | an Issue that can be closed stays closable along every run |
| EvidenceTheorems.AcceptedCloseIsBacked | src/chatgpt_operation/controller/preflight.py:383-438 | an accepted close names non-empty verified evidence for every criterion |
| EvidenceTheorems.AcceptedProgressIsEligible | src/chatgpt_operation/controller/preflight.py:440-473 | an accepted progress claim names a criterion that was still eligible |
| EvidenceTheorems.TargetsAreCheckedExactly | src/chatgpt_operation/controller/preflight.py:221-326 | a target passes exactly when it is there and current: new branches at the observed head, own branches without conflict, the one open pull request at its exact green head |
| EvidenceTheorems.AcceptedPlanHasLiveTarget | src/chatgpt_operation/controller/preflight.py:351-379 | only plans with such targets and a new key are accepted |
| ForeignWork.ObserveRequiredRuns | src/chatgpt_operation/controller/cross_repository_workflow.py:368-424 | the loop over the required workflows computes the specified evidence and phase, or raises exactly when specified |
| ForeignTheorems.AdmissionIsReadableExactly | src/chatgpt_operation/controller/cross_repository_workflow.py:155-170 | an admitted ledger can be read back exactly when the snapshot's digests and run id are well-formed |
| ForeignTheorems.UnreadableAdmission | src/chatgpt_operation/controller/cross_repository_workflow.py:155-170 | an admitted snapshot whose ledger cannot be read back |
| ForeignTheorems.LedgerIsAlwaysReadable | src/chatgpt_operation/controller/cross_repository_workflow.py:71-118 | every ledger a run over well-formed snapshots can write is accepted when read back |
| ForeignTheorems.PlanAndReceiptAreFinal | src/chatgpt_operation/controller/cross_repository_workflow.py:287-365 | from review onward the plan and its id never change, and once sent neither does the receipt |
| ForeignTheorems.DispatchedAtMostOnce | src/chatgpt_operation/controller/cross_repository_workflow.py:351-365 | the receipt appears at most once over every run |
| ForeignTheorems.NothingRunsUnreviewed | src/chatgpt_operation/controller/cross_repository_workflow.py:336-365 | a receipt was sent for exactly the plan the ledger holds, after a review that approved it by id under an enabled policy permitting it |
| ForeignTheorems.SentPlansAreSafe | src/chatgpt_operation/controller/cross_repository_workflow.py:229-284 | whatever was sent creates or updates one plain file outside the protected directories, on the policy's own branch, with bounded content |
| ForeignTheorems.ChangedFactsAskForRevision | src/chatgpt_operation/controller/cross_repository_workflow.py:173-193 | a moved Issue, criteria or base asks for a revision and changes nothing else |
| ForeignTheorems.StoppedPlanIsNeverSent | src/chatgpt_operation/controller/cross_repository_workflow.py:173-218 | a plan stopped for revision is never sent afterwards |
| ForeignTheorems.CiVerifiedExactly | src/chatgpt_operation/controller/cross_repository_workflow.py:396-424 | one observation is ci_verified exactly when every required workflow has one matching run and it is green; the evidence lists those runs |
| ForeignTheorems.CiVerifiedOnExactHead | src/chatgpt_operation/controller/cross_repository_workflow.py:393-424 | ci_verified exactly when every required workflow ran once on the pull request's exact head and branch, and successfully |
| ForeignTheorems.CiFailureExactly | src/chatgpt_operation/controller/cross_repository_workflow.py:402-424 | refused exactly when the one run of a required workflow cannot be trusted, a revision exactly when one completed without success |
| ForeignTheorems.ObservableExactly | src/chatgpt_operation/controller/cross_repository_workflow.py:375-395 | what may be observed: a dispatched plan and an open unmerged draft of the target's own branch |
| ForeignTheorems.VerifiedLedgerIsJustified | src/chatgpt_operation/controller/cross_repository_workflow.py:368-424 | a ci_verified ledger was dispatched and holds exactly the runs of a real observation |
| Throughput.Evaluate | src/chatgpt_operation/controller/throughput.py:65-208 | every status, error and selection is the specified one |
| Throughput.SelectLanes | src/chatgpt_operation/controller/throughput.py:160-178 | the loop over a set of mutated resources computes the greedy selection |
| Throughput.GreedyIsFirst | src/chatgpt_operation/controller/throughput.py:160-178 | the selection is compatible, and lexicographically first among all compatible selections within the lanes |
| Throughput.CompatibleExactly | src/chatgpt_operation/controller/throughput.py:162-176 | compatible means ready, in order, no mutation under a scoped lock, no resource shared by two mutations |
| Throughput.WorkIsPlannedExactly | src/chatgpt_operation/controller/throughput.py:65-208 | exactly when work is planned, refused, paused, synchronised or waited for |
| Throughput.MoreLanesExtend | src/chatgpt_operation/controller/throughput.py:177-178 | more lanes only extend the selection |
| Pareto.DominanceIsStrictOrder | src/chatgpt_operation/controller/dea_v01_fitness.py:44-48 | dominance is irreflexive, asymmetric and transitive |
| Pareto.FrontIsComplete | src/chatgpt_operation/controller/dea_v01_fitness.py:126-130 | every eligible candidate survives or is dominated by a survivor, and survivors are an antichain |
| Pareto.FrontIsExact | src/chatgpt_operation/controller/dea_v01_fitness.py:44-48 | the front holds exactly the sound candidates that no sound candidate equals or betters on every metric with a different value |
| Pareto.AcceptedEvidenceIsOwn | src/chatgpt_operation/controller/dea_v01_fitness.py:35-41 | accepted candidates were evaluated on their own head with the profile's tools, semantic contract included |
| Pareto.Evaluate | src/chatgpt_operation/controller/dea_v01_fitness.py:51-146 | a manifest is reviewed exactly when accepted; review is required exactly when the baseline is sound, and then the set holds exactly the candidates on the front |
| StateRefresh.ReadList.AppendAll | src/chatgpt_operation/controller/state_refresh.py:59-62 | appends in place exactly the values not yet present |
| StateRefresh.Evaluate | src/chatgpt_operation/controller/state_refresh.py:90-327 | the planner accepts exactly the well-formed snapshots and returns the specified plan |
| StateRefresh.ClassifySurfaces | src/chatgpt_operation/controller/state_refresh.py:213-259 | the loop fills the five lists exactly, and stops exactly on a malformed surface |
| StateRefresh.CollectPrewriteReads | src/chatgpt_operation/controller/state_refresh.py:261-271 | the loop collects the prewrite reads of all mutation targets, and stops exactly when one has none |
| RefreshTheorems.SurfaceLandsOnce | src/chatgpt_operation/controller/state_refresh.py:213-259 | every surface meets exactly one fate, the lists say which, and the reads that fate owes are reported |
| RefreshTheorems.StatusIsExact | src/chatgpt_operation/controller/state_refresh.py:96-327 | each status exactly when: everything to refresh, a failed probe of a surface that matters, a probe not yet run, a change, a write, or nothing |
| RefreshTheorems.CheckpointUseIsInformed | src/chatgpt_operation/controller/state_refresh.py:220-259 | once nothing is left to probe, every critical or mutated surface was probed, and is unchanged or listed with all its details |
| RefreshTheorems.EveryWriteIsReadFirst | src/chatgpt_operation/controller/state_refresh.py:261-327 | a plan that may use the checkpoint lists every prewrite read of every mutation target, without repetition |
| RefreshTheorems.ProbesAreAnsweredOnce | src/chatgpt_operation/controller/state_refresh.py:233-299 | answered probes are accepted exactly when every changed surface has details to read; then no probe is left to ask for and nothing new is blocked |
| RefreshTheorems.RefreshConverges | src/chatgpt_operation/controller/state_refresh.py:213-327 | after probing, reading and adopting the fingerprints a failed probe stays blocked; otherwise only the prewrite reads of the mutations remain |
| Qualification.ThresholdFailures | src/chatgpt_operation/controller/qualification_gate.py:279-307 | lists exactly the thresholds missed, and none exactly when all are met |
| Qualification.EvaluateQualificationGate | src/chatgpt_operation/controller/qualification_gate.py:310-363 | grants exactly the supported modes, and lists for each other mode exactly the reasons that block it |
| Qualification.AutoIsExact | src/chatgpt_operation/controller/qualification_gate.py:191-204 | under an accepted policy AUTO is granted exactly when the checks pass and its own thresholds hold |
| Qualification.PrerequisiteNeedsThePolicyCheck | src/chatgpt_operation/controller/qualification_gate.py:347-363 | without the policy's consistency check the prerequisite would take AUTO away |
| Qualification.WorseCountsNeverPromote | src/chatgpt_operation/controller/qualification_gate.py:279-307 | at the same cycles worse counts grant a prefix of the modes |
| Framing.PayloadBetweenFences | src/chatgpt_operation/controller/durable_state.py:106-114 | first-find and last-find enclose exactly the payload, whatever fences it contains |
| Framing.StateRoundTrip | src/chatgpt_operation/controller/durable_state.py:26-29 | the state codec returns the stripped payload, exact precisely on texts without surrounding whitespace |
| Framing.AdmissionRoundTrip | src/chatgpt_operation/controller/issue_ingestion.py:109-123 | the admission codec returns the stripped payload, exact precisely on texts without surrounding whitespace |
| Framing.ForeignRoundTrip | src/chatgpt_operation/controller/cross_repository_workflow.py:121-129 | the foreign ledger codec returns every payload exactly |
| Framing.ObjectsSurviveFraming | src/chatgpt_operation/controller/durable_state.py:26-29 | a JSON object text survives all three codecs unchanged |
| ResearchObject.ResearchState.ChangeStage | src/chatgpt_operation/controller/research.py:210-218 | one allowed stage change, COMPLETE only with evidence |
| ResearchObject.ResearchState.ChangeStageOnce | src/chatgpt_operation/controller/research.py:220-231 | a stage change under an operation id; a known id changes nothing |
| ResearchObject.ResearchState.RecordResult | src/chatgpt_operation/controller/execution.py:173-207 | a result is stored, recognised as a replay, or refused; a retryable predecessor moves into its history |
| ResearchObject.ResearchState.FollowExecution | src/chatgpt_operation/controller/execution.py:210-233 | record, then change stage; the record stays when the stage is refused |
| ResearchObject.ResearchState.EnqueueAction | src/chatgpt_operation/controller/diagnostic.py:256-271 | a plan becomes a pending entry; the same plan again changes nothing |
| ResearchObject.ResearchState.RecordIntent | src/chatgpt_operation/controller/diagnostic.py:274-320 | a pending action gets its intent; an equal request changes nothing |
| ResearchObject.ResearchState.BindDispatch | src/chatgpt_operation/controller/diagnostic.py:342-373 | an intent gets its receipt; the same receipt again changes nothing |
| ResearchObject.ResearchState.RetireUnusableAttempt | src/chatgpt_operation/controller/diagnostic.py:376-416 | a dispatched native action goes back to pending and the attempt is filed |
| ResearchObject.ResearchState.ResumeResolved | src/chatgpt_operation/controller/diagnostic.py:450-462 | a suspended action with a resolved recovery becomes pending |
| ResearchObject.ResearchState.Complete | src/chatgpt_operation/controller/diagnostic.py:465-485 | a dispatched action completes with evidence of its bound run |
| ResearchObject.ResearchState.RecordCorrectiveIntent | src/chatgpt_operation/controller/diagnostic.py:540-591 | a planned correction gets its intent |
| ResearchObject.ResearchState.BindCorrective | src/chatgpt_operation/controller/diagnostic.py:618-649 | a corrective intent gets its receipt |
| ResearchObject.ResearchState.RecordDiagnosticIntent | src/chatgpt_operation/controller/diagnostic.py:702-749 | an open recovery gets a diagnostic intent |
| ResearchObject.ResearchState.BindDiagnostic | src/chatgpt_operation/controller/diagnostic.py:773-804 | a diagnostic intent gets its receipt |
| ResearchObject.ResearchState.RecordEvidenceIntent | src/chatgpt_operation/controller/diagnostic.py:854-901 | a recovery waiting for evidence gets an intent |
| ResearchObject.ResearchState.BindEvidence | src/chatgpt_operation/controller/diagnostic.py:925-956 | an evidence intent gets its receipt |
| ResearchObject.ResearchState.RecordEvidence | src/chatgpt_operation/controller/diagnostic.py:983-1003 | acquired evidence reopens the recovery |
| ResearchObject.ResearchState.Advance | src/chatgpt_operation/controller/diagnostic.py:31-86 | one diagnostic phase is advanced, or a wait is reported |
| ResearchObject.ResearchState.RecordWait | src/chatgpt_operation/controller/diagnostic.py:488-520 | identical waits are counted, the second asks for evidence |
| Transactions.CopyAndFail | src/chatgpt_operation/controller/durable_state.py:503-570 | failure: record, govern, then requeue, diagnose or end |
| Transactions.CopyAndCorrect | src/chatgpt_operation/controller/durable_state.py:573-656 | corrective result: release the action or blame the provider |
| Transactions.CopyAndPatch | src/chatgpt_operation/controller/durable_state.py:359-414 | diagnostic artifact: replace the recovery |
| Transactions.CopyAndAcquire | src/chatgpt_operation/controller/durable_state.py:659-711 | evidence artifact: reopen the recovery |
| Transactions.CopyAndBindReceipt | src/chatgpt_operation/controller/durable_state.py:417-452 | receipt: exactly one revision on one of four surfaces |
| Transactions.CopyAndComplete | src/chatgpt_operation/controller/durable_state.py:455-464 | completion of a dispatched action |
| Transactions.CopyAndReject | src/chatgpt_operation/controller/durable_state.py:467-500 | rejection of a dispatched action |
| Transactions.CopyAndRetire | src/chatgpt_operation/controller/durable_state.py:193-214 | retirement of a quiescent state |
| Transactions.CopyAndRecordIntent | src/chatgpt_operation/controller/runtime.py:448-498 | intent for selected work |
| Transactions.CopyAndRetireStaleIntent | src/chatgpt_operation/controller/runtime.py:1877-1933 | rejection of an intent whose source head moved |

## Left out

- JSON, zlib, base64, SHA-256 and regular expressions: identities are ideal digests, and only the text frame of the codecs is modelled.
- Malformed stored records (wrong JSON types, missing keys, unknown schema versions): stored records are typed.
- The ISO check of `requested_at`, and the 64-hex check of action ids.
- The trusted-validation lifecycle, which repeats intent, receipt and observation on one more surface.
- The internals of pre-dispatch recovery: a step may replace the map of pre-dispatch failures by any other. "One active failure per target" is not kept by that code, because another error text for the same target adds a second record.
- Entry points that save an intent without asking the scheduler (`runtime.py:1639-1666`) and the lifecycle scenario that writes the stage directly.
- GitHub's transport, environment and files: GitHub is a set of runs, a sequence of comments and answers given as parameters.
- The reasoning providers, prompts and audit dictionaries, and the insides of the blocker gate, the branch policy and the manifest parser, whose verdicts are parameters.
- Extraction of acceptance criteria from Markdown: the criteria are given as a sequence without repetition.
- The comment-author check of the foreign ledger, and Issue discovery and upsert in the admission ledger.
- Report texts and audit fields of the planners.
- CrashSafety.OneRunPerIntent: assumes in-order commands and truthful look-ups; redelivery of a DISPATCH command itself is not modelled, since nothing in the gateway would detect it.
- Gateway.ExecutionGateway.Execute: does not model the two trusted-validation commands, which belong to the lifecycle left out above.
- Gateway.ExecutionGateway.Dispatch: the inside of the blocker gate and of the branch policy is not modelled, only their verdicts.
- AtMostOnce.ArtifactsApplyAtMostOnce: on the diagnostic surface an artifact is ingested only while its dispatch is recorded; see `AtMostOnce.DiagnosticReplayExactly` for the function by itself.
- StateLedger.IssueCommentTransport.PersistStateWrite: deletion and reordering of comments on GitHub are not modelled.
- Pareto.Evaluate: metric values are reals, so float rounding of very large integers is not modelled.
