/** The mutable research state, as the controller's functions change it in place. */
module ResearchObject {
  import opened Prelude
  import opened Records
  import opened Diagnosis
  import opened DurableState
  import opened ResearchStages

  /** A call either does exactly what its specification proposes, or raises and changes nothing. */
  predicate Did(before: State, after: State, raised: Guard, spec: Result<State>) {
    match spec
    case Ok(t) => raised == Pass && after == t
    case Err(e) => raised == Fail(e) && after == before
  }

  class ResearchState {
    const researchId: string
    const objective: string
    var stage: ResearchStage
    var completedOperationIds: seq<string>
    var executionResults: map<ActionId, ExecutionResult>
    var diagnosticRecoveries: map<ActionId, Recovery>
    var actionQueue: map<ActionId, Item>
    var revision: nat
    var inheritedEvidence: seq<InheritedEvidence>
    var predispatchFailures: map<string, PredispatchStatus>
    var retirement: Option<StateRetirement>

    function View(): State
      reads this
    {
      State(researchId, objective, stage, completedOperationIds, executionResults, diagnosticRecoveries,
            actionQueue, revision, inheritedEvidence, predispatchFailures, retirement)
    }

    /** `copy.deepcopy` */
    constructor Copy(s: State)
      ensures View() == s
    {
      researchId, objective, stage := s.researchId, s.objective, s.stage;
      completedOperationIds, executionResults := s.completedOperationIds, s.executionResults;
      diagnosticRecoveries, actionQueue, revision := s.recoveries, s.queue, s.revision;
      inheritedEvidence, predispatchFailures := s.inheritedEvidence, s.predispatchFailures;
      retirement := s.retirement;
    }

    method StoreItem(id: ActionId, item: Item)
      modifies this
      ensures View() == PutItem(old(View()), id, item)
    {
      actionQueue := actionQueue[id := item];
      revision := revision + 1;
    }

    method StoreRecovery(id: ActionId, recovery: Recovery)
      modifies this
      ensures View() == PutRecovery(old(View()), id, recovery)
    {
      diagnosticRecoveries := diagnosticRecoveries[id := recovery];
      revision := revision + 1;
    }

    // ---------- research.py ----------

    method ChangeStage(target: ResearchStage, executionEvidence: bool) returns (raised: Guard)
      modifies this
      ensures Did(old(View()), View(), raised, Transition(old(View()), target, executionEvidence))
    {
      hide AllowedTransitions;
      if target !in AllowedTransitions(stage) {
        return Fail("transition is not allowed");
      }
      if target == Completed && !executionEvidence {
        return Fail("COMPLETE is evidence-gated; use transition_from_execution");
      }
      stage := target;
      revision := revision + 1;
      return Pass;
    }

    method ChangeStageOnce(operationId: string, target: ResearchStage, executionEvidence: bool) returns (raised: Guard)
      modifies this
      ensures Did(old(View()), View(), raised, ApplyOnce(old(View()), operationId, target, executionEvidence))
    {
      hide AllowedTransitions;
      if operationId in completedOperationIds {
        return Pass;
      }
      raised := ChangeStage(target, executionEvidence);
      if raised.Pass? {
        completedOperationIds := completedOperationIds + [operationId];
      }
    }

    // ---------- execution.py ----------

    method RecordResult(result: ExecutionResult) returns (raised: Guard)
      modifies this
      ensures Did(old(View()), View(), raised, RecordExecutionResult(old(View()), result))
    {
      if result.researchId != researchId {
        return Fail("execution result belongs to another research state");
      }
      var id := result.actionId;
      var encoded := result;
      if id in executionResults {
        var previous := executionResults[id];
        if previous == result {
          return Pass;
        }
        if !(previous.status == FAILED && previous.retryable) {
          return Fail("conflicting execution result for action");
        }
        var attempts := previous.details.attemptHistory + [previous];
        encoded := result.(details := result.details.(attemptHistory := attempts));
      }
      executionResults := executionResults[id := encoded];
      revision := revision + 1;
      return Pass;
    }

    /** The one call that keeps a change when it raises: the result is recorded before the stage is refused. */
    method FollowExecution(result: ExecutionResult, target: ResearchStage) returns (error: Option<string>)
      modifies this
      ensures Attempt(View(), error) == TransitionFromExecution(old(View()), result, target)
    {
      hide RecordExecutionResult, ApplyOnce, StageName;
      var raised := RecordResult(result);
      if raised.Fail? {
        return Some(raised.error);
      }
      if target == Completed && !Succeeded(result.status) {
        return Some("COMPLETE requires PASS/NOOP execution evidence");
      }
      raised := ChangeStageOnce("execution:" + result.actionId + ":" + StageName(target), target, true);
      return if raised.Fail? then Some(raised.error) else None;
    }

    method OpenRecovery(result: ExecutionResult, fingerprint: FailureFingerprint)
      modifies this
      ensures View() == OpenDiagnosticRecovery(old(View()), result, fingerprint)
    {
      StoreRecovery(result.actionId, Recovery(
        Open, fingerprint, result, None, None, None, None, None, None, None, None, None, None, None, None));
    }

    method AttachPlan(id: ActionId, plan: ActionPlan) returns (raised: Guard)
      modifies this
      ensures Did(old(View()), View(), raised, AttachSourcePlan(old(View()), id, plan))
    {
      if !(id in diagnosticRecoveries && diagnosticRecoveries[id].status == Open) {
        return Fail("diagnostic recovery is not open");
      }
      if !(plan.researchId == researchId && plan.idempotencyKey == id) {
        return Fail("source plan does not match suspended action");
      }
      StoreRecovery(id, diagnosticRecoveries[id].(sourcePlan := Some(plan)));
      return Pass;
    }

    // ---------- diagnostic.py: the action surface ----------

    method EnqueueAction(plan: ActionPlan) returns (raised: Guard)
      modifies this
      ensures Did(old(View()), View(), raised, EnqueueSuspendedAction(old(View()), plan))
    {
      if plan.researchId != researchId {
        return Fail("queued plan belongs to a different research state");
      }
      var id := plan.idempotencyKey;
      if id in actionQueue {
        return if actionQueue[id].plan == plan then Pass else Fail("action id already owns a different plan");
      }
      StoreItem(id, Item(Pending, plan, None, None, None, None, [], []));
      return Pass;
    }

    method RecordIntent(id: ActionId, req: DispatchRequest) returns (raised: Guard)
      modifies this
      ensures Did(old(View()), View(), raised, RecordActionDispatchIntent(old(View()), id, req))
    {
      hide MakeIntent, PlanParses;
      if !(req.workflow != "" && req.ref != "") {
        return Fail("workflow and ref must be non-empty");
      }
      if id !in actionQueue {
        return Fail("action is not owned by durable queue");
      }
      var item := actionQueue[id];
      if !PlanParses(item.plan) {
        return Fail("invalid action plan");
      }
      if !(item.plan.idempotencyKey == id && item.plan.researchId == researchId) {
        return Fail("queued action identity changed");
      }
      if item.status == IntentSaved {
        if item.dispatchIntent.None? {
          return Fail("invalid dispatch intent schema");
        }
        return if SameRequest(item.dispatchIntent.value, req) then Pass
               else Fail("existing dispatch intent conflicts");
      }
      if item.status != Pending {
        return Fail("action is not pending");
      }
      var intent := MakeIntent(View(), id, req);
      if intent.Err? {
        return Fail(intent.error);
      }
      StoreItem(id, item.(dispatchIntent := Some(intent.value), status := IntentSaved));
      return Pass;
    }

    method BindDispatch(id: ActionId, receipt: Receipt) returns (raised: Guard)
      modifies this
      ensures Did(old(View()), View(), raised, RecordActionDispatch(old(View()), id, receipt))
    {
      hide ReceiptMatches;
      if id !in actionQueue {
        return Fail("action is not owned by durable queue");
      }
      var item := actionQueue[id];
      if item.status == ActionLifecycle.Dispatched {
        return if item.dispatchReceipt == Some(receipt) then Pass
               else Fail("action already has a different dispatch receipt");
      }
      if item.status != IntentSaved {
        return Fail("action has no durable dispatch intent");
      }
      if item.dispatchIntent.None? {
        return Fail("invalid dispatch intent schema");
      }
      if !ReceiptMatches(receipt, item.dispatchIntent.value, ActionCorrelation(id)) {
        return Fail("dispatch receipt mismatch");
      }
      StoreItem(id, item.(dispatchReceipt := Some(receipt), status := ActionLifecycle.Dispatched));
      return Pass;
    }

    method RetireUnusableAttempt(id: ActionId, runId: int, conclusion: string, failureKind: string)
      returns (raised: Guard)
      modifies this
      ensures Did(old(View()), View(), raised,
                  RecordNativeDispatchEvidenceFailure(old(View()), id, runId, conclusion, failureKind))
    {
      hide PlanParses, PutItem;
      if !(id in actionQueue && actionQueue[id].status == ActionLifecycle.Dispatched) {
        return Fail("action is not dispatched");
      }
      var item := actionQueue[id];
      if !PlanParses(item.plan) {
        return Fail("invalid action plan");
      }
      if item.plan.executor != GithubNative {
        return Fail("only github_native dispatches may recover invalid result evidence");
      }
      if !(item.dispatchReceipt.Some? && item.dispatchReceipt.value.workflowRunId == Some(runId)) {
        return Fail("terminal evidence does not match dispatched workflow run");
      }
      if !(conclusion != "" && failureKind != "") {
        return Fail("conclusion and failure kind are required");
      }
      if item.dispatchIntent.None? {
        return Fail("invalid dispatch intent schema");
      }
      var attempt := DispatchAttempt(runId, conclusion, failureKind, item.dispatchIntent.value, item.dispatchReceipt.value);
      StoreItem(id, item.(attemptHistory := item.attemptHistory + [attempt],
                          dispatchIntent := None, dispatchReceipt := None, status := Pending));
      return Pass;
    }

    method Suspend(id: ActionId) returns (raised: Guard)
      modifies this
      ensures Did(old(View()), View(), raised, MarkActionSuspended(old(View()), id))
    {
      if id !in actionQueue {
        return Fail("diagnostic action is not owned by durable queue");
      }
      StoreItem(id, actionQueue[id].(status := Suspended));
      return Pass;
    }

    method ResumeResolved(id: ActionId) returns (raised: Guard)
      modifies this
      ensures Did(old(View()), View(), raised, ResumeResolvedAction(old(View()), id))
    {
      hide PlanParses, PutItem;
      if !(id in diagnosticRecoveries && diagnosticRecoveries[id].status == Resolved) {
        return Fail("diagnostic recovery is not resolved");
      }
      if !(id in actionQueue && actionQueue[id].status == Suspended) {
        return Fail("resolved action is not suspended in durable queue");
      }
      var item := actionQueue[id];
      if !(PlanParses(item.plan) && item.plan.idempotencyKey == id) {
        return Fail("queued action identity changed");
      }
      StoreItem(id, item.(status := Pending));
      return Pass;
    }

    method Complete(id: ActionId, result: ExecutionResult) returns (raised: Guard)
      modifies this
      ensures Did(old(View()), View(), raised, CompleteQueuedAction(old(View()), id, result))
    {
      hide HasProvenance, BoundRun, PutItem;
      if !(id in actionQueue && actionQueue[id].status == ActionLifecycle.Dispatched) {
        return Fail("action is not dispatched");
      }
      if !(result.actionId == id && result.researchId == researchId) {
        return Fail("execution result does not match queued action");
      }
      if !Succeeded(result.status) {
        return Fail("queued action requires PASS/NOOP completion evidence");
      }
      var item := actionQueue[id];
      var run := BoundRun(item);
      if run.Err? {
        return Fail(run.error);
      }
      if item.dispatchIntent.None? {
        return Fail("invalid dispatch intent schema");
      }
      if !HasProvenance(result, run.value, item.dispatchIntent.value.expectedHeadSha) {
        return Fail("execution provenance mismatch");
      }
      StoreItem(id, item.(status := ActionLifecycle.Complete, completionResult := Some(result)));
      return Pass;
    }

    // ---------- diagnostic.py: the recovery surfaces ----------

    method BindEvidence(id: ActionId, receipt: Receipt) returns (raised: Guard)
      modifies this
      ensures Did(old(View()), View(), raised, RecordEvidenceDispatch(old(View()), id, receipt))
    {
      hide BindReceipt;
      if !(id in diagnosticRecoveries && diagnosticRecoveries[id].status == NeedsEvidence) {
        return Fail("diagnostic is not waiting for evidence acquisition");
      }
      var r := diagnosticRecoveries[id];
      var d := BindReceipt(r.evidenceDispatch, EvidenceIdentity(View(), id), receipt);
      if d.Err? {
        return Fail(d.error);
      }
      if r.evidenceDispatch != Some(d.value) {
        StoreRecovery(id, r.(evidenceDispatch := Some(d.value)));
      }
      return Pass;
    }

    method BindDiagnostic(id: ActionId, receipt: Receipt) returns (raised: Guard)
      modifies this
      ensures Did(old(View()), View(), raised, RecordDiagnosticDispatch(old(View()), id, receipt))
    {
      hide BindReceipt;
      if !(id in diagnosticRecoveries && diagnosticRecoveries[id].status == Open) {
        return Fail("diagnostic recovery is not open");
      }
      var r := diagnosticRecoveries[id];
      var d := BindReceipt(r.diagnosticDispatch, DiagnosticIdentity(View(), id), receipt);
      if d.Err? {
        return Fail(d.error);
      }
      if r.diagnosticDispatch != Some(d.value) {
        StoreRecovery(id, r.(diagnosticDispatch := Some(d.value)));
      }
      return Pass;
    }

    method BindCorrective(id: ActionId, receipt: Receipt) returns (raised: Guard)
      modifies this
      ensures Did(old(View()), View(), raised, RecordCorrectiveDispatch(old(View()), id, receipt))
    {
      hide BindReceipt, CorrectiveIdentity;
      if !(id in diagnosticRecoveries && diagnosticRecoveries[id].status == Open) {
        return Fail("diagnostic recovery is not open");
      }
      var r := diagnosticRecoveries[id];
      var d := BindReceipt(r.correctiveDispatch, CorrectiveIdentity(View(), id), receipt);
      if d.Err? {
        return Fail(d.error);
      }
      if r.correctiveDispatch != Some(d.value) {
        StoreRecovery(id, r.(correctiveDispatch := Some(d.value)));
      }
      return Pass;
    }

    method RecordEvidenceIntent(id: ActionId, req: DispatchRequest) returns (raised: Guard)
      modifies this
      ensures Did(old(View()), View(), raised, RecordEvidenceDispatchIntent(old(View()), id, req))
    {
      hide SaveIntent;
      var correlation := EvidenceIdentity(View(), id);
      if correlation.Err? {
        return Fail(correlation.error);
      }
      var r := diagnosticRecoveries[id];
      var d := SaveIntent(View(), id, r.evidenceDispatch, correlation.value, req);
      if d.Err? {
        return Fail(d.error);
      }
      if r.evidenceDispatch.None? {
        StoreRecovery(id, r.(evidenceDispatch := Some(d.value)));
      }
      return Pass;
    }

    method RecordDiagnosticIntent(id: ActionId, req: DispatchRequest) returns (raised: Guard)
      modifies this
      ensures Did(old(View()), View(), raised, RecordDiagnosticDispatchIntent(old(View()), id, req))
    {
      hide SaveIntent;
      var correlation := DiagnosticIdentity(View(), id);
      if correlation.Err? {
        return Fail(correlation.error);
      }
      var r := diagnosticRecoveries[id];
      var d := SaveIntent(View(), id, r.diagnosticDispatch, correlation.value, req);
      if d.Err? {
        return Fail(d.error);
      }
      if r.diagnosticDispatch.None? {
        StoreRecovery(id, r.(diagnosticDispatch := Some(d.value)));
      }
      return Pass;
    }

    method RecordCorrectiveIntent(id: ActionId, req: DispatchRequest) returns (raised: Guard)
      modifies this
      ensures Did(old(View()), View(), raised, RecordCorrectiveDispatchIntent(old(View()), id, req))
    {
      hide SaveIntent, CorrectiveIdentity;
      if !(id in diagnosticRecoveries && diagnosticRecoveries[id].status == Open) {
        return Fail("diagnostic recovery is not open");
      }
      var r := diagnosticRecoveries[id];
      if Truthy(r.resolutionEvidence) {
        return Fail("resolved diagnostic cannot dispatch corrective execution");
      }
      var correlation := CorrectiveIdentity(View(), id);
      if correlation.Err? {
        return Fail(correlation.error);
      }
      var d := SaveIntent(View(), id, r.correctiveDispatch, correlation.value, req);
      if d.Err? {
        return Fail(d.error);
      }
      if r.correctiveDispatch.None? {
        StoreRecovery(id, r.(correctiveDispatch := Some(d.value)));
      }
      return Pass;
    }

    method RecordEvidence(id: ActionId, evidence: Details) returns (raised: Guard)
      modifies this
      ensures Did(old(View()), View(), raised, RecordAcquiredDiagnosticEvidence(old(View()), id, evidence))
    {
      hide Update;
      if !(id in diagnosticRecoveries && diagnosticRecoveries[id].status == NeedsEvidence) {
        return Fail("diagnostic is not waiting for evidence acquisition");
      }
      if evidence == NO_DETAILS {
        return Fail("typed diagnostic evidence is required");
      }
      var r := diagnosticRecoveries[id];
      StoreRecovery(id, r.(
        acquiredEvidence := Some(evidence),
        failure := r.failure.(details := Update(r.failure.details, evidence)),
        status := Open, evidenceRequest := None, evidenceDispatch := None));
      return Pass;
    }

    /** `advance_diagnostic`, which changes the recovery it inspects. */
    method Advance(id: ActionId) returns (a: Result<Advance>)
      modifies this
      ensures id in old(diagnosticRecoveries) ==> a == AdvanceDiagnostic(old(diagnosticRecoveries[id]))
      ensures View() == if a.Ok? && a.value.advanced then PutRecovery(old(View()), id, a.value.recovery) else old(View())
      ensures a.Err? <==> id !in old(diagnosticRecoveries) || DiagnosticNextAction(old(diagnosticRecoveries[id])).Err?
    {
      hide EligibleProviders, RootCauseEvidence;
      if id !in diagnosticRecoveries {
        return Err("no open diagnostic recovery for action");
      }
      var r := diagnosticRecoveries[id];
      var phase := DiagnosticNextAction(r);
      if phase.Err? {
        return Err(phase.error);
      }
      var d := r.failure.details;
      match phase.value
      case InvestigateRootCause =>
        if !Truthy(d.provider) || !Truthy(d.errorType) {
          return Ok(Diagnosis.Advance(r, phase.value, false, "typed failure evidence insufficient"));
        }
        var evidence := RootCauseEvidence(d);
        StoreRecovery(id, r.(rootCause := Some(evidence)));
        return Ok(Diagnosis.Advance(diagnosticRecoveries[id], phase.value, true, evidence));
      case ApplyCorrectiveAction =>
        var eligible := EligibleProviders(d);
        if eligible == {} {
          return Ok(Diagnosis.Advance(r, phase.value, false, "no eligible provider proven by capability evidence"));
        }
        var provider := SortedFirst(eligible);
        var evidence := "retry through eligible provider=" + provider;
        StoreRecovery(id, r.(correctiveProvider := Some(provider), correctiveAction := Some(evidence)));
        return Ok(Diagnosis.Advance(diagnosticRecoveries[id], phase.value, true, evidence));
      case VerifyResolution =>
        if d.resolutionVerification.Some? && d.resolutionVerification.value.verified
           && d.resolutionVerification.value.evidence != "" {
          var evidence := d.resolutionVerification.value.evidence;
          StoreRecovery(id, r.(resolutionEvidence := Some(evidence), status := Resolved));
          return Ok(Diagnosis.Advance(diagnosticRecoveries[id], phase.value, true, evidence));
        }
        return Ok(Diagnosis.Advance(r, phase.value, false, "resolution not independently verified"));
    }

    method RecordWait(id: ActionId, phase: DiagnosticPhase, evidence: string) returns (raised: Guard)
      modifies this
      ensures id in old(diagnosticRecoveries) ==>
        var spec := RecordDiagnosticWait(old(diagnosticRecoveries[id]), phase, evidence);
        Did(old(View()), View(), raised, if spec.Ok? then Ok(PutRecovery(old(View()), id, spec.value)) else Err(spec.error))
      ensures id !in old(diagnosticRecoveries) ==> raised.Fail? && View() == old(View())
    {
      if !(id in diagnosticRecoveries && diagnosticRecoveries[id].status == Open) {
        return Fail("diagnostic recovery is not open");
      }
      var recovery := diagnosticRecoveries[id];
      var fp := WaitFingerprint(phase, evidence);
      var attempts := 1;
      if recovery.wait.Some? && recovery.wait.value.fingerprint == fp {
        attempts := recovery.wait.value.attempts + 1;
      }
      recovery := recovery.(wait := Some(Wait(fp, attempts)));
      if attempts >= MAX_IDENTICAL_WAITS {
        recovery := recovery.(status := NeedsEvidence, evidenceRequest := Some(fp));
      }
      StoreRecovery(id, recovery);
      return Pass;
    }
  }
}
