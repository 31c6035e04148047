/** diagnostic.py and the recovery half of execution.py, as state functions. */
module Diagnosis {
  import opened Prelude
  import opened Records

  function PutItem(s: State, id: ActionId, item: Item): State {
    s.(queue := s.queue[id := item], revision := s.revision + 1)
  }

  function PutRecovery(s: State, id: ActionId, recovery: Recovery): State {
    s.(recoveries := s.recoveries[id := recovery], revision := s.revision + 1)
  }

  /** The intent a request becomes, when `DispatchIntent.from_dict` accepts it. */
  function MakeIntent(s: State, id: ActionId, req: DispatchRequest): Result<DispatchIntent> {
    if !(id != "" && s.researchId != "" && req.workflow != "" && req.ref != "" && req.requestedAt != "") then
      Err("dispatch intent field must be non-empty")
    else
    :- Need(IsSha40(req.headSha), "dispatch intent expected_head_sha must be lowercase 40-hex");
    Ok(DispatchIntent(id, s.researchId, req.workflow, req.ref, req.requestedAt, s.revision + 1, Some(req.headSha)))
  }

  predicate SameRequest(intent: DispatchIntent, req: DispatchRequest) {
    intent.workflow == req.workflow && intent.ref == req.ref && intent.expectedHeadSha == Some(req.headSha)
  }

  // ---------- the action surface ----------

  function EnqueueSuspendedAction(s: State, plan: ActionPlan): Result<State> {
    if plan.researchId != s.researchId then Err("queued plan belongs to a different research state") else
    var id := plan.idempotencyKey;
    if id in s.queue then
      :- Need(s.queue[id].plan == plan, "action id already owns a different plan");
      Ok(s)
    else
      Ok(PutItem(s, id, Item(Pending, plan, None, None, None, None, [], [])))
  }

  function RecordActionDispatchIntent(s: State, id: ActionId, req: DispatchRequest): Result<State> {
    if !(req.workflow != "" && req.ref != "") then Err("workflow and ref must be non-empty") else
    :- Need(id in s.queue, "action is not owned by durable queue");
    var item := s.queue[id];
    :- Need(PlanParses(item.plan), "invalid action plan");
    :- Need(item.plan.idempotencyKey == id && item.plan.researchId == s.researchId, "queued action identity changed");
    if item.status == IntentSaved then
      :- Need(item.dispatchIntent.Some?, "invalid dispatch intent schema");
      :- Need(SameRequest(item.dispatchIntent.value, req), "existing dispatch intent conflicts");
      Ok(s)
    else
      :- Need(item.status == Pending, "action is not pending");
      var intent :- MakeIntent(s, id, req);
      Ok(PutItem(s, id, item.(dispatchIntent := Some(intent), status := IntentSaved)))
  }

  function ResumeDispatchIntent(s: State, id: ActionId): Result<DispatchIntent> {
    if !(id in s.queue && s.queue[id].status == IntentSaved) then Err("action is not awaiting dispatch") else
    var item := s.queue[id];
    :- Need(PlanParses(item.plan) && item.dispatchIntent.Some?, "invalid stored record");
    var intent := item.dispatchIntent.value;
    :- Need(item.plan.idempotencyKey == id && intent.actionId == id && intent.researchId == s.researchId,
            "dispatch intent identity changed");
    Ok(intent)
  }

  function RecordActionDispatch(s: State, id: ActionId, receipt: Receipt): Result<State> {
    if !(id in s.queue) then Err("action is not owned by durable queue") else
    var item := s.queue[id];
    if item.status == Dispatched then
      :- Need(item.dispatchReceipt == Some(receipt), "action already has a different dispatch receipt");
      Ok(s)
    else
      :- Need(item.status == IntentSaved, "action has no durable dispatch intent");
      :- Need(item.dispatchIntent.Some?, "invalid dispatch intent schema");
      :- Need(ReceiptMatches(receipt, item.dispatchIntent.value, ActionCorrelation(id)), "dispatch receipt mismatch");
      Ok(PutItem(s, id, item.(dispatchReceipt := Some(receipt), status := Dispatched)))
  }

  function ResumeDispatchedAction(s: State, id: ActionId): Result<Receipt> {
    if !(id in s.queue && s.queue[id].status == Dispatched) then Err("action is not awaiting observation") else
    var item := s.queue[id];
    :- Need(PlanParses(item.plan) && item.dispatchIntent.Some? && item.dispatchReceipt.Some?, "invalid stored record");
    var intent, receipt := item.dispatchIntent.value, item.dispatchReceipt.value;
    :- Need(item.plan.idempotencyKey == id && intent.actionId == id && intent.researchId == s.researchId,
            "dispatched action identity changed");
    :- Need(receipt.correlationId == ActionCorrelation(id) && receipt.ref == intent.ref,
            "dispatch receipt correlation changed");
    Ok(receipt)
  }

  function RecordNativeDispatchEvidenceFailure(
    s: State, id: ActionId, runId: int, conclusion: string, failureKind: string): Result<State>
  {
    if !(id in s.queue && s.queue[id].status == Dispatched) then Err("action is not dispatched")
    else
      var item := s.queue[id];
      if !PlanParses(item.plan) then Err("invalid action plan")
      else if item.plan.executor != GithubNative then
        Err("only github_native dispatches may recover invalid result evidence")
      else if !(item.dispatchReceipt.Some? && item.dispatchReceipt.value.workflowRunId == Some(runId)) then
        Err("terminal evidence does not match dispatched workflow run")
      else if !(conclusion != "" && failureKind != "") then Err("conclusion and failure kind are required")
      else if item.dispatchIntent.None? then Err("invalid dispatch intent schema")
      else
        var attempt := DispatchAttempt(
          runId, conclusion, failureKind, item.dispatchIntent.value, item.dispatchReceipt.value);
        Ok(PutItem(s, id, item.(
          attemptHistory := item.attemptHistory + [attempt],
          dispatchIntent := None, dispatchReceipt := None, status := Pending)))
  }

  function MarkActionSuspended(s: State, id: ActionId): Result<State> {
    if !(id in s.queue) then Err("diagnostic action is not owned by durable queue") else
    Ok(PutItem(s, id, s.queue[id].(status := Suspended)))
  }

  function ResumeResolvedAction(s: State, id: ActionId): Result<State> {
    if !(id in s.recoveries && s.recoveries[id].status == Resolved) then Err("diagnostic recovery is not resolved")
    else if !(id in s.queue && s.queue[id].status == Suspended) then
      Err("resolved action is not suspended in durable queue")
    else if !(PlanParses(s.queue[id].plan) && s.queue[id].plan.idempotencyKey == id) then
      Err("queued action identity changed")
    else Ok(PutItem(s, id, s.queue[id].(status := Pending)))
  }

  /** The receipt's run id, when it is authoritative. */
  function BoundRun(item: Item): Result<int> {
    if item.dispatchReceipt.None? then Err("no dispatch receipt") else
    var run := item.dispatchReceipt.value.workflowRunId;
    :- Need(run.Some? && run.value >= 1, "no authoritative workflow_run_id");
    Ok(run.value)
  }

  function CompleteQueuedAction(s: State, id: ActionId, result: ExecutionResult): Result<State> {
    if !(id in s.queue && s.queue[id].status == Dispatched) then Err("action is not dispatched") else
    :- Need(result.actionId == id && result.researchId == s.researchId, "execution result does not match queued action");
    :- Need(Succeeded(result.status), "queued action requires PASS/NOOP completion evidence");
    var item := s.queue[id];
    var run :- BoundRun(item);
    :- Need(item.dispatchIntent.Some?, "invalid dispatch intent schema");
    :- Need(HasProvenance(result, run, item.dispatchIntent.value.expectedHeadSha), "execution provenance mismatch");
    Ok(PutItem(s, id, item.(status := Complete, completionResult := Some(result))))
  }

  // ---------- recovery phases (execution.py:286-353, diagnostic.py:31-133) ----------

  function DiagnosticNextAction(r: Recovery): Result<DiagnosticPhase> {
    if r.status != Open then Err("no open diagnostic recovery for action") else
    if !Truthy(r.rootCause) then Ok(InvestigateRootCause)
    else if !Truthy(r.correctiveAction) then Ok(ApplyCorrectiveAction)
    else if !Truthy(r.resolutionEvidence) then Ok(VerifyResolution)
    else Err("open diagnostic recovery has inconsistent completed fields")
  }

  /** Providers already known to have failed. */
  function FailedProviders(d: Details): set<string> {
    (if Truthy(d.provider) then {d.provider.value} else {}) +
    (if d.providerFailures.Some?
     then set f | f in d.providerFailures.value && f.provider != "" :: f.provider else {})
  }

  /** `available_providers` minus the failed ones. */
  function EligibleProviders(d: Details): set<string> {
    if d.availableProviders.Some?
    then set name | name in d.availableProviders.value && name != "" && name !in FailedProviders(d)
    else {}
  }

  /** `require_action_recoverable`: no replay while diagnosis is open. */
  function RequireActionRecoverable(s: State, id: ActionId): Guard {
    Need(!(id in s.recoveries && s.recoveries[id].status == Open), "action is suspended pending diagnostic recovery")
  }

  datatype Advance = Advance(recovery: Recovery, phase: DiagnosticPhase, advanced: bool, evidence: string)

  function RootCauseEvidence(d: Details): string {
    "provider=" + d.provider.GetOr("") + ";error_type=" + d.errorType.GetOr("") +
    (if Truthy(d.providerStatus) then ";provider_status=" + d.providerStatus.value else "")
  }

  ghost function AdvanceDiagnostic(r: Recovery): Result<Advance> {
    var phase :- DiagnosticNextAction(r);
    var d := r.failure.details;
    match phase
    case InvestigateRootCause =>
      if !Truthy(d.provider) || !Truthy(d.errorType) then
        Ok(Advance(r, phase, false, "typed failure evidence insufficient"))
      else
        Ok(Advance(r.(rootCause := Some(RootCauseEvidence(d))), phase, true, RootCauseEvidence(d)))
    case ApplyCorrectiveAction =>
      if EligibleProviders(d) != {} then
        var provider := First(EligibleProviders(d));
        var evidence := "retry through eligible provider=" + provider;
        Ok(Advance(r.(correctiveProvider := Some(provider), correctiveAction := Some(evidence)), phase, true, evidence))
      else
        Ok(Advance(r, phase, false, "no eligible provider proven by capability evidence"))
    case VerifyResolution =>
      if d.resolutionVerification.Some? && d.resolutionVerification.value.verified
         && d.resolutionVerification.value.evidence != "" then
        var evidence := d.resolutionVerification.value.evidence;
        Ok(Advance(r.(resolutionEvidence := Some(evidence), status := Resolved), phase, true, evidence))
      else
        Ok(Advance(r, phase, false, "resolution not independently verified"))
  }

  const MAX_IDENTICAL_WAITS := 2

  function RecordDiagnosticWait(r: Recovery, phase: DiagnosticPhase, evidence: string): Result<Recovery> {
    if r.status != Open then Err("diagnostic recovery is not open") else
    var fp := WaitFingerprint(phase, evidence);
    var attempts := if r.wait.Some? && r.wait.value.fingerprint == fp then r.wait.value.attempts + 1 else 1;
    var waiting := r.(wait := Some(Wait(fp, attempts)));
    if attempts >= MAX_IDENTICAL_WAITS
    then Ok(waiting.(status := NeedsEvidence, evidenceRequest := Some(fp)))
    else Ok(waiting)
  }

  /** The recovery a diagnostic workflow run reports: one phase advanced, or one more wait recorded. */
  ghost function DiagnosticOutcome(r: Recovery): Result<Recovery> {
    var a :- AdvanceDiagnostic(r);
    if a.advanced then Ok(a.recovery) else RecordDiagnosticWait(a.recovery, a.phase, a.evidence)
  }

  function RecordDiagnosticResolution(r: Recovery, evidence: string): Result<Recovery> {
    if !(r.status == Open && Truthy(r.rootCause) && Truthy(r.correctiveAction)) then
      Err("corrective action must precede resolution verification")
    else
    :- Need(evidence != "", "resolution evidence is required");
    Ok(r.(resolutionEvidence := Some(evidence), status := Resolved))
  }

  /** `resolve_from_execution_receipt`: None when the result does not verify the correction. */
  function ResolveFromExecutionReceipt(s: State, r: Recovery, id: ActionId, result: ExecutionResult)
    : Result<Option<Recovery>>
  {
    if r.status != Open then Err("diagnostic recovery is not open") else
    :- Need(Truthy(r.rootCause) && Truthy(r.correctiveAction), "diagnostic correction has not been planned");
    :- Need(result.researchId == s.researchId && result.actionId == id, "corrective result does not match");
    match result.status
    case PASS =>
      if result.details.after.None? then Ok(None)
      else
        var resolved :- RecordDiagnosticResolution(r, "verified corrective execution: " + result.observation);
        Ok(Some(resolved))
    case NOOP =>
      if result.details.before.None? then Ok(None)
      else
        var resolved :- RecordDiagnosticResolution(r, "verified desired state already held: " + result.observation);
        Ok(Some(resolved))
    case _ => Ok(None)
  }

  function OpenDiagnosticRecovery(s: State, result: ExecutionResult, fp: FailureFingerprint): State {
    PutRecovery(s, result.actionId, Recovery(
      Open, fp, result, None, None, None, None, None, None, None, None, None, None, None, None))
  }

  function AttachSourcePlan(s: State, id: ActionId, plan: ActionPlan): Result<State> {
    if !(id in s.recoveries && s.recoveries[id].status == Open) then Err("diagnostic recovery is not open") else
    :- Need(plan.researchId == s.researchId && plan.idempotencyKey == id, "source plan does not match suspended action");
    Ok(PutRecovery(s, id, s.recoveries[id].(sourcePlan := Some(plan))))
  }

  function RecordAcquiredDiagnosticEvidence(s: State, id: ActionId, evidence: Details): Result<State> {
    if !(id in s.recoveries && s.recoveries[id].status == NeedsEvidence) then
      Err("diagnostic is not waiting for evidence acquisition")
    else if evidence == NO_DETAILS then Err("typed diagnostic evidence is required")
    else
    var r := s.recoveries[id];
    Ok(PutRecovery(s, id, r.(
      acquiredEvidence := Some(evidence),
      failure := r.failure.(details := Update(r.failure.details, evidence)),
      status := Open, evidenceRequest := None, evidenceDispatch := None)))
  }

  /** `record_execution_result`: an identical replay changes nothing, and only a retryable failure is replaced. */
  function RecordExecutionResult(s: State, result: ExecutionResult): Result<State> {
    if result.researchId != s.researchId then Err("execution result belongs to another research state")
    else
      var id := result.actionId;
      if id !in s.executionResults then Ok(StoreResult(s, id, result))
      else
        var previous := s.executionResults[id];
        if previous == result then Ok(s)
        else if !(previous.status == FAILED && previous.retryable) then Err("conflicting execution result for action")
        else
          var attempts := previous.details.attemptHistory + [previous];
          Ok(StoreResult(s, id, result.(details := result.details.(attemptHistory := attempts))))
  }

  function StoreResult(s: State, id: ActionId, result: ExecutionResult): State {
    s.(executionResults := s.executionResults[id := result], revision := s.revision + 1)
  }

  // ---------- identities of the three recovery surfaces ----------

  function EvidenceIdentity(s: State, id: ActionId): Result<Correlation> {
    if !(id in s.recoveries && s.recoveries[id].status == NeedsEvidence) then
      Err("diagnostic is not waiting for evidence acquisition")
    else
    :- Need(s.recoveries[id].evidenceRequest.Some?, "evidence request fingerprint is required");
    Ok(EvidenceCorrelation(s.researchId, id, s.recoveries[id].evidenceRequest.value))
  }

  function DiagnosticIdentity(s: State, id: ActionId): Result<Correlation> {
    if !(id in s.recoveries && s.recoveries[id].status == Open) then Err("diagnostic recovery is not open") else
    Ok(DiagnosticCorrelation(s.researchId, id, s.recoveries[id].(diagnosticDispatch := None)))
  }

  /** `recovery_authorization`, over `corrective_plan_from_recovery`. */
  function RecoveryAuthorization(s: State, id: ActionId): Result<AuthorizationToken> {
    if !(id in s.recoveries && s.recoveries[id].status == Open) then Err("diagnostic recovery is not open") else
    var r := s.recoveries[id];
    :- Need(Truthy(r.rootCause) && Truthy(r.correctiveAction), "diagnostic correction is not ready");
    :- Need(r.sourcePlan.Some? && PlanParses(r.sourcePlan.value), "diagnostic recovery has no typed source ActionPlan");
    :- Need(r.sourcePlan.value.idempotencyKey == id, "persisted source ActionPlan identity changed");
    :- Need(Truthy(r.correctiveProvider), "diagnostic recovery has no selected corrective provider");
    Ok(AuthorizationToken(s.researchId, id, r.sourcePlan.value.idempotencyKey,
                          r.correctiveAction.value, r.correctiveProvider.value, r.status))
  }

  function CorrectiveIdentity(s: State, id: ActionId): Result<Correlation> {
    var token :- RecoveryAuthorization(s, id);
    Ok(CorrectiveCorrelation(s.researchId, id, token))
  }

  // ---------- intent, receipt and resume on a recovery surface ----------

  /** The dispatch record after `record_*_dispatch_intent`; an equal request keeps the existing one. */
  function SaveIntent(s: State, id: ActionId, existing: Option<Dispatch>, correlation: Correlation, req: DispatchRequest)
    : Result<Dispatch>
  {
    if existing.Some? then
      var d := existing.value;
      :- Need(d.status == IntentSaved || d.status == Dispatched, "invalid dispatch lifecycle");
      :- Need(d.correlationId == correlation && SameRequest(d.intent, req), "existing dispatch conflicts");
      Ok(d)
    else
      var intent :- MakeIntent(s, id, req);
      Ok(Dispatch(IntentSaved, correlation, intent, None))
  }

  /** The dispatch record after `record_*_dispatch`; the same receipt twice changes nothing. */
  function BindReceipt(existing: Option<Dispatch>, identity: Result<Correlation>, receipt: Receipt): Result<Dispatch> {
    if existing.None? then Err("no durable dispatch intent") else
    var d := existing.value;
    if d.status == Dispatched then
      :- Need(d.receipt == Some(receipt), "already has a different receipt");
      Ok(d)
    else
      :- Need(d.status == IntentSaved, "not awaiting dispatch");
      var correlation :- identity;
      :- Need(ReceiptMatches(receipt, d.intent, correlation), "dispatch receipt mismatch");
      Ok(d.(receipt := Some(receipt), status := Dispatched))
  }

  /** `resume_*_dispatch_intent` on a recovery surface. */
  function ResumeIntent(s: State, id: ActionId, existing: Option<Dispatch>, identity: Result<Correlation>)
    : Result<DispatchIntent>
  {
    if !(existing.Some? && existing.value.status == IntentSaved) then Err("not awaiting dispatch") else
    var d := existing.value;
    var correlation :- identity;
    :- Need(d.intent.actionId == id && d.intent.researchId == s.researchId && d.correlationId == correlation,
            "dispatch intent identity changed");
    Ok(d.intent)
  }

  /** `resume_dispatched_*` on a recovery surface. */
  function ResumeDispatched(s: State, id: ActionId, existing: Option<Dispatch>, identity: Result<Correlation>)
    : Result<Receipt>
  {
    if !(existing.Some? && existing.value.status == Dispatched) then Err("not dispatched") else
    var d := existing.value;
    var correlation :- identity;
    :- Need(d.intent.actionId == id && d.intent.researchId == s.researchId && d.correlationId == correlation
            && d.receipt.Some? && d.receipt.value.correlationId == correlation, "dispatch identity changed");
    Ok(d.receipt.value)
  }

  /** A new dispatch record costs one revision; keeping the old one costs none. */
  function StoreDispatch(s: State, id: ActionId, changed: bool, recovery: Recovery): State {
    if changed then PutRecovery(s, id, recovery) else s
  }

  function RecordEvidenceDispatchIntent(s: State, id: ActionId, req: DispatchRequest): Result<State> {
    var correlation :- EvidenceIdentity(s, id);
    var r := s.recoveries[id];
    var d :- SaveIntent(s, id, r.evidenceDispatch, correlation, req);
    Ok(StoreDispatch(s, id, r.evidenceDispatch.None?, r.(evidenceDispatch := Some(d))))
  }

  function RecordDiagnosticDispatchIntent(s: State, id: ActionId, req: DispatchRequest): Result<State> {
    var correlation :- DiagnosticIdentity(s, id);
    var r := s.recoveries[id];
    var d :- SaveIntent(s, id, r.diagnosticDispatch, correlation, req);
    Ok(StoreDispatch(s, id, r.diagnosticDispatch.None?, r.(diagnosticDispatch := Some(d))))
  }

  function RecordCorrectiveDispatchIntent(s: State, id: ActionId, req: DispatchRequest): Result<State> {
    if !(id in s.recoveries && s.recoveries[id].status == Open) then Err("diagnostic recovery is not open") else
    var r := s.recoveries[id];
    :- Need(!Truthy(r.resolutionEvidence), "resolved diagnostic cannot dispatch corrective execution");
    var correlation :- CorrectiveIdentity(s, id);
    var d :- SaveIntent(s, id, r.correctiveDispatch, correlation, req);
    Ok(StoreDispatch(s, id, r.correctiveDispatch.None?, r.(correctiveDispatch := Some(d))))
  }

  function RecordEvidenceDispatch(s: State, id: ActionId, receipt: Receipt): Result<State> {
    if !(id in s.recoveries && s.recoveries[id].status == NeedsEvidence) then
      Err("diagnostic is not waiting for evidence acquisition")
    else
    var r := s.recoveries[id];
    var d :- BindReceipt(r.evidenceDispatch, EvidenceIdentity(s, id), receipt);
    Ok(StoreDispatch(s, id, r.evidenceDispatch != Some(d), r.(evidenceDispatch := Some(d))))
  }

  function RecordDiagnosticDispatch(s: State, id: ActionId, receipt: Receipt): Result<State> {
    if !(id in s.recoveries && s.recoveries[id].status == Open) then Err("diagnostic recovery is not open") else
    var r := s.recoveries[id];
    var d :- BindReceipt(r.diagnosticDispatch, DiagnosticIdentity(s, id), receipt);
    Ok(StoreDispatch(s, id, r.diagnosticDispatch != Some(d), r.(diagnosticDispatch := Some(d))))
  }

  function RecordCorrectiveDispatch(s: State, id: ActionId, receipt: Receipt): Result<State> {
    if !(id in s.recoveries && s.recoveries[id].status == Open) then Err("diagnostic recovery is not open") else
    var r := s.recoveries[id];
    var d :- BindReceipt(r.correctiveDispatch, CorrectiveIdentity(s, id), receipt);
    Ok(StoreDispatch(s, id, r.correctiveDispatch != Some(d), r.(correctiveDispatch := Some(d))))
  }

  function ResumeEvidenceDispatchIntent(s: State, id: ActionId): Result<DispatchIntent> {
    if !(id in s.recoveries && s.recoveries[id].status == NeedsEvidence) then Err("not waiting for evidence") else
    ResumeIntent(s, id, s.recoveries[id].evidenceDispatch, EvidenceIdentity(s, id))
  }

  function ResumeDispatchedEvidence(s: State, id: ActionId): Result<Receipt> {
    if !(id in s.recoveries && s.recoveries[id].status == NeedsEvidence) then Err("not waiting for evidence") else
    ResumeDispatched(s, id, s.recoveries[id].evidenceDispatch, EvidenceIdentity(s, id))
  }

  function ResumeDiagnosticDispatchIntent(s: State, id: ActionId): Result<DispatchIntent> {
    if !(id in s.recoveries && s.recoveries[id].status == Open) then Err("diagnostic recovery is not open") else
    ResumeIntent(s, id, s.recoveries[id].diagnosticDispatch, DiagnosticIdentity(s, id))
  }

  function ResumeDispatchedDiagnostic(s: State, id: ActionId): Result<Receipt> {
    if !(id in s.recoveries && s.recoveries[id].status == Open) then Err("diagnostic recovery is not open") else
    ResumeDispatched(s, id, s.recoveries[id].diagnosticDispatch, DiagnosticIdentity(s, id))
  }

  function ResumeCorrectiveDispatchIntent(s: State, id: ActionId): Result<DispatchIntent> {
    if !(id in s.recoveries && s.recoveries[id].status == Open) then Err("diagnostic recovery is not open") else
    ResumeIntent(s, id, s.recoveries[id].correctiveDispatch, CorrectiveIdentity(s, id))
  }

  function ResumeDispatchedCorrective(s: State, id: ActionId): Result<Receipt> {
    if !(id in s.recoveries && s.recoveries[id].status == Open) then Err("diagnostic recovery is not open") else
    ResumeDispatched(s, id, s.recoveries[id].correctiveDispatch, CorrectiveIdentity(s, id))
  }
}
