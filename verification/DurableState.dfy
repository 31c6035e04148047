/** durable_state.py: each `apply_*` proposes the whole next state from the current one. */
module DurableState {
  import opened Prelude
  import opened Records
  import opened Diagnosis

  datatype Surface = ActionSurface | EvidenceSurface | DiagnosticSurface | CorrectiveSurface

  /** An evidence or diagnostic artifact's provenance block. */
  datatype ArtifactProvenance = ArtifactProvenance(
    workflowRunId: int, runAttempt: int, headSha: string, actionId: ActionId, dispatchId: Correlation)

  predicate ProvenanceBinds(p: ArtifactProvenance, id: ActionId, d: Dispatch, correlation: Correlation) {
    && p.workflowRunId >= 1 && p.runAttempt >= 1 && p.actionId == id && p.dispatchId == correlation
    && d.receipt.Some? && d.receipt.value.workflowRunId == Some(p.workflowRunId)
    && d.intent.expectedHeadSha == Some(p.headSha)
  }

  // ---------- rollover and retirement ----------

  predicate ActivePredispatchFailure(s: State) {
    exists key :: key in s.predispatchFailures && s.predispatchFailures[key] != Settled
  }

  predicate HasUnresolvedRecovery(s: State) {
    exists id :: id in s.recoveries && Live(s.recoveries[id])
  }

  predicate QuiescentExecutionSurfaces(s: State) {
    s.queue == map[] && s.executionResults == map[] && !HasUnresolvedRecovery(s) && !ActivePredispatchFailure(s)
  }

  predicate HasDurableRetirement(s: State) {
    s.retirement.Some? && QuiescentExecutionSurfaces(s) && s.retirement.value.retiredFromRevision + 1 == s.revision
  }

  /** A failure recorded as not retryable by governance. */
  predicate TerminalFailure(s: State, id: ActionId) {
    id in s.executionResults && s.executionResults[id].status == FAILED
    && s.executionResults[id].details.governanceRetryable == Some(false)
  }

  predicate CanRolloverState(s: State) {
    if ActivePredispatchFailure(s) then false
    else if s.retirement.Some? then HasDurableRetirement(s)
    else
      s.queue != map[] && !HasUnresolvedRecovery(s) &&
      forall id :: id in s.queue ==>
        s.queue[id].status == Complete || s.queue[id].status == Rejected
        || (s.queue[id].status == Suspended && TerminalFailure(s, id))
  }

  function RetireQuiescentState(s: State, issueNumber: int, workloadMode: string): Result<State> {
    if !(QuiescentExecutionSurfaces(s) && s.retirement.None?) then
      Err("state retirement requires a quiescent state")
    else
    :- Need(issueNumber >= 1, "retirement issue_number must be positive");
    :- Need(workloadMode == "observability_only" || workloadMode == "actionable", "unsupported workload_mode");
    Ok(s.(retirement := Some(StateRetirement(issueNumber, workloadMode, s.revision)), revision := s.revision + 1))
  }

  // ---------- receipts and terminal results ----------

  function ApplyDispatchReceipt(s: State, surface: Surface, id: ActionId, receipt: Receipt): Result<State> {
    var proposed :- match surface
      case ActionSurface => RecordActionDispatch(s, id, receipt)
      case EvidenceSurface => RecordEvidenceDispatch(s, id, receipt)
      case DiagnosticSurface => RecordDiagnosticDispatch(s, id, receipt)
      case CorrectiveSurface => RecordCorrectiveDispatch(s, id, receipt);
    :- Need(proposed.revision == s.revision + 1, "dispatch receipt must advance exactly one revision");
    Ok(proposed)
  }

  function ApplyActionCompletion(s: State, result: ExecutionResult): Result<State> {
    CompleteQueuedAction(s, result.actionId, result)
  }

  function ApplyActionRejection(s: State, result: ExecutionResult): Result<State> {
    if result.status != REJECTED then Err("action rejection requires REJECTED execution evidence") else
    var id := result.actionId;
    :- Need(id in s.queue && s.queue[id].status == Dispatched, "rejected action is not dispatched");
    var item := s.queue[id];
    var run :- BoundRun(item);
    :- Need(item.dispatchIntent.Some?, "invalid dispatch intent schema");
    :- Need(HasProvenance(result, run, item.dispatchIntent.value.expectedHeadSha), "execution provenance mismatch");
    Ok(PutItem(s, id, item.(status := Rejected, completionResult := Some(result))))
  }

  function FingerprintOf(result: ExecutionResult): FailureFingerprint {
    FailureFingerprint(result.executor, result.observation, result.details.provider,
                       result.details.errorType, result.details.providerStatus)
  }

  /** Retryable in governance terms: as reported, or an execution-kernel failure naming its provider. */
  predicate EffectivelyRetryable(result: ExecutionResult) {
    result.retryable || (result.details.errorType == Some("ExecutionKernelError") && Truthy(result.details.provider))
  }

  /** The stored result with the two governance fields filled in. */
  function Governed(s: State, id: ActionId, fp: FailureFingerprint, retryable: bool): State
    requires id in s.executionResults
  {
    var stored := s.executionResults[id];
    s.(executionResults := s.executionResults[id := stored.(
      details := stored.details.(failureFingerprint := Some(fp), governanceRetryable := Some(retryable)))])
  }

  predicate RepeatsFailure(s: State, result: ExecutionResult) {
    result.actionId in s.executionResults
    && s.executionResults[result.actionId].details.failureFingerprint == Some(FingerprintOf(result))
  }

  function Requeue(s: State, id: ActionId): State
    requires id in s.queue
  {
    PutItem(s, id, s.queue[id].(status := Pending, dispatchIntent := None, dispatchReceipt := None))
  }

  /** Open the recovery, attach the failed plan and suspend the action. */
  function SuspendForDiagnosis(s: State, result: ExecutionResult): Result<State> {
    var id := result.actionId;
    var started := OpenDiagnosticRecovery(s, result, FingerprintOf(result));
    :- Need(id in started.queue && PlanParses(started.queue[id].plan), "invalid action plan");
    var attached :- AttachSourcePlan(started, id, started.queue[id].plan);
    MarkActionSuspended(attached, id)
  }

  /** The result is recorded and its governance fields are filled in. */
  function RecordFailure(s: State, result: ExecutionResult): Result<State> {
    var recorded :- RecordExecutionResult(s, result);
    if result.actionId !in recorded.executionResults then Err("result was not recorded")
    else Ok(Governed(recorded, result.actionId, FingerprintOf(result), EffectivelyRetryable(result)))
  }

  /** Repeated retryable failures open diagnosis, first ones are retried, others end the action. */
  function DisposeOfFailure(governed: State, result: ExecutionResult, repeated: bool): Result<State> {
    if repeated && EffectivelyRetryable(result) then SuspendForDiagnosis(governed, result)
    else if result.actionId !in governed.queue then Err("failed action is not queued")
    else if EffectivelyRetryable(result) then Ok(Requeue(governed, result.actionId))
    else MarkActionSuspended(governed, result.actionId)
  }

  predicate FailureBound(s: State, result: ExecutionResult) {
    && result.status == FAILED
    && result.actionId in s.queue && s.queue[result.actionId].status == Dispatched
    && BoundRun(s.queue[result.actionId]).Ok?
    && s.queue[result.actionId].dispatchIntent.Some?
    && HasProvenance(result, BoundRun(s.queue[result.actionId]).value,
                     s.queue[result.actionId].dispatchIntent.value.expectedHeadSha)
  }

  function ApplyActionFailure(s: State, result: ExecutionResult): Result<State> {
    if !FailureBound(s, result) then Err("failed result is not bound to a dispatched action") else
    var governed :- RecordFailure(s, result);
    DisposeOfFailure(governed, result, RepeatsFailure(s, result))
  }

  /** The failure record extended with the provider whose correction could not be verified. */
  function BlameProvider(d: Details, provider: string, result: ExecutionResult): Details {
    var failures := d.providerFailures.GetOr([]);
    var evidence := ProviderFailure(
      provider,
      if Truthy(result.details.errorType) then result.details.errorType.value else StatusName(result.status),
      result.details.providerStatus.GetOr(""), result.observation);
    d.(providerFailures := Some(
      if provider != "" && !(exists f :: f in failures && f.provider == provider)
      then failures + [evidence] else failures))
  }

  function ApplyCorrectiveExecutionResult(s: State, id: ActionId, result: ExecutionResult): Result<State> {
    var receipt := ResumeDispatchedCorrective(s, id);
    if receipt.Err? then Err(receipt.error)
    else if id !in s.recoveries || s.recoveries[id].correctiveDispatch.None? then Err("no corrective dispatch")
    else
      var r := s.recoveries[id];
      var run := receipt.value.workflowRunId;
      if !(result.researchId == s.researchId && result.actionId == id) then Err("corrective result identity mismatch")
      else if result.executor != GithubNative then Err("corrective result came from wrong executor")
      else if !(run.Some? && run.value >= 1) then Err("corrective dispatch has no authoritative workflow_run_id")
      else if !HasProvenance(result, run.value, r.correctiveDispatch.value.intent.expectedHeadSha) then
        Err("execution provenance mismatch")
      else
        match ResolveFromExecutionReceipt(s, r, id, result)
        case Err(e) => Err(e)
        case Ok(Some(resolved)) => ReleaseCorrected(s, id, resolved)
        case Ok(None) => Ok(PutRecovery(s, id, Blamed(r, result)))
  }

  /** The correction is verified: the recovery is closed and its action is pending again. */
  function ReleaseCorrected(s: State, id: ActionId, resolved: Recovery): Result<State> {
    match ResumeResolvedAction(PutRecovery(s, id, resolved.(correctiveDispatch := None)), id)
    case Err(e) => Err(e)
    case Ok(resumed) => Ok(resumed.(revision := s.revision + 1))
  }

  /** The correction is not verified: its provider is blamed and another must be chosen. */
  function Blamed(r: Recovery, result: ExecutionResult): Recovery {
    r.(failure := r.failure.(details := BlameProvider(r.failure.details, r.correctiveProvider.GetOr(""), result)),
       lastCorrectiveResult := Some(result),
       correctiveAction := None, correctiveProvider := None, correctiveDispatch := None)
  }

  /** `patched` is the recovery the artifact carries. */
  function ApplyDiagnosticPatch(s: State, id: ActionId, patched: Recovery, provenance: Option<ArtifactProvenance>)
    : Result<State>
  {
    if !(id in s.recoveries) then Err("diagnostic patch action is not present in current state") else
    var before := s.recoveries[id];
    :- Need(before.status == Open, "diagnostic patch target is not open");
    if before.diagnosticDispatch.Some? then
      var _ :- ResumeDispatchedDiagnostic(s, id);
      var correlation :- DiagnosticIdentity(s, id);
      :- Need(provenance.Some? && ProvenanceBinds(provenance.value, id, before.diagnosticDispatch.value, correlation),
              "diagnostic provenance mismatch");
      Ok(PutRecovery(s, id, patched.(diagnosticDispatch := None)))
    else
      Ok(PutRecovery(s, id, patched.(diagnosticDispatch := None)))
  }

  function ApplyEvidencePatch(s: State, id: ActionId, evidence: Details, provenance: ArtifactProvenance): Result<State> {
    if !(id != "") then Err("evidence artifact action_id missing") else
    var _ :- ResumeDispatchedEvidence(s, id);
    var correlation :- EvidenceIdentity(s, id);
    :- Need(s.recoveries[id].evidenceDispatch.Some?
            && ProvenanceBinds(provenance, id, s.recoveries[id].evidenceDispatch.value, correlation),
            "evidence provenance mismatch");
    RecordAcquiredDiagnosticEvidence(s, id, evidence)
  }
}
