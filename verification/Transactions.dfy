/** durable_state.py: each `apply_*` works on a deep copy, so a refused write leaves nothing behind. */
module Transactions {
  import opened Prelude
  import opened Records
  import opened Diagnosis
  import opened DurableState
  import opened ResearchObject
  import opened Selector
  import opened Protocol

  method CopyAndBindReceipt(current: ResearchState, surface: Surface, id: ActionId, receipt: Receipt)
    returns (r: Result<ResearchState>)
    ensures r.Ok? <==> ApplyDispatchReceipt(current.View(), surface, id, receipt).Ok?
    ensures r.Ok? ==> fresh(r.value) && r.value.View() == ApplyDispatchReceipt(current.View(), surface, id, receipt).value
  {
    hide RecordActionDispatch, RecordEvidenceDispatch, RecordDiagnosticDispatch, RecordCorrectiveDispatch;
    var proposed := new ResearchState.Copy(current.View());
    var raised: Guard;
    match surface {
      case ActionSurface => raised := proposed.BindDispatch(id, receipt);
      case EvidenceSurface => raised := proposed.BindEvidence(id, receipt);
      case DiagnosticSurface => raised := proposed.BindDiagnostic(id, receipt);
      case CorrectiveSurface => raised := proposed.BindCorrective(id, receipt);
    }
    if raised.Fail? {
      return Err(raised.error);
    }
    if proposed.revision != current.revision + 1 {
      return Err("dispatch receipt must advance exactly one revision");
    }
    return Ok(proposed);
  }

  method CopyAndComplete(current: ResearchState, result: ExecutionResult) returns (r: Result<ResearchState>)
    ensures r.Ok? <==> ApplyActionCompletion(current.View(), result).Ok?
    ensures r.Ok? ==> fresh(r.value) && r.value.View() == ApplyActionCompletion(current.View(), result).value
  {
    hide CompleteQueuedAction;
    var proposed := new ResearchState.Copy(current.View());
    var raised := proposed.Complete(result.actionId, result);
    if raised.Fail? {
      return Err(raised.error);
    }
    return Ok(proposed);
  }

  method CopyAndReject(current: ResearchState, result: ExecutionResult) returns (r: Result<ResearchState>)
    ensures r.Ok? <==> ApplyActionRejection(current.View(), result).Ok?
    ensures r.Ok? ==> fresh(r.value) && r.value.View() == ApplyActionRejection(current.View(), result).value
  {
    hide HasProvenance, BoundRun, PutItem;
    if result.status != REJECTED {
      return Err("action rejection requires REJECTED execution evidence");
    }
    var id := result.actionId;
    if !(id in current.actionQueue && current.actionQueue[id].status == ActionLifecycle.Dispatched) {
      return Err("rejected action is not dispatched");
    }
    var item := current.actionQueue[id];
    var run := BoundRun(item);
    if run.Err? {
      return Err(run.error);
    }
    if item.dispatchIntent.None? {
      return Err("invalid dispatch intent schema");
    }
    if !HasProvenance(result, run.value, item.dispatchIntent.value.expectedHeadSha) {
      return Err("execution provenance mismatch");
    }
    var proposed := new ResearchState.Copy(current.View());
    proposed.StoreItem(id, item.(status := ActionLifecycle.Rejected, completionResult := Some(result)));
    return Ok(proposed);
  }

  /** Record, govern, then requeue, suspend for diagnosis or suspend for good. */
  method CopyAndFail(current: ResearchState, result: ExecutionResult) returns (r: Result<ResearchState>)
    ensures r.Ok? <==> ApplyActionFailure(current.View(), result).Ok?
    ensures r.Ok? ==> fresh(r.value) && r.value.View() == ApplyActionFailure(current.View(), result).value
  {
    hide FailureBound, RecordFailure, DisposeOfFailure, RepeatsFailure;
    if !FailureBound(current.View(), result) {
      return Err("failed result is not bound to a dispatched action");
    }
    var repeated := RepeatsFailure(current.View(), result);
    var proposed := new ResearchState.Copy(current.View());
    var raised := GovernFailure(proposed, result);
    if raised.Fail? {
      return Err(raised.error);
    }
    raised := Dispose(proposed, result, repeated);
    if raised.Fail? {
      return Err(raised.error);
    }
    return Ok(proposed);
  }

  method GovernFailure(proposed: ResearchState, result: ExecutionResult) returns (raised: Guard)
    modifies proposed
    ensures Did(old(proposed.View()), proposed.View(), raised, RecordFailure(old(proposed.View()), result))
  {
    hide RecordExecutionResult, FingerprintOf, EffectivelyRetryable;
    raised := proposed.RecordResult(result);
    if raised.Fail? {
      return;
    }
    var id := result.actionId;
    RecordedIsThere(old(proposed.View()), result);
    var stored := proposed.executionResults[id];
    proposed.executionResults := proposed.executionResults[id := stored.(
      details := stored.details.(failureFingerprint := Some(FingerprintOf(result)),
                                 governanceRetryable := Some(EffectivelyRetryable(result))))];
  }

  lemma RecordedIsThere(s: State, result: ExecutionResult)
    ensures var t := RecordExecutionResult(s, result); t.Ok? ==> result.actionId in t.value.executionResults
  {
  }

  /** On an error the copy may be half-changed; only success is specified. */
  method Dispose(proposed: ResearchState, result: ExecutionResult, repeated: bool) returns (raised: Guard)
    modifies proposed
    ensures var spec := DisposeOfFailure(old(proposed.View()), result, repeated);
      (raised.Pass? <==> spec.Ok?) && (spec.Ok? ==> proposed.View() == spec.value)
  {
    hide EffectivelyRetryable, SuspendForDiagnosis, MarkActionSuspended;
    var id := result.actionId;
    if repeated && EffectivelyRetryable(result) {
      raised := Diagnose(proposed, result);
    } else if id !in proposed.actionQueue {
      raised := Fail("failed action is not queued");
    } else if EffectivelyRetryable(result) {
      proposed.StoreItem(id, proposed.actionQueue[id].(status := Pending, dispatchIntent := None, dispatchReceipt := None));
      raised := Pass;
    } else {
      raised := proposed.Suspend(id);
    }
  }

  method Diagnose(proposed: ResearchState, result: ExecutionResult) returns (raised: Guard)
    modifies proposed
    ensures var spec := SuspendForDiagnosis(old(proposed.View()), result);
      (raised.Pass? <==> spec.Ok?) && (spec.Ok? ==> proposed.View() == spec.value)
  {
    hide OpenDiagnosticRecovery, AttachSourcePlan, MarkActionSuspended, FingerprintOf, PlanParses;
    var id := result.actionId;
    proposed.OpenRecovery(result, FingerprintOf(result));
    if !(id in proposed.actionQueue && PlanParses(proposed.actionQueue[id].plan)) {
      return Fail("invalid action plan");
    }
    raised := proposed.AttachPlan(id, proposed.actionQueue[id].plan);
    if raised.Pass? {
      raised := proposed.Suspend(id);
    }
  }

  method CopyAndCorrect(current: ResearchState, id: ActionId, result: ExecutionResult) returns (r: Result<ResearchState>)
    ensures r.Ok? <==> ApplyCorrectiveExecutionResult(current.View(), id, result).Ok?
    ensures r.Ok? ==> fresh(r.value) && r.value.View() == ApplyCorrectiveExecutionResult(current.View(), id, result).value
  {
    hide ResumeDispatchedCorrective, HasProvenance, ResolveFromExecutionReceipt, ReleaseCorrected, BlameProvider;
    var s := current.View();
    var receipt := ResumeDispatchedCorrective(s, id);
    if receipt.Err? {
      return Err(receipt.error);
    }
    var run := receipt.value.workflowRunId;
    ResumedIsOpen(s, id);
    var recovery := current.diagnosticRecoveries[id];
    if !(result.researchId == current.researchId && result.actionId == id) {
      return Err("corrective result identity mismatch");
    }
    if result.executor != GithubNative {
      return Err("corrective result came from wrong executor");
    }
    if !(run.Some? && run.value >= 1) {
      return Err("corrective dispatch has no authoritative workflow_run_id");
    }
    if !HasProvenance(result, run.value, recovery.correctiveDispatch.value.intent.expectedHeadSha) {
      return Err("execution provenance mismatch");
    }
    var resolution := ResolveFromExecutionReceipt(s, recovery, id, result);
    if resolution.Err? {
      return Err(resolution.error);
    }
    var proposed := new ResearchState.Copy(s);
    if resolution.value.Some? {
      var raised := Release(proposed, id, resolution.value.value);
      if raised.Fail? {
        return Err(raised.error);
      }
    } else {
      proposed.StoreRecovery(id, recovery.(
        failure := recovery.failure.(
          details := BlameProvider(recovery.failure.details, recovery.correctiveProvider.GetOr(""), result)),
        lastCorrectiveResult := Some(result),
        correctiveAction := None, correctiveProvider := None, correctiveDispatch := None));
    }
    return Ok(proposed);
  }

  method Release(proposed: ResearchState, id: ActionId, resolved: Recovery) returns (raised: Guard)
    modifies proposed
    ensures var spec := ReleaseCorrected(old(proposed.View()), id, resolved);
      (raised.Pass? <==> spec.Ok?) && (spec.Ok? ==> proposed.View() == spec.value)
  {
    hide ResumeResolvedAction;
    var before := proposed.revision;
    proposed.StoreRecovery(id, resolved.(correctiveDispatch := None));
    raised := proposed.ResumeResolved(id);
    if raised.Pass? {
      proposed.revision := before + 1;
    }
  }

  lemma ResumedIsOpen(s: State, id: ActionId)
    requires ResumeDispatchedCorrective(s, id).Ok?
    ensures id in s.recoveries && s.recoveries[id].correctiveDispatch.Some?
  {
    hide CorrectiveIdentity;
  }

  method CopyAndPatch(current: ResearchState, id: ActionId, patched: Recovery, provenance: Option<ArtifactProvenance>)
    returns (r: Result<ResearchState>)
    ensures r.Ok? <==> ApplyDiagnosticPatch(current.View(), id, patched, provenance).Ok?
    ensures r.Ok? ==> fresh(r.value) && r.value.View() == ApplyDiagnosticPatch(current.View(), id, patched, provenance).value
  {
    hide ResumeDispatchedDiagnostic, ProvenanceBinds;
    var s := current.View();
    if id !in s.recoveries {
      return Err("diagnostic patch action is not present in current state");
    }
    var before := s.recoveries[id];
    if before.status != Open {
      return Err("diagnostic patch target is not open");
    }
    if before.diagnosticDispatch.Some? {
      if ResumeDispatchedDiagnostic(s, id).Err? || DiagnosticIdentity(s, id).Err? {
        return Err("diagnostic artifact has no matching durable dispatch");
      }
      if !(provenance.Some?
           && ProvenanceBinds(provenance.value, id, before.diagnosticDispatch.value, DiagnosticIdentity(s, id).value)) {
        return Err("diagnostic provenance mismatch");
      }
    }
    var proposed := new ResearchState.Copy(s);
    proposed.StoreRecovery(id, patched.(diagnosticDispatch := None));
    return Ok(proposed);
  }

  method CopyAndRetire(current: ResearchState, issueNumber: int, workloadMode: string) returns (r: Result<ResearchState>)
    ensures r.Ok? <==> RetireQuiescentState(current.View(), issueNumber, workloadMode).Ok?
    ensures r.Ok? ==> fresh(r.value) && r.value.View() == RetireQuiescentState(current.View(), issueNumber, workloadMode).value
  {
    hide QuiescentExecutionSurfaces;
    if !(QuiescentExecutionSurfaces(current.View()) && current.retirement.None?) {
      return Err("state retirement requires a quiescent state");
    }
    if issueNumber < 1 {
      return Err("retirement issue_number must be positive");
    }
    if !(workloadMode == "observability_only" || workloadMode == "actionable") {
      return Err("unsupported workload_mode");
    }
    var proposed := new ResearchState.Copy(current.View());
    proposed.retirement := Some(StateRetirement(issueNumber, workloadMode, current.revision));
    proposed.revision := current.revision + 1;
    return Ok(proposed);
  }

  method CopyAndAcquire(current: ResearchState, id: ActionId, evidence: Details, provenance: ArtifactProvenance)
    returns (r: Result<ResearchState>)
    ensures r.Ok? <==> ApplyEvidencePatch(current.View(), id, evidence, provenance).Ok?
    ensures r.Ok? ==> fresh(r.value) && r.value.View() == ApplyEvidencePatch(current.View(), id, evidence, provenance).value
  {
    hide ResumeDispatchedEvidence, ProvenanceBinds, RecordAcquiredDiagnosticEvidence;
    var s := current.View();
    if id == "" {
      return Err("evidence artifact action_id missing");
    }
    if ResumeDispatchedEvidence(s, id).Err? || EvidenceIdentity(s, id).Err? {
      return Err("evidence artifact has no matching durable dispatch");
    }
    if !(s.recoveries[id].evidenceDispatch.Some?
         && ProvenanceBinds(provenance, id, s.recoveries[id].evidenceDispatch.value, EvidenceIdentity(s, id).value)) {
      return Err("evidence provenance mismatch");
    }
    var proposed := new ResearchState.Copy(s);
    var raised := proposed.RecordEvidence(id, evidence);
    if raised.Fail? {
      return Err(raised.error);
    }
    return Ok(proposed);
  }

  // ---------- runtime.py: the controller's own two writes ----------

  /** `_prepare_dispatch_intent`, once the work and its workflow are known. */
  method CopyAndRecordIntent(current: ResearchState, surface: Surface, id: ActionId, req: DispatchRequest)
    returns (r: Result<ResearchState>)
    ensures r.Ok? <==> RecordIntent(current.View(), surface, id, req).Ok?
    ensures r.Ok? ==> fresh(r.value) && r.value.View() == RecordIntent(current.View(), surface, id, req).value
  {
    hide RecordActionDispatchIntent, RecordEvidenceDispatchIntent;
    hide RecordDiagnosticDispatchIntent, RecordCorrectiveDispatchIntent;
    var proposed := new ResearchState.Copy(current.View());
    var raised: Guard;
    match surface {
      case ActionSurface => raised := proposed.RecordIntent(id, req);
      case EvidenceSurface => raised := proposed.RecordEvidenceIntent(id, req);
      case DiagnosticSurface => raised := proposed.RecordDiagnosticIntent(id, req);
      case CorrectiveSurface => raised := proposed.RecordCorrectiveIntent(id, req);
    }
    if raised.Fail? {
      return Err(raised.error);
    }
    return Ok(proposed);
  }

  /** Select the work, then retire an action intent whose source head has moved. */
  method CopyAndRetireStaleIntent(current: ResearchState, observedRef: string, observedHead: string)
    returns (r: Result<ResearchState>)
    ensures r.Ok? <==> RetireStaleIntent(current.View(), observedRef, observedHead).Ok?
    ensures r.Ok? ==> fresh(r.value) && r.value.View() == RetireStaleIntent(current.View(), observedRef, observedHead).value
  {
    hide Select;
    var selected := SelectControllerWork([], current.diagnosticRecoveries, current.actionQueue, map[]);
    if !(selected.Ok? && selected.value.Some? && selected.value.value.InFlightIntent?
         && selected.value.value.surface == ActionSurface) {
      return Err("no action intent in flight");
    }
    var id := selected.value.value.actionId;
    if id !in current.actionQueue || current.actionQueue[id].dispatchIntent.None? {
      return Err("action intent has no durable queue entry");
    }
    var item := current.actionQueue[id];
    var intent := item.dispatchIntent.value;
    if !(intent.expectedHeadSha.Some? && observedRef != "" && observedHead != ""
         && intent.ref == observedRef && intent.expectedHeadSha.value != observedHead) {
      return Err("action intent is not stale");
    }
    var proposed := new ResearchState.Copy(current.View());
    proposed.StoreItem(id, item.(
      intentHistory := item.intentHistory + [RetiredIntent(intent, observedHead)],
      status := ActionLifecycle.Rejected, dispatchIntent := None, dispatchReceipt := None));
    return Ok(proposed);
  }
}
