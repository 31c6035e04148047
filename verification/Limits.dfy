/** Where the controller's functions refuse or repeat, exactly. */
module Limits {
  import opened Prelude
  import opened Records
  import opened Diagnosis
  import opened DurableState
  import opened Selector
  import opened Protocol
  import opened Ingestion
  import opened Preservation
  import opened ResearchStages

  /** What `record_execution_result` accepts for the action of `result`. */
  predicate Recordable(s: State, result: ExecutionResult) {
    result.actionId in s.executionResults ==>
      var stored := s.executionResults[result.actionId];
      stored == result || (stored.status == FAILED && stored.retryable)
  }

  lemma RecordedExactly(s: State, result: ExecutionResult)
    ensures RecordExecutionResult(s, result).Ok? <==> result.researchId == s.researchId && Recordable(s, result)
    ensures RecordFailure(s, result).Ok? <==> RecordExecutionResult(s, result).Ok?
  {
    hide FingerprintOf, EffectivelyRetryable;
  }

  lemma DiagnosisOpens(g: State, result: ExecutionResult)
    requires result.actionId in g.queue && PlanParses(g.queue[result.actionId].plan)
    requires g.queue[result.actionId].plan.researchId == g.researchId
    requires g.queue[result.actionId].plan.idempotencyKey == result.actionId
    ensures SuspendForDiagnosis(g, result).Ok?
  {
    hide FingerprintOf, PlanParses;
  }

  lemma FlyingPlanIsOwn(s: State, id: ActionId)
    requires Local(s, id) && id in s.queue && s.queue[id].status == Dispatched
    ensures PlanParses(s.queue[id].plan) && s.queue[id].plan.researchId == s.researchId
    ensures s.queue[id].plan.idempotencyKey == id
  {
  }

  /** A failure bound to its dispatch is ingested exactly when it is of this workload and nothing settled
      is stored for its action: an identical replay and a reported-retryable failure may be followed. */
  lemma FailureIsIngestedExactly(s: State, result: ExecutionResult)
    requires Reachable(s) && FailureBound(s, result)
    ensures ApplyActionFailure(s, result).Ok? <==> result.researchId == s.researchId && Recordable(s, result)
  {
    hide Reachable, Inv, Local, HasProvenance, RecordFailure, SuspendForDiagnosis, RecordExecutionResult, Recordable;
    hide PlanParses, EffectivelyRetryable;
    ReachableInv(s);
    InvLocal(s, result.actionId);
    FlyingPlanIsOwn(s, result.actionId);
    RecordedExactly(s, result);
    if RecordFailure(s, result).Ok? {
      var g := RecordFailure(s, result).value;
      RecordFailureFacts(s, result);
      FramedWorkload(s, g, result.actionId);
      DiagnosisOpens(g, result);
    }
  }

  /** What an ingested failure does to its action: a first retryable failure is retried from scratch, a
      repeated one is suspended under an open recovery that holds the failed plan, any other ends it. */
  lemma FailureIsDisposedExactly(s: State, result: ExecutionResult)
    requires Reachable(s) && ApplyActionFailure(s, result).Ok?
    ensures var t := ApplyActionFailure(s, result).value; var id := result.actionId;
      && id in s.queue && id in t.queue && id in t.executionResults
      && t.queue[id].plan == s.queue[id].plan && t.queue[id].progress == s.queue[id].progress
      && (if EffectivelyRetryable(result) && !RepeatsFailure(s, result)
          then t.queue[id].status == Pending && t.queue[id].dispatchIntent.None? && t.queue[id].dispatchReceipt.None?
          else t.queue[id].status == Suspended)
      && (LiveAt(t, id) <==> EffectivelyRetryable(result) && RepeatsFailure(s, result))
      && (LiveAt(t, id) ==>
            t.recoveries[id].status == Open && t.recoveries[id].failure == result
            && t.recoveries[id].sourcePlan == Some(s.queue[id].plan))
      && (TerminalFailure(t, id) <==> !EffectivelyRetryable(result))
  {
    hide Reachable, Inv, HasProvenance, RecordFailure, FingerprintOf, RepeatsFailure, EffectivelyRetryable, PlanParses;
    ReachableInv(s);
    InvLocal(s, result.actionId);
    RecordFailureFacts(s, result);
    NotLiveWhileDispatched(s, result.actionId);
    hide Local, DisposeOfFailure;
    DisposalIsExact(s, RecordFailure(s, result).value, result);
  }

  lemma NotLiveWhileDispatched(s: State, id: ActionId)
    requires Local(s, id) && id in s.queue && s.queue[id].status == Dispatched
    ensures !LiveAt(s, id)
  {
  }

  lemma DisposalIsExact(s: State, g: State, result: ExecutionResult)
    requires result.actionId in s.queue && !LiveAt(s, result.actionId)
    requires g.queue == s.queue && g.recoveries == s.recoveries && result.actionId in g.executionResults
    requires g.executionResults[result.actionId].status == FAILED
    requires g.executionResults[result.actionId].details.governanceRetryable == Some(EffectivelyRetryable(result))
    requires DisposeOfFailure(g, result, RepeatsFailure(s, result)).Ok?
    ensures var t := DisposeOfFailure(g, result, RepeatsFailure(s, result)).value; var id := result.actionId;
      && id in t.queue && id in t.executionResults
      && t.queue[id].plan == s.queue[id].plan && t.queue[id].progress == s.queue[id].progress
      && (if EffectivelyRetryable(result) && !RepeatsFailure(s, result)
          then t.queue[id].status == Pending && t.queue[id].dispatchIntent.None? && t.queue[id].dispatchReceipt.None?
          else t.queue[id].status == Suspended)
      && (LiveAt(t, id) <==> EffectivelyRetryable(result) && RepeatsFailure(s, result))
      && (LiveAt(t, id) ==>
            t.recoveries[id].status == Open && t.recoveries[id].failure == result
            && t.recoveries[id].sourcePlan == Some(s.queue[id].plan))
      && (TerminalFailure(t, id) <==> !EffectivelyRetryable(result))
  {
    hide RepeatsFailure, EffectivelyRetryable, FingerprintOf, PlanParses;
  }

  /** Acquired evidence reopens the recovery: it frees the evidence surface, overlays the failure's details
      field by field, and leaves every other record alone. */
  lemma EvidenceReopens(s: State, id: ActionId, evidence: Details, p: ArtifactProvenance)
    requires ApplyEvidencePatch(s, id, evidence, p).Ok?
    ensures var t := ApplyEvidencePatch(s, id, evidence, p).value;
      && id in s.recoveries && id in t.recoveries && Framed(s, t, id) && t.queue == s.queue
      && t.recoveries[id].status == Open && t.recoveries[id].evidenceDispatch.None?
      && t.recoveries[id].acquiredEvidence == Some(evidence)
      && var before, after := s.recoveries[id].failure.details, t.recoveries[id].failure.details;
         && (evidence.availableProviders.Some? ==> after.availableProviders == evidence.availableProviders)
         && (evidence.availableProviders.None? ==> after.availableProviders == before.availableProviders)
         && (evidence.provider.None? && evidence.providerFailures.None? && evidence.availableProviders.Some? ==>
               EligibleProviders(after)
               == (set name | name in evidence.availableProviders.value && name != "") - FailedProviders(before))
  {
    hide ResumeDispatchedEvidence, EvidenceIdentity, ProvenanceBinds;
  }

  // ---------- a requeued failure that blocks its own retry ----------

  /** A stored result that is not reported retryable, with its governance fields filled in from itself. */
  predicate SettledFailure(r: ExecutionResult) {
    && !(r.status == FAILED && r.retryable)
    && r.details.failureFingerprint == Some(FingerprintOf(r))
    && r.details.governanceRetryable == Some(EffectivelyRetryable(r))
  }

  predicate Stored(s: State, id: ActionId, r: ExecutionResult) {
    id in s.executionResults && s.executionResults[id] == r
  }

  lemma RefusedOnceSettled(s: State, r: ExecutionResult, second: ExecutionResult)
    requires Stored(s, second.actionId, r) && SettledFailure(r) && second != r
    ensures ApplyActionFailure(s, second).Err?
  {
    hide FailureBound, SettledFailure, FingerprintOf;
    assert !(r.status == FAILED && r.retryable) by {
      SettledIsNotRetryable(r);
    }
    RecordedExactly(s, second);
  }

  lemma SettledIsNotRetryable(r: ExecutionResult)
    requires SettledFailure(r)
    ensures !(r.status == FAILED && r.retryable)
  {
  }

  lemma FailureKeepsSettled(s: State, result: ExecutionResult, id: ActionId, r: ExecutionResult)
    requires Stored(s, id, r) && SettledFailure(r) && ApplyActionFailure(s, result).Ok?
    ensures Stored(ApplyActionFailure(s, result).value, id, r)
  {
    hide FailureBound, DisposeOfFailure, FingerprintOf, EffectivelyRetryable;
    if result.actionId == id && result != r {
      RefusedOnceSettled(s, r, result);
    }
    var g := RecordFailure(s, result).value;
    assert Stored(g, id, r);
    hide RecordFailure, SettledFailure;
    DisposalKeepsResults(g, result, RepeatsFailure(s, result));
  }

  lemma DisposalKeepsResults(g: State, result: ExecutionResult, repeated: bool)
    requires DisposeOfFailure(g, result, repeated).Ok?
    ensures DisposeOfFailure(g, result, repeated).value.executionResults == g.executionResults
  {
    hide EffectivelyRetryable, FingerprintOf, PlanParses;
  }

  lemma IngestKeepsSettled(
    s: State, surface: Surface, runId: int, artifact: Artifact, gateway: GatewayTerminal, id: ActionId, r: ExecutionResult)
    requires Stored(s, id, r) && SettledFailure(r) && Ingest(s, surface, runId, artifact, gateway).Ok?
    ensures Stored(Ingest(s, surface, runId, artifact, gateway).value, id, r)
  {
    hide HonestDiagnosis, IngestActionArtifact, ApplyCorrectiveExecutionResult, ApplyEvidencePatch, ApplyDiagnosticPatch;
    hide SettledFailure, ResultParses;
    var action := gateway.actionId;
    match surface
    case ActionSurface => ActionArtifactKeepsSettled(s, action, runId, artifact, gateway, id, r);
    case CorrectiveSurface => CorrectiveKeepsResults(s, action, artifact.result);
    case EvidenceSurface => EvidenceKeepsResults(s, action, artifact.evidence, artifact.evidenceProvenance);
    case DiagnosticSurface => DiagnosticKeepsResults(s, action, artifact.recovery, Some(artifact.diagnosticProvenance));
  }

  lemma ActionArtifactKeepsSettled(
    s: State, action: ActionId, runId: int, artifact: Artifact, gateway: GatewayTerminal, id: ActionId, r: ExecutionResult)
    requires Stored(s, id, r) && SettledFailure(r) && IngestActionArtifact(s, action, runId, artifact, gateway).Ok?
    ensures var p := IngestActionArtifact(s, action, runId, artifact, gateway).value; p.Some? ==> Stored(p.value, id, r)
  {
    hide ApplyActionFailure, ApplyActionCompletion, ApplyActionRejection, RecordNativeDispatchEvidenceFailure;
    hide SettledFailure, ResultParses;
    var p := IngestActionArtifact(s, action, runId, artifact, gateway).value;
    if p.Some? {
      if artifact.ResultArtifact? && !IdentityMismatch(gateway) {
        match artifact.result.status
        case FAILED => FailureKeepsSettled(s, artifact.result, id, r);
        case REJECTED => RejectionKeepsResults(s, artifact.result);
        case _ => CompletionKeepsResults(s, artifact.result);
      } else {
        EvidenceFailureKeepsResults(s, p.value, action, runId, Conclusion(gateway),
          if IdentityMismatch(gateway) then "bound_executor_identity_mismatch"
          else if artifact.missing then "missing_execution_result_artifact" else "invalid_execution_result_json");
      }
    }
  }

  lemma StepKeepsSettled(s: State, step: Step, id: ActionId, r: ExecutionResult)
    requires Stored(s, id, r) && SettledFailure(r)
    ensures Stored(Next(s, step), id, r)
  {
    hide Ingest, ApplyDispatchReceipt, RecordIntent, Selected, ToStart, SettledFailure;
    if Perform(s, step).Ok? {
      match step
      case IngestStep(surface, runId, artifact, gateway) => IngestKeepsSettled(s, surface, runId, artifact, gateway, id, r);
      case PrepareStep(ref, at, head) =>
        var (surface, action) := ToStart(s).value;
        var executor := if surface == ActionSurface then s.queue[action].plan.executor else GithubNative;
        IntentKeepsResults(s, surface, action, DispatchRequest(WorkflowFor(surface, executor).value, ref, at, head));
      case ReceiptStep(surface, action, receipt) => ReceiptKeepsResults(s, surface, action, receipt);
      case _ =>
    }
  }

  lemma {:induction false} RunKeepsSettled(s: State, steps: seq<Step>, id: ActionId, r: ExecutionResult)
    requires Stored(s, id, r) && SettledFailure(r)
    ensures Stored(Run(s, steps), id, r)
    decreases |steps|
  {
    hide Next, SettledFailure;
    if steps != [] {
      StepKeepsSettled(s, steps[0], id, r);
      RunKeepsSettled(Next(s, steps[0]), steps[1..], id, r);
    }
  }

  lemma RequeuedIsSettled(s: State, first: ExecutionResult)
    requires first.researchId == s.researchId && first.actionId !in s.executionResults
    requires !first.retryable && EffectivelyRetryable(first) && ApplyActionFailure(s, first).Ok?
    ensures var t := ApplyActionFailure(s, first).value; var id := first.actionId;
      && id in t.queue && t.queue[id].status == Pending && id in t.executionResults
      && SettledFailure(t.executionResults[id])
      && t.executionResults[id].details.provenance == first.details.provenance
  {
    hide HasProvenance, FailureBound, SuspendForDiagnosis;
  }

  /** A provider-infrastructure failure that does not report itself retryable is requeued all the same, and
      after every further run of the protocol each other failure of that action, in particular that of any
      later attempt, is refused. */
  lemma RequeuedInfrastructureFailureBlocks(s: State, first: ExecutionResult, steps: seq<Step>, second: ExecutionResult)
    requires first.researchId == s.researchId && first.actionId !in s.executionResults
    requires !first.retryable && EffectivelyRetryable(first) && ApplyActionFailure(s, first).Ok?
    requires second.actionId == first.actionId && second.details.provenance != first.details.provenance
    ensures var t := ApplyActionFailure(s, first).value;
      && first.actionId in t.queue && t.queue[first.actionId].status == Pending
      && ApplyActionFailure(Run(t, steps), second).Err?
  {
    hide Run, ApplyActionFailure, SettledFailure, EffectivelyRetryable;
    RequeuedIsSettled(s, first);
    var t := ApplyActionFailure(s, first).value;
    RunKeepsSettled(t, steps, first.actionId, t.executionResults[first.actionId]);
    RefusedOnceSettled(Run(t, steps), t.executionResults[first.actionId], second);
  }
}
