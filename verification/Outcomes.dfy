/** What the durable writes decide, said on the records and artifacts themselves. */
module Outcomes {
  import opened Prelude
  import opened Records
  import opened Diagnosis
  import opened DurableState
  import opened Ingestion
  import opened Selector
  import opened Protocol
  import opened Preservation
  import opened ControllerTheorems
  import opened AtMostOnce
  import opened ResearchStages
  import opened Limits

  // ---------- the same failure again ----------

  /** Two failures report the same executor, observation, provider, error type and provider status. */
  predicate SameFailure(a: ExecutionResult, b: ExecutionResult) {
    && a.executor == b.executor && a.observation == b.observation
    && a.details.provider == b.details.provider && a.details.errorType == b.details.errorType
    && a.details.providerStatus == b.details.providerStatus
  }

  /** Reported retryable, or an execution-kernel failure that names its provider. */
  predicate MayBeRetried(r: ExecutionResult) {
    || r.retryable
    || (r.details.errorType == Some("ExecutionKernelError") && r.details.provider.Some? && r.details.provider.value != "")
  }

  /** Every stored result is a failure whose fingerprint and governance verdict are its own. */
  ghost predicate ResultsGoverned(s: State) {
    forall id :: id in s.executionResults ==>
      && s.executionResults[id].status == FAILED
      && s.executionResults[id].details.failureFingerprint == Some(FingerprintOf(s.executionResults[id]))
  }

  lemma FingerprintsAgreeExactly(a: ExecutionResult, b: ExecutionResult)
    ensures FingerprintOf(a) == FingerprintOf(b) <==> SameFailure(a, b)
  {
  }

  lemma RecordingGoverns(s: State, result: ExecutionResult)
    requires ResultsGoverned(s) && result.status == FAILED && RecordFailure(s, result).Ok?
    ensures ResultsGoverned(RecordFailure(s, result).value)
  {
    RecordFailureFacts(s, result);
    RecordedIsGoverned(s, result);
    hide RecordFailure, FingerprintOf, EffectivelyRetryable;
  }

  lemma RecordedIsGoverned(s: State, result: ExecutionResult)
    requires RecordFailure(s, result).Ok?
    ensures var t := RecordFailure(s, result).value; var id := result.actionId;
      id in t.executionResults
      && t.executionResults[id].details.failureFingerprint == Some(FingerprintOf(t.executionResults[id]))
  {
    hide EffectivelyRetryable;
  }

  lemma FailureGoverns(s: State, result: ExecutionResult)
    requires ResultsGoverned(s) && ApplyActionFailure(s, result).Ok?
    ensures ResultsGoverned(ApplyActionFailure(s, result).value)
  {
    RecordingGoverns(s, result);
    hide RecordFailure, DisposeOfFailure, ResultsGoverned, RepeatsFailure;
    DisposalKeepsResults(RecordFailure(s, result).value, result, RepeatsFailure(s, result));
    SameResultsGoverned(RecordFailure(s, result).value, ApplyActionFailure(s, result).value);
  }

  lemma SameResultsGoverned(s: State, t: State)
    requires ResultsGoverned(s) && t.executionResults == s.executionResults
    ensures ResultsGoverned(t)
  {
  }

  lemma ActionArtifactGoverns(s: State, action: ActionId, runId: int, artifact: Artifact, gateway: GatewayTerminal)
    requires ResultsGoverned(s) && IngestActionArtifact(s, action, runId, artifact, gateway).Ok?
    ensures var p := IngestActionArtifact(s, action, runId, artifact, gateway).value; p.Some? ==> ResultsGoverned(p.value)
  {
    hide ApplyActionFailure, ApplyActionCompletion, ApplyActionRejection, RecordNativeDispatchEvidenceFailure;
    hide ResultsGoverned, ResultParses;
    var p := IngestActionArtifact(s, action, runId, artifact, gateway).value;
    if p.Some? {
      if artifact.ResultArtifact? && !IdentityMismatch(gateway) {
        match artifact.result.status
        case FAILED => FailureGoverns(s, artifact.result);
        case REJECTED => RejectionKeepsResults(s, artifact.result); SameResultsGoverned(s, p.value);
        case _ => CompletionKeepsResults(s, artifact.result); SameResultsGoverned(s, p.value);
      } else {
        EvidenceFailureKeepsResults(s, p.value, action, runId, Conclusion(gateway),
          if IdentityMismatch(gateway) then "bound_executor_identity_mismatch"
          else if artifact.missing then "missing_execution_result_artifact" else "invalid_execution_result_json");
        SameResultsGoverned(s, p.value);
      }
    }
  }

  lemma IngestGoverns(s: State, surface: Surface, runId: int, artifact: Artifact, gateway: GatewayTerminal)
    requires ResultsGoverned(s) && Ingest(s, surface, runId, artifact, gateway).Ok?
    ensures ResultsGoverned(Ingest(s, surface, runId, artifact, gateway).value)
  {
    hide HonestDiagnosis, IngestActionArtifact, ApplyCorrectiveExecutionResult, ApplyEvidencePatch, ApplyDiagnosticPatch;
    hide ResultsGoverned, ResultParses;
    var id := gateway.actionId;
    match surface
    case ActionSurface => ActionArtifactGoverns(s, id, runId, artifact, gateway);
    case CorrectiveSurface =>
      CorrectiveKeepsResults(s, id, artifact.result);
      SameResultsGoverned(s, Ingest(s, surface, runId, artifact, gateway).value);
    case EvidenceSurface =>
      EvidenceKeepsResults(s, id, artifact.evidence, artifact.evidenceProvenance);
      SameResultsGoverned(s, Ingest(s, surface, runId, artifact, gateway).value);
    case DiagnosticSurface =>
      DiagnosticKeepsResults(s, id, artifact.recovery, Some(artifact.diagnosticProvenance));
      SameResultsGoverned(s, Ingest(s, surface, runId, artifact, gateway).value);
  }

  lemma StepGoverns(s: State, step: Step)
    requires ResultsGoverned(s)
    ensures ResultsGoverned(Next(s, step))
  {
    hide Ingest, ApplyDispatchReceipt, RecordIntent, Selected, ToStart, ResultsGoverned;
    if Perform(s, step).Ok? {
      match step
      case IngestStep(surface, runId, artifact, gateway) => IngestGoverns(s, surface, runId, artifact, gateway);
      case PrepareStep(ref, at, head) =>
        var (surface, action) := ToStart(s).value;
        var executor := if surface == ActionSurface then s.queue[action].plan.executor else GithubNative;
        IntentKeepsResults(s, surface, action, DispatchRequest(WorkflowFor(surface, executor).value, ref, at, head));
        SameResultsGoverned(s, Next(s, step));
      case ReceiptStep(surface, action, receipt) =>
        ReceiptKeepsResults(s, surface, action, receipt);
        SameResultsGoverned(s, Next(s, step));
      case _ => SameResultsGoverned(s, Next(s, step));
    }
  }

  lemma {:induction false} RunGoverns(s: State, steps: seq<Step>)
    requires ResultsGoverned(s)
    ensures ResultsGoverned(Run(s, steps))
    decreases |steps|
  {
    hide Next, ResultsGoverned;
    if steps != [] {
      StepGoverns(s, steps[0]);
      RunGoverns(Next(s, steps[0]), steps[1..]);
    }
  }

  lemma ReachableGoverned(s: State)
    requires Reachable(s)
    ensures ResultsGoverned(s)
  {
    hide Run;
    var start: State, steps: seq<Step> :| IsFresh(start) && Run(start, steps) == s;
    RunGoverns(start, steps);
  }

  /** In every reachable state: an accepted failure that may be retried puts its action under a live recovery
      exactly when the failure stored for it is the same in executor, observation, provider, error type and
      provider status; otherwise the action is pending again.  A failure that may not be retried suspends it
      for good. */
  lemma RepeatedFailureIsDiagnosedExactly(s: State, result: ExecutionResult)
    requires Reachable(s) && ApplyActionFailure(s, result).Ok?
    ensures var t := ApplyActionFailure(s, result).value; var id := result.actionId;
      var repeated := id in s.executionResults && SameFailure(s.executionResults[id], result);
      && id in s.queue && id in t.queue && id in t.executionResults
      && (LiveAt(t, id) <==> MayBeRetried(result) && repeated)
      && (LiveAt(t, id) ==> t.recoveries[id].failure == result && t.recoveries[id].sourcePlan == Some(s.queue[id].plan))
      && (t.queue[id].status == Pending <==> MayBeRetried(result) && !repeated)
      && (t.queue[id].status != Pending ==> t.queue[id].status == Suspended)
      && (t.executionResults[id].details.governanceRetryable == Some(MayBeRetried(result)))
  {
    hide Reachable, ApplyActionFailure, ResultsGoverned;
    FailureIsDisposedExactly(s, result);
    ReachableGoverned(s);
    assert EffectivelyRetryable(result) == MayBeRetried(result);
    RepeatsExactly(s, result);
    GovernanceIsStored(s, result);
  }

  lemma RepeatsExactly(s: State, result: ExecutionResult)
    requires ResultsGoverned(s)
    ensures RepeatsFailure(s, result) <==>
      result.actionId in s.executionResults && SameFailure(s.executionResults[result.actionId], result)
  {
    if result.actionId in s.executionResults {
      FingerprintsAgreeExactly(s.executionResults[result.actionId], result);
    }
  }

  lemma GovernanceIsStored(s: State, result: ExecutionResult)
    requires ApplyActionFailure(s, result).Ok?
    ensures var t := ApplyActionFailure(s, result).value;
      result.actionId in t.executionResults
      && t.executionResults[result.actionId].details.governanceRetryable == Some(EffectivelyRetryable(result))
  {
    hide RecordFailure, DisposeOfFailure, RepeatsFailure, EffectivelyRetryable;
    RecordFailureFacts(s, result);
    DisposalKeepsResults(RecordFailure(s, result).value, result, RepeatsFailure(s, result));
  }

  // ---------- which corrective result verifies the correction ----------

  /** PASS with a readback of the state after, or NOOP with a readback of the state before. */
  predicate VerifiesCorrection(result: ExecutionResult) {
    (result.status == PASS && result.details.after.Some?) || (result.status == NOOP && result.details.before.Some?)
  }

  /** The recovery names the provider as failed, and keeps every failure it knew. */
  predicate ProviderBlamed(before: Recovery, after: Recovery, result: ExecutionResult) {
    && before.correctiveProvider.Some? && after.failure.details.providerFailures.Some?
    && (exists f :: f in after.failure.details.providerFailures.value && f.provider == before.correctiveProvider.value)
    && (before.failure.details.providerFailures.Some? ==>
          before.failure.details.providerFailures.value <= after.failure.details.providerFailures.value)
    && after.correctiveAction.None? && after.correctiveProvider.None? && after.correctiveDispatch.None?
    && after.lastCorrectiveResult == Some(result)
  }

  lemma BlameNames(d: Details, provider: string, result: ExecutionResult)
    requires provider != ""
    ensures var after := BlameProvider(d, provider, result).providerFailures;
      && after.Some? && (exists f :: f in after.value && f.provider == provider)
      && (d.providerFailures.Some? ==> d.providerFailures.value <= after.value)
  {
    var before := d.providerFailures.GetOr([]);
    var after := BlameProvider(d, provider, result).providerFailures.value;
    if !(exists f :: f in before && f.provider == provider) {
      assert after[|before|].provider == provider;
    }
  }

  lemma ResolvesExactly(s: State, r: Recovery, id: ActionId, result: ExecutionResult)
    requires ResolveFromExecutionReceipt(s, r, id, result).Ok?
    ensures ResolveFromExecutionReceipt(s, r, id, result).value.Some? <==> VerifiesCorrection(result)
  {
  }

  lemma ReleasesExactly(s: State, id: ActionId, result: ExecutionResult)
    requires ApplyCorrectiveExecutionResult(s, id, result).Ok?
    ensures var t := ApplyCorrectiveExecutionResult(s, id, result).value;
      id in t.recoveries && (t.recoveries[id].status == Resolved <==> VerifiesCorrection(result))
  {
    hide HasProvenance, ResumeDispatchedCorrective, ResolveFromExecutionReceipt, BlameProvider, VerifiesCorrection;
    ResumeCorrectiveFacts(s, id);
    ResolutionFacts(s, s.recoveries[id], id, result);
    if ResolveFromExecutionReceipt(s, s.recoveries[id], id, result).Ok? {
      ResolvesExactly(s, s.recoveries[id], id, result);
    }
  }

  /** In every reachable state: an accepted corrective result releases the action exactly when it is a PASS
      with a readback of the state after or a NOOP with one of the state before.  Otherwise the action stays
      suspended under its open recovery, and the provider that was tried is blamed. */
  lemma CorrectionIsDecidedExactly(s: State, id: ActionId, result: ExecutionResult)
    requires Reachable(s) && ApplyCorrectiveExecutionResult(s, id, result).Ok?
    ensures var t := ApplyCorrectiveExecutionResult(s, id, result).value;
      && id in s.recoveries && id in t.recoveries && id in s.queue && id in t.queue && t.queue[id].plan == s.queue[id].plan
      && (if VerifiesCorrection(result)
          then t.recoveries[id].status == Resolved && t.queue[id].status == Pending
          else t.recoveries[id].status == Open && t.queue[id].status == Suspended
               && ProviderBlamed(s.recoveries[id], t.recoveries[id], result))
  {
    hide Reachable, Inv, ApplyCorrectiveExecutionResult, Framed, VerifiesCorrection, BlameProvider;
    ReachableInv(s);
    InvLocal(s, id);
    ReleasesExactly(s, id, result);
    CorrectiveCases(s, id, result);
    FliesPlanned(s, id);
    if !VerifiesCorrection(result) {
      BlameNames(s.recoveries[id].failure.details, s.recoveries[id].correctiveProvider.value, result);
    }
  }

  lemma FliesPlanned(s: State, id: ActionId)
    requires Local(s, id) && id in s.recoveries && s.recoveries[id].status == Open && s.recoveries[id].correctiveDispatch.Some?
    ensures id in s.queue && s.queue[id].status == Suspended
    ensures s.recoveries[id].correctiveProvider.Some? && s.recoveries[id].correctiveProvider.value != ""
  {
  }

  // ---------- what an intent and a receipt are ----------

  /** The intent saved for a record in flight. */
  function IntentOf(s: State, f: Flight): Option<DispatchIntent>
    requires Flies(s, f)
  {
    match f.surface
    case ActionSurface => s.queue[f.id].dispatchIntent
    case EvidenceSurface => Some(s.recoveries[f.id].evidenceDispatch.value.intent)
    case DiagnosticSurface => Some(s.recoveries[f.id].diagnosticDispatch.value.intent)
    case CorrectiveSurface => Some(s.recoveries[f.id].correctiveDispatch.value.intent)
  }

  /** The workflow that runs the work of a record. */
  predicate RunsIn(s: State, f: Flight, workflow: string) {
    match f.surface
    case ActionSurface =>
      (f.id in s.queue &&
       match s.queue[f.id].plan.executor
       case GithubNative => workflow == "samuel-native-github.yml"
       case RepositoryMutation => workflow == "samuel-repository-mutation.yml"
       case GithubActions => false)
    case EvidenceSurface => workflow == "samuel-evidence-acquisition.yml"
    case DiagnosticSurface => workflow == "samuel-diagnostic-recovery.yml"
    case CorrectiveSurface => workflow == "samuel-native-github.yml"
  }

  /** `t` is `s` with an intent saved for `f`, one revision later. */
  ghost predicate Saved(s: State, t: State, f: Flight, ref: string, at: string, head: string) {
    && t.revision == s.revision + 1 && Flies(t, f) && StageOf(t, f) == IntentSaved && IntentOf(t, f).Some?
    && var intent := IntentOf(t, f).value;
       && intent == DispatchIntent(f.id, s.researchId, intent.workflow, ref, at, s.revision + 1, Some(head))
       && RunsIn(s, f, intent.workflow)
  }

  lemma ActionIntentIsExact(s: State, id: ActionId, workflow: string, ref: string, at: string, head: string)
    requires id in s.queue && s.queue[id].status == Pending && s.queue[id].plan.idempotencyKey == id
    requires s.queue[id].plan.researchId == s.researchId && workflow != "" && ref != ""
    requires RunsIn(s, Flight(ActionSurface, id), workflow)
    ensures var r := RecordActionDispatchIntent(s, id, DispatchRequest(workflow, ref, at, head));
      && (r.Ok? <==> PlanParses(s.queue[id].plan) && id != "" && s.researchId != "" && at != "" && IsSha40(head))
      && (r.Ok? ==> Saved(s, r.value, Flight(ActionSurface, id), ref, at, head))
  {
    hide PlanParses, IsSha40;
  }

  lemma IntentIsMadeExactly(s: State, id: ActionId, c: Correlation, req: DispatchRequest)
    ensures var d := SaveIntent(s, id, None, c, req);
      && (d.Ok? <==> id != "" && s.researchId != "" && req.workflow != "" && req.ref != "" && req.requestedAt != "" && IsSha40(req.headSha))
      && (d.Ok? ==> d.value == Dispatch(IntentSaved, c, DispatchIntent(
            id, s.researchId, req.workflow, req.ref, req.requestedAt, s.revision + 1, Some(req.headSha)), None))
  {
    hide IsSha40;
  }

  lemma EvidenceIntentIsExact(s: State, id: ActionId, ref: string, at: string, head: string)
    requires id in s.recoveries && s.recoveries[id].status == NeedsEvidence && s.recoveries[id].evidenceDispatch.None?
    requires s.recoveries[id].evidenceRequest.Some? && ref != ""
    ensures var r := RecordEvidenceDispatchIntent(s, id, DispatchRequest("samuel-evidence-acquisition.yml", ref, at, head));
      && (r.Ok? <==> id != "" && s.researchId != "" && at != "" && IsSha40(head))
      && (r.Ok? ==> Saved(s, r.value, Flight(EvidenceSurface, id), ref, at, head))
  {
    IntentIsMadeExactly(s, id, EvidenceIdentity(s, id).value, DispatchRequest("samuel-evidence-acquisition.yml", ref, at, head));
    hide SaveIntent, IsSha40;
  }

  lemma DiagnosticIntentIsExact(s: State, id: ActionId, ref: string, at: string, head: string)
    requires id in s.recoveries && s.recoveries[id].status == Open && s.recoveries[id].diagnosticDispatch.None? && ref != ""
    ensures var r := RecordDiagnosticDispatchIntent(s, id, DispatchRequest("samuel-diagnostic-recovery.yml", ref, at, head));
      && (r.Ok? <==> id != "" && s.researchId != "" && at != "" && IsSha40(head))
      && (r.Ok? ==> Saved(s, r.value, Flight(DiagnosticSurface, id), ref, at, head))
  {
    IntentIsMadeExactly(s, id, DiagnosticIdentity(s, id).value, DispatchRequest("samuel-diagnostic-recovery.yml", ref, at, head));
    hide SaveIntent, IsSha40;
  }

  lemma CorrectiveIntentIs(s: State, id: ActionId, req: DispatchRequest, correlation: Correlation)
    requires id in s.recoveries && s.recoveries[id].status == Open && !Truthy(s.recoveries[id].resolutionEvidence)
    requires s.recoveries[id].correctiveDispatch.None? && CorrectiveIdentity(s, id) == Ok(correlation)
    ensures var d := SaveIntent(s, id, None, correlation, req); var r := RecordCorrectiveDispatchIntent(s, id, req);
      && (r.Ok? <==> d.Ok?)
      && (d.Ok? ==> r == Ok(PutRecovery(s, id, s.recoveries[id].(correctiveDispatch := Some(d.value)))))
  {
    hide SaveIntent, CorrectiveIdentity;
  }

  lemma CorrectiveIntentIsExact(s: State, id: ActionId, ref: string, at: string, head: string)
    requires id in s.recoveries && CorrectiveReady(s.recoveries[id]) && CorrectiveIdentity(s, id).Ok? && ref != ""
    ensures var r := RecordCorrectiveDispatchIntent(s, id, DispatchRequest("samuel-native-github.yml", ref, at, head));
      && (r.Ok? <==> id != "" && s.researchId != "" && at != "" && IsSha40(head))
      && (r.Ok? ==> Saved(s, r.value, Flight(CorrectiveSurface, id), ref, at, head))
  {
    var req := DispatchRequest("samuel-native-github.yml", ref, at, head);
    IntentIsMadeExactly(s, id, CorrectiveIdentity(s, id).value, req);
    CorrectiveIntentIs(s, id, req, CorrectiveIdentity(s, id).value);
    hide SaveIntent, IsSha40, CorrectiveIdentity, RecordCorrectiveDispatchIntent, Truthy;
  }

  /** In every reachable state the scheduler's choice gets its intent exactly when the executor's source is
      named in full and, for an action, its stored plan parses and its executor is supported.  The intent then
      names this action, workload, workflow, source and revision, and is the only change. */
  lemma IntentIsPreparedExactly(s: State, ref: string, at: string, head: string)
    requires Reachable(s) && ToStart(s).Some?
    ensures var (surface, id) := ToStart(s).value; var r := Prepare(s, ref, at, head);
      && (r.Ok? <==>
            && ref != "" && at != "" && IsSha40(head) && s.researchId != "" && id != ""
            && (surface == ActionSurface ==>
                  id in s.queue && PlanParses(s.queue[id].plan) && s.queue[id].plan.executor != GithubActions))
      && (r.Ok? ==> Saved(s, r.value, Flight(surface, id), ref, at, head))
  {
    hide Reachable, Inv, Idle, ToStart, PlanParses, IsSha40, Saved;
    hide RecordActionDispatchIntent, RecordEvidenceDispatchIntent, RecordDiagnosticDispatchIntent, RecordCorrectiveDispatchIntent;
    ReachableInv(s);
    StartFacts(s);
    var (surface, id) := ToStart(s).value;
    InvLocal(s, id);
    ShaIsNotEmpty(head);
    if ref != "" {
      match surface
      case ActionSurface =>
        if s.queue[id].plan.executor != GithubActions {
          ActionIntentIsExact(s, id, WorkflowFor(surface, s.queue[id].plan.executor).value, ref, at, head);
        }
      case EvidenceSurface =>
        WaitingHasRequest(s, id);
        EvidenceIntentIsExact(s, id, ref, at, head);
      case DiagnosticSurface => DiagnosticIntentIsExact(s, id, ref, at, head);
      case CorrectiveSurface =>
        PlannedHasIdentity(s, id);
        CorrectiveIntentIsExact(s, id, ref, at, head);
    }
  }

  lemma ShaIsNotEmpty(head: string)
    ensures IsSha40(head) ==> head != ""
  {
  }

  lemma WaitingHasRequest(s: State, id: ActionId)
    requires Local(s, id) && id in s.recoveries && s.recoveries[id].status == NeedsEvidence
    ensures s.recoveries[id].evidenceRequest.Some?
  {
  }

  lemma PlannedHasIdentity(s: State, id: ActionId)
    requires Local(s, id) && id in s.recoveries && CorrectiveReady(s.recoveries[id])
    ensures CorrectiveIdentity(s, id).Ok?
  {
    CorrectiveIdentityIs(s, id);
  }

  // ---------- receipts ----------

  /** The identity saved with a record in flight. */
  function SavedIdentity(s: State, f: Flight): Correlation
    requires Flies(s, f)
  {
    match f.surface
    case ActionSurface => ActionCorrelation(f.id)
    case EvidenceSurface => s.recoveries[f.id].evidenceDispatch.value.correlationId
    case DiagnosticSurface => s.recoveries[f.id].diagnosticDispatch.value.correlationId
    case CorrectiveSurface => s.recoveries[f.id].correctiveDispatch.value.correlationId
  }

  function ReceiptOf(s: State, f: Flight): Option<Receipt>
    requires Flies(s, f)
  {
    match f.surface
    case ActionSurface => s.queue[f.id].dispatchReceipt
    case EvidenceSurface => s.recoveries[f.id].evidenceDispatch.value.receipt
    case DiagnosticSurface => s.recoveries[f.id].diagnosticDispatch.value.receipt
    case CorrectiveSurface => s.recoveries[f.id].correctiveDispatch.value.receipt
  }

  /** The receipt carries the saved identity, a positive run, the intent's ref and, if any path, its workflow. */
  predicate BindsIntent(receipt: Receipt, correlation: Correlation, intent: DispatchIntent) {
    && receipt.correlationId == correlation && receipt.ref == intent.ref
    && receipt.workflowRunId.Some? && receipt.workflowRunId.value >= 1
    && (receipt.workflowPath.Some? ==> EndsAs(receipt.workflowPath.value, intent.workflow))
  }

  /** `name` is what follows the last slash of `path`. */
  predicate EndsAs(path: string, name: string) {
    '/' !in name && (path == name || (|name| < |path| && path[|path| - |name|..] == name && path[|path| - |name| - 1] == '/'))
  }

  lemma {:induction false} BaseNameExactly(path: string, name: string)
    ensures BaseName(path) == name <==> EndsAs(path, name)
  {
    if '/' in path {
      BaseNameExactly(path[1..], name);
      assert path == [path[0]] + path[1..];
      if |name| < |path| {
        assert path[|path| - |name|..] == path[1..][|path| - |name| - 1..];
      }
      if path == name {
        assert '/' in name;
      }
    } else if |name| < |path| {
      assert path[|path| - |name| - 1] in path;
    }
  }

  lemma MatchesExactly(receipt: Receipt, intent: DispatchIntent, correlation: Correlation)
    ensures ReceiptMatches(receipt, intent, correlation) <==> BindsIntent(receipt, correlation, intent)
  {
    if receipt.workflowPath.Some? {
      BaseNameExactly(receipt.workflowPath.value, intent.workflow);
    }
    hide BaseName, EndsAs;
  }

  /** In every reachable state each dispatched record holds a receipt that binds its intent: the saved identity,
      a positive run id, the same ref and workflow. */
  lemma DispatchedIsBound(s: State, f: Flight)
    requires Reachable(s) && Flies(s, f)
    ensures IntentOf(s, f).Some? && IntentOf(s, f).value.actionId == f.id && IntentOf(s, f).value.researchId == s.researchId
    ensures StageOf(s, f) == Dispatched ==>
      ReceiptOf(s, f).Some? && BindsIntent(ReceiptOf(s, f).value, SavedIdentity(s, f), IntentOf(s, f).value)
  {
    hide Reachable, Inv, BindsIntent, BaseName;
    ReachableInv(s);
    InvLocal(s, f.id);
    LocalIsBound(s, f);
    if StageOf(s, f) == Dispatched {
      MatchesExactly(ReceiptOf(s, f).value, IntentOf(s, f).value, SavedIdentity(s, f));
    }
  }

  lemma LocalIsBound(s: State, f: Flight)
    requires Local(s, f.id) && Flies(s, f)
    ensures IntentOf(s, f).Some? && IntentOf(s, f).value.actionId == f.id && IntentOf(s, f).value.researchId == s.researchId
    ensures StageOf(s, f) == Dispatched ==>
      ReceiptOf(s, f).Some? && ReceiptMatches(ReceiptOf(s, f).value, IntentOf(s, f).value, SavedIdentity(s, f))
  {
    hide ReceiptMatches;
  }

  // ---------- which providers are still to be tried ----------

  /** Available, named, not the one that failed first, and not among those that failed since. */
  predicate Untried(d: Details, provider: string) {
    && provider != "" && d.availableProviders.Some? && provider in d.availableProviders.value
    && d.provider != Some(provider)
    && (d.providerFailures.Some? ==> forall f :: f in d.providerFailures.value ==> f.provider != provider)
  }

  lemma EligibleExactly(d: Details, provider: string)
    ensures provider in EligibleProviders(d) <==> Untried(d, provider)
  {
  }

  /** Diagnosis with a known cause plans the least provider not yet tried, exactly when there is one; in every
      reachable state the provider of a planned correction is one that was not tried. */
  lemma CorrectionUsesUntriedProvider(r: Recovery)
    requires r.status == Open && Truthy(r.rootCause) && !Truthy(r.correctiveAction)
    ensures DiagnosticOutcome(r).Ok?
    ensures var o := DiagnosticOutcome(r).value; var d := r.failure.details;
      if exists p :: Untried(d, p)
      then o.correctiveProvider.Some? && Untried(d, o.correctiveProvider.value)
           && (forall p :: Untried(d, p) ==> Le(o.correctiveProvider.value, p))
           && o.correctiveAction == Some("retry through eligible provider=" + o.correctiveProvider.value)
      else o.correctiveAction == r.correctiveAction && o.wait.Some?
  {
    UncorrectedOutcome(r);
    var d := r.failure.details;
    forall p ensures p in EligibleProviders(d) <==> Untried(d, p) {
      EligibleExactly(d, p);
    }
    hide DiagnosticOutcome, EligibleProviders, Untried;
    if EligibleProviders(d) != {} {
      assert Untried(d, First(EligibleProviders(d)));
    }
  }

  lemma PlannedProviderIsUntried(s: State, id: ActionId)
    requires Reachable(s) && id in s.recoveries && s.recoveries[id].status == Open && Truthy(s.recoveries[id].correctiveAction)
    ensures s.recoveries[id].correctiveProvider.Some?
    ensures Untried(s.recoveries[id].failure.details, s.recoveries[id].correctiveProvider.value)
  {
    hide Reachable, Inv, EligibleProviders, Untried;
    ReachableInv(s);
    InvLocal(s, id);
    EligibleExactly(s.recoveries[id].failure.details, s.recoveries[id].correctiveProvider.value);
  }

  // ---------- which artifacts are accepted ----------

  /** The result names its action, the bound run, an attempt of it, and the source head saved with the intent. */
  predicate ComesFrom(result: ExecutionResult, run: Option<int>, intent: DispatchIntent) {
    result.details.provenance.Some? &&
    var p := result.details.provenance.value;
    && p.actionId == result.actionId && p.runAttempt >= 1 && p.workflowRunId >= 1 && Some(p.workflowRunId) == run
    && p.headSha != "" && (intent.expectedHeadSha.Some? ==> p.headSha == intent.expectedHeadSha.value)
  }

  lemma ProvenanceExactly(result: ExecutionResult, run: int, intent: DispatchIntent)
    ensures HasProvenance(result, run, intent.expectedHeadSha) <==> ComesFrom(result, Some(run), intent)
  {
  }

  /** The gateway reports the end of exactly this run of exactly this action. */
  predicate EndsRun(gateway: GatewayTerminal, surface: Surface, runId: int, id: ActionId) {
    gateway.isTerminal && gateway.surface == surface && gateway.terminalRunId == runId && gateway.actionId == id
    && runId >= 1 && id != ""
  }

  lemma AcceptedEndsRun(s: State, surface: Surface, runId: int, artifact: Artifact, gateway: GatewayTerminal)
    requires IngestTerminalArtifact(s, surface, runId, artifact, gateway).Ok?
    ensures EndsRun(gateway, surface, runId, gateway.actionId)
  {
    hide IngestActionArtifact, ApplyCorrectiveExecutionResult, ApplyEvidencePatch, ApplyDiagnosticPatch;
  }

  /** An action result is accepted only for the run that was dispatched and the source it was dispatched from.
      PASS and NOOP complete the action, REJECTED rejects it, and a failure leaves it pending or suspended. */
  lemma ActionResultIsDecided(s: State, runId: int, result: ExecutionResult, gateway: GatewayTerminal, t: State)
    requires Reachable(s) && gateway.observation.None?
    requires IngestTerminalArtifact(s, ActionSurface, runId, ResultArtifact(result), gateway) == Ok(Some(t))
    ensures var id := result.actionId;
      && EndsRun(gateway, ActionSurface, runId, id)
      && id in s.queue && s.queue[id].status == Dispatched && s.queue[id].dispatchIntent.Some?
      && s.queue[id].dispatchReceipt.Some?
      && ComesFrom(result, s.queue[id].dispatchReceipt.value.workflowRunId, s.queue[id].dispatchIntent.value)
      && id in t.queue && t.queue[id].plan == s.queue[id].plan
      && match result.status
         case FAILED => t.queue[id].status == Pending || t.queue[id].status == Suspended
         case REJECTED => t.queue[id] == s.queue[id].(status := ActionLifecycle.Rejected, completionResult := Some(result))
         case _ =>
           t.queue[id] == s.queue[id].(status := ActionLifecycle.Complete, completionResult := Some(result))
           && result.researchId == s.researchId
  {
    AcceptedEndsRun(s, ActionSurface, runId, ResultArtifact(result), gateway);
    AcceptedResultIsApplied(s, runId, result, gateway, t);
    hide Reachable, ApplyActionFailure, ApplyActionCompletion, ApplyActionRejection, ComesFrom, IngestTerminalArtifact;
    match result.status
    case FAILED =>
      FailureIsFromRun(s, result);
      RepeatedFailureIsDiagnosedExactly(s, result);
    case REJECTED => RejectionIsFromRun(s, result);
    case _ => CompletionIsFromRun(s, result);
  }

  lemma AcceptedResultIsApplied(s: State, runId: int, result: ExecutionResult, gateway: GatewayTerminal, t: State)
    requires gateway.observation.None?
    requires IngestTerminalArtifact(s, ActionSurface, runId, ResultArtifact(result), gateway) == Ok(Some(t))
    ensures gateway.actionId == result.actionId
    ensures Ok(t) == match result.status
      case FAILED => ApplyActionFailure(s, result)
      case REJECTED => ApplyActionRejection(s, result)
      case _ => ApplyActionCompletion(s, result)
  {
    hide ApplyActionFailure, ApplyActionCompletion, ApplyActionRejection, ResultParses;
  }

  lemma FailureIsFromRun(s: State, result: ExecutionResult)
    requires ApplyActionFailure(s, result).Ok?
    ensures var id := result.actionId;
      && id in s.queue && s.queue[id].status == Dispatched && s.queue[id].dispatchIntent.Some?
      && s.queue[id].dispatchReceipt.Some?
      && ComesFrom(result, s.queue[id].dispatchReceipt.value.workflowRunId, s.queue[id].dispatchIntent.value)
      && DispositionKeepsPlan(s, ApplyActionFailure(s, result).value, id)
  {
    hide RecordFailure, DisposeOfFailure, RepeatsFailure, HasProvenance, ComesFrom;
    var item := s.queue[result.actionId];
    ProvenanceExactly(result, BoundRun(item).value, item.dispatchIntent.value);
    RecordFailureFacts(s, result);
    PlanIsKept(RecordFailure(s, result).value, result, RepeatsFailure(s, result));
  }

  predicate DispositionKeepsPlan(s: State, t: State, id: ActionId) {
    id in s.queue && id in t.queue && t.queue[id].plan == s.queue[id].plan
  }

  lemma PlanIsKept(g: State, result: ExecutionResult, repeated: bool)
    requires DisposeOfFailure(g, result, repeated).Ok?
    ensures DispositionKeepsPlan(g, DisposeOfFailure(g, result, repeated).value, result.actionId)
  {
    hide EffectivelyRetryable, FingerprintOf, PlanParses;
  }

  lemma CompletionIsFromRun(s: State, result: ExecutionResult)
    requires ApplyActionCompletion(s, result).Ok?
    ensures var id := result.actionId; var t := ApplyActionCompletion(s, result).value;
      && id in s.queue && s.queue[id].status == Dispatched && s.queue[id].dispatchIntent.Some?
      && s.queue[id].dispatchReceipt.Some? && result.researchId == s.researchId
      && ComesFrom(result, s.queue[id].dispatchReceipt.value.workflowRunId, s.queue[id].dispatchIntent.value)
      && id in t.queue
      && t.queue[id] == s.queue[id].(status := ActionLifecycle.Complete, completionResult := Some(result))
  {
    hide HasProvenance, ComesFrom;
    var item := s.queue[result.actionId];
    ProvenanceExactly(result, BoundRun(item).value, item.dispatchIntent.value);
  }

  lemma RejectionIsFromRun(s: State, result: ExecutionResult)
    requires ApplyActionRejection(s, result).Ok?
    ensures var id := result.actionId; var t := ApplyActionRejection(s, result).value;
      && id in s.queue && s.queue[id].status == Dispatched && s.queue[id].dispatchIntent.Some?
      && s.queue[id].dispatchReceipt.Some?
      && ComesFrom(result, s.queue[id].dispatchReceipt.value.workflowRunId, s.queue[id].dispatchIntent.value)
      && id in t.queue
      && t.queue[id] == s.queue[id].(status := ActionLifecycle.Rejected, completionResult := Some(result))
  {
    hide HasProvenance, ComesFrom;
    var item := s.queue[result.actionId];
    ProvenanceExactly(result, BoundRun(item).value, item.dispatchIntent.value);
  }

  /** A corrective result is accepted only from the native executor, for the run that was dispatched and the
      source it was dispatched from. */
  lemma CorrectiveResultIsFromRun(s: State, id: ActionId, result: ExecutionResult)
    requires ApplyCorrectiveExecutionResult(s, id, result).Ok?
    ensures result.executor == GithubNative && result.actionId == id && result.researchId == s.researchId
    ensures id in s.recoveries && s.recoveries[id].correctiveDispatch.Some?
    ensures var d := s.recoveries[id].correctiveDispatch.value;
      d.status == Dispatched && d.receipt.Some? && ComesFrom(result, d.receipt.value.workflowRunId, d.intent)
  {
    hide HasProvenance, ComesFrom, ResolveFromExecutionReceipt, ReleaseCorrected, BlameProvider;
    ResumedCorrectionIsDispatched(s, id);
    var d := s.recoveries[id].correctiveDispatch.value;
    ProvenanceExactly(result, d.receipt.value.workflowRunId.value, d.intent);
    hide ResumeDispatchedCorrective;
  }

  lemma ResumedCorrectionIsDispatched(s: State, id: ActionId)
    requires ResumeDispatchedCorrective(s, id).Ok?
    ensures id in s.recoveries && s.recoveries[id].correctiveDispatch.Some?
    ensures var d := s.recoveries[id].correctiveDispatch.value;
      d.status == Dispatched && d.receipt == Some(ResumeDispatchedCorrective(s, id).value)
  {
    hide CorrectiveIdentity;
  }

  /** Evidence is accepted only while it is waited for, from the run that was dispatched for this very request. */
  lemma EvidenceIsFromRun(s: State, id: ActionId, evidence: Details, p: ArtifactProvenance)
    requires ApplyEvidencePatch(s, id, evidence, p).Ok?
    ensures id in s.recoveries && s.recoveries[id].status == NeedsEvidence && s.recoveries[id].evidenceRequest.Some?
    ensures s.recoveries[id].evidenceDispatch.Some?
    ensures var d := s.recoveries[id].evidenceDispatch.value;
      && d.status == Dispatched && d.receipt.Some? && d.receipt.value.workflowRunId == Some(p.workflowRunId)
      && p.workflowRunId >= 1 && p.runAttempt >= 1 && p.actionId == id && Some(p.headSha) == d.intent.expectedHeadSha
      && p.dispatchId == EvidenceCorrelation(s.researchId, id, s.recoveries[id].evidenceRequest.value)
  {
    hide Update;
  }

  /** While a diagnostic dispatch is recorded, a patch is accepted only from its run, for the recovery as it was
      when the run was dispatched. */
  lemma DiagnosisIsFromRun(s: State, id: ActionId, patched: Recovery, p: ArtifactProvenance)
    requires ApplyDiagnosticPatch(s, id, patched, Some(p)).Ok? && s.recoveries[id].diagnosticDispatch.Some?
    ensures var d := s.recoveries[id].diagnosticDispatch.value;
      && d.status == Dispatched && d.receipt.Some? && d.receipt.value.workflowRunId == Some(p.workflowRunId)
      && p.workflowRunId >= 1 && p.runAttempt >= 1 && p.actionId == id && Some(p.headSha) == d.intent.expectedHeadSha
      && p.dispatchId == DiagnosticCorrelation(s.researchId, id, s.recoveries[id].(diagnosticDispatch := None))
  {
  }

  // ---------- attempts without usable evidence ----------

  /** A dispatch whose result cannot be used is filed exactly when it is the bound run of a dispatched native
      action; the action is then pending again, with this attempt added to its history and nothing else changed. */
  lemma UnusableAttemptIsFiledExactly(s: State, id: ActionId, run: int, conclusion: string, kind: string)
    requires Reachable(s) && conclusion != "" && kind != ""
    ensures var r := RecordNativeDispatchEvidenceFailure(s, id, run, conclusion, kind);
      && (r.Ok? <==>
            && id in s.queue && s.queue[id].status == Dispatched && s.queue[id].plan.executor == GithubNative
            && s.queue[id].dispatchReceipt.Some? && s.queue[id].dispatchReceipt.value.workflowRunId == Some(run))
      && (r.Ok? ==>
            && s.queue[id].dispatchIntent.Some?
            && r.value == s.(revision := s.revision + 1, queue := s.queue[id := s.queue[id].(
                 status := Pending, dispatchIntent := None, dispatchReceipt := None,
                 attemptHistory := s.queue[id].attemptHistory + [DispatchAttempt(
                   run, conclusion, kind, s.queue[id].dispatchIntent.value, s.queue[id].dispatchReceipt.value)])]))
  {
    hide Reachable, Inv;
    ReachableInv(s);
    InvLocal(s, id);
    if id in s.queue && s.queue[id].status == Dispatched {
      FlyingPlanIsOwn(s, id);
      DispatchedHasIntent(s, id);
    }
    hide Local, PlanParses;
  }

  lemma DispatchedHasIntent(s: State, id: ActionId)
    requires Local(s, id) && id in s.queue && s.queue[id].status == Dispatched
    ensures s.queue[id].dispatchIntent.Some?
  {
  }

  // ---------- intents whose source has moved ----------

  /** In every reachable state with an action intent in flight: the intent is retired exactly when its own ref is
      observed at another head.  The action is then rejected, the retired intent kept with the head observed. */
  lemma StaleIntentIsRetiredExactly(s: State, id: ActionId, observedRef: string, observedHead: string)
    requires Reachable(s) && id in s.queue && s.queue[id].status == IntentSaved
    ensures var r := RetireStaleIntent(s, observedRef, observedHead); var item := s.queue[id];
      && item.dispatchIntent.Some?
      && (r.Ok? <==>
            && observedRef != "" && observedHead != "" && item.dispatchIntent.value.ref == observedRef
            && item.dispatchIntent.value.expectedHeadSha.Some?
            && item.dispatchIntent.value.expectedHeadSha.value != observedHead)
      && (r.Ok? ==> r.value == s.(revision := s.revision + 1, queue := s.queue[id := item.(
            status := ActionLifecycle.Rejected, dispatchIntent := None, dispatchReceipt := None,
            intentHistory := item.intentHistory + [RetiredIntent(item.dispatchIntent.value, observedHead)])]))
  {
    var f := Flight(ActionSurface, id);
    assert Flies(s, f) && StageOf(s, f) == IntentSaved;
    DispatchedIsBound(s, f);
    assert s.queue[id].dispatchIntent.Some?;
    FlightIsResumed(s, f, [], map[]);
    hide Reachable, Select, Flies, StageOf, RetireStaleIntent;
    SelectedIsRetiredExactly(s, id, observedRef, observedHead);
  }

  lemma SelectedIsRetiredExactly(s: State, id: ActionId, observedRef: string, observedHead: string)
    requires Selected(s) == Ok(Some(InFlightIntent(ActionSurface, id))) && id in s.queue && s.queue[id].dispatchIntent.Some?
    ensures var r := RetireStaleIntent(s, observedRef, observedHead); var item := s.queue[id];
      && (r.Ok? <==>
            && observedRef != "" && observedHead != "" && item.dispatchIntent.value.ref == observedRef
            && item.dispatchIntent.value.expectedHeadSha.Some?
            && item.dispatchIntent.value.expectedHeadSha.value != observedHead)
      && (r.Ok? ==> r.value == s.(revision := s.revision + 1, queue := s.queue[id := item.(
            status := ActionLifecycle.Rejected, dispatchIntent := None, dispatchReceipt := None,
            intentHistory := item.intentHistory + [RetiredIntent(item.dispatchIntent.value, observedHead)])]))
  {
    hide Selected;
  }
}
