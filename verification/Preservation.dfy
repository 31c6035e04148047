/** Every step keeps the invariant. */
module Preservation {
  import opened Prelude
  import opened Records
  import opened Diagnosis
  import opened DurableState
  import opened Ingestion
  import opened Selector
  import opened Protocol

  lemma FreshInv(s: State)
    requires IsFresh(s)
    ensures Inv(s)
  {
  }

  // ---------- enqueue, retire, pre-dispatch ----------

  lemma EnqueueKeeps(s: State, plan: ActionPlan, progress: Option<string>)
    requires Inv(s) && Enqueue(s, plan, progress).Ok?
    ensures Inv(Enqueue(s, plan, progress).value)
  {
    var t := Enqueue(s, plan, progress).value;
    var id := plan.idempotencyKey;
    assert Local(s, id);
    FramePreserves(s, t, id, ActionSurface);
  }

  lemma SameRecordsKeep(s: State, t: State)
    requires Inv(s)
    requires t.researchId == s.researchId && t.queue == s.queue && t.recoveries == s.recoveries
    requires t.executionResults == s.executionResults
    ensures Inv(t)
  {
    forall id ensures Local(t, id) {
      assert Local(s, id);
    }
    forall f ensures Flies(t, f) == Flies(s, f) {
    }
  }

  // ---------- starting work ----------

  /** What the scheduler guarantees about the work it starts. */
  lemma StartFacts(s: State)
    requires Inv(s) && ToStart(s).Some?
    ensures Idle(s)
    ensures var (surface, id) := ToStart(s).value;
      && (surface == ActionSurface ==> id in s.queue && s.queue[id].status == Pending)
      && (surface == EvidenceSurface ==>
            id in s.recoveries && s.recoveries[id].status == NeedsEvidence && s.recoveries[id].evidenceDispatch.None?)
      && (surface == CorrectiveSurface ==> id in s.recoveries && CorrectiveReady(s.recoveries[id]))
      && (surface == DiagnosticSurface ==>
            && id in s.recoveries && s.recoveries[id].status == Open && !Truthy(s.recoveries[id].correctiveAction)
            && s.recoveries[id].diagnosticDispatch.None? && s.recoveries[id].correctiveDispatch.None?)
  {
    StartIsIdle(s);
    var (surface, id) := ToStart(s).value;
    if surface == DiagnosticSurface {
      assert id in OpenRecoveries(s.recoveries);
      assert !Flies(s, Flight(DiagnosticSurface, id)) && !Flies(s, Flight(CorrectiveSurface, id));
      assert id !in CorrectivesReady(s.recoveries);
      assert Local(s, id);
    }
  }

  lemma StartIsIdle(s: State)
    requires ToStart(s).Some?
    ensures Idle(s)
    ensures FlightCount(s.queue, s.recoveries) == 0
    ensures Selected(s) == IdleWork([], s.recoveries, s.queue, map[])
  {
    hide IdleWork;
    assert FlightCount(s.queue, s.recoveries) == 0;
    forall f ensures !Flies(s, f) {
      assert f.id !in ActionsFlying(s.queue) && f.id !in EvidenceFlying(s.recoveries);
      assert f.id !in DiagnosticsFlying(s.recoveries) && f.id !in CorrectivesFlying(s.recoveries);
    }
  }

  lemma PrepareActionKeeps(s: State, id: ActionId, req: DispatchRequest)
    requires Inv(s) && Idle(s) && id in s.queue && s.queue[id].status == Pending
    requires RecordActionDispatchIntent(s, id, req).Ok?
    ensures Inv(RecordActionDispatchIntent(s, id, req).value)
  {
    hide Inv, Idle;
    InvLocal(s, id);
    PutItemKeeps(s, id, RecordActionDispatchIntent(s, id, req).value.queue[id]);
  }

  lemma PrepareEvidenceKeeps(s: State, id: ActionId, req: DispatchRequest)
    requires Inv(s) && Idle(s)
    requires id in s.recoveries && s.recoveries[id].status == NeedsEvidence && s.recoveries[id].evidenceDispatch.None?
    requires RecordEvidenceDispatchIntent(s, id, req).Ok?
    ensures Inv(RecordEvidenceDispatchIntent(s, id, req).value)
  {
    hide Inv, Idle;
    InvLocal(s, id);
    var t := RecordEvidenceDispatchIntent(s, id, req).value;
    PutRecoveryKeeps(s, id, t.recoveries[id], EvidenceSurface);
  }

  lemma PrepareDiagnosticKeeps(s: State, id: ActionId, req: DispatchRequest)
    requires Inv(s) && Idle(s)
    requires id in s.recoveries && s.recoveries[id].status == Open && !Truthy(s.recoveries[id].correctiveAction)
    requires s.recoveries[id].diagnosticDispatch.None? && s.recoveries[id].correctiveDispatch.None?
    requires RecordDiagnosticDispatchIntent(s, id, req).Ok?
    ensures Inv(RecordDiagnosticDispatchIntent(s, id, req).value)
  {
    hide Inv, Idle;
    InvLocal(s, id);
    var t := RecordDiagnosticDispatchIntent(s, id, req).value;
    assert t.recoveries[id].(diagnosticDispatch := None) == s.recoveries[id].(diagnosticDispatch := None);
    PutRecoveryKeeps(s, id, t.recoveries[id], DiagnosticSurface);
  }

  /** The identity recomputed for a planned correction. */
  lemma CorrectiveIdentityIs(s: State, id: ActionId)
    requires LiveAt(s, id) && s.recoveries[id].status == Open && Planned(s.recoveries[id])
    requires RecoveryOk(s.researchId, id, s.recoveries[id])
    ensures CorrectiveIdentity(s, id)
            == Ok(CorrectiveCorrelation(s.researchId, id, TokenOf(s.researchId, id, s.recoveries[id])))
  {
  }

  lemma PrepareCorrectiveKeeps(s: State, id: ActionId, req: DispatchRequest)
    requires Inv(s) && Idle(s) && id in s.recoveries && CorrectiveReady(s.recoveries[id])
    requires RecordCorrectiveDispatchIntent(s, id, req).Ok?
    ensures Inv(RecordCorrectiveDispatchIntent(s, id, req).value)
  {
    hide Inv, Idle, CorrectiveIdentity;
    InvLocal(s, id);
    CorrectiveIdentityIs(s, id);
    var t := RecordCorrectiveDispatchIntent(s, id, req).value;
    PutRecoveryKeeps(s, id, t.recoveries[id], CorrectiveSurface);
  }

  lemma PrepareKeeps(s: State, ref: string, at: string, head: string)
    requires Inv(s) && Prepare(s, ref, at, head).Ok?
    ensures Inv(Prepare(s, ref, at, head).value)
  {
    hide Inv, Idle, RecordActionDispatchIntent, RecordEvidenceDispatchIntent;
    hide RecordDiagnosticDispatchIntent, RecordCorrectiveDispatchIntent, ToStart;
    StartFacts(s);
    var (surface, id) := ToStart(s).value;
    var executor := if surface == ActionSurface then s.queue[id].plan.executor else GithubNative;
    var req := DispatchRequest(WorkflowFor(surface, executor).value, ref, at, head);
    match surface
    case ActionSurface => PrepareActionKeeps(s, id, req);
    case EvidenceSurface => PrepareEvidenceKeeps(s, id, req);
    case DiagnosticSurface => PrepareDiagnosticKeeps(s, id, req);
    case CorrectiveSurface => PrepareCorrectiveKeeps(s, id, req);
  }

  // ---------- binding a receipt ----------

  lemma ReceiptKeeps(s: State, surface: Surface, id: ActionId, receipt: Receipt)
    requires Inv(s) && ApplyDispatchReceipt(s, surface, id, receipt).Ok?
    ensures Inv(ApplyDispatchReceipt(s, surface, id, receipt).value)
  {
    hide Inv, RecordActionDispatch, RecordEvidenceDispatch, RecordDiagnosticDispatch, RecordCorrectiveDispatch;
    match surface
    case ActionSurface => BindActionKeeps(s, id, receipt);
    case EvidenceSurface => BindEvidenceKeeps(s, id, receipt);
    case DiagnosticSurface => BindDiagnosticKeeps(s, id, receipt);
    case CorrectiveSurface => BindCorrectiveKeeps(s, id, receipt);
  }

  lemma BindActionKeeps(s: State, id: ActionId, receipt: Receipt)
    requires Inv(s) && RecordActionDispatch(s, id, receipt).Ok?
    ensures Inv(RecordActionDispatch(s, id, receipt).value)
  {
    hide Inv, Idle;
    InvLocal(s, id);
    var t := RecordActionDispatch(s, id, receipt).value;
    if t != s {
      PutItemKeeps(s, id, t.queue[id]);
    }
  }

  lemma BindEvidenceKeeps(s: State, id: ActionId, receipt: Receipt)
    requires Inv(s) && RecordEvidenceDispatch(s, id, receipt).Ok?
    ensures Inv(RecordEvidenceDispatch(s, id, receipt).value)
  {
    hide Inv, Idle;
    InvLocal(s, id);
    var t := RecordEvidenceDispatch(s, id, receipt).value;
    if t != s {
      PutRecoveryKeeps(s, id, t.recoveries[id], EvidenceSurface);
    }
  }

  lemma BindDiagnosticKeeps(s: State, id: ActionId, receipt: Receipt)
    requires Inv(s) && RecordDiagnosticDispatch(s, id, receipt).Ok?
    ensures Inv(RecordDiagnosticDispatch(s, id, receipt).value)
  {
    hide Inv, Idle;
    InvLocal(s, id);
    var t := RecordDiagnosticDispatch(s, id, receipt).value;
    assert t.recoveries[id].(diagnosticDispatch := None) == s.recoveries[id].(diagnosticDispatch := None);
    if t != s {
      PutRecoveryKeeps(s, id, t.recoveries[id], DiagnosticSurface);
    }
  }

  lemma BindCorrectiveKeeps(s: State, id: ActionId, receipt: Receipt)
    requires Inv(s) && RecordCorrectiveDispatch(s, id, receipt).Ok?
    ensures Inv(RecordCorrectiveDispatch(s, id, receipt).value)
  {
    hide Inv, Idle, CorrectiveIdentity;
    InvLocal(s, id);
    if s.recoveries[id].correctiveDispatch.Some? {
      CorrectiveIdentityIs(s, id);
    }
    var t := RecordCorrectiveDispatch(s, id, receipt).value;
    if t != s {
      PutRecoveryKeeps(s, id, t.recoveries[id], CorrectiveSurface);
    }
  }

  // ---------- terminal artifacts ----------

  lemma EvidenceFailureKeeps(s: State, id: ActionId, runId: int, conclusion: string, kind: string)
    requires Inv(s) && RecordNativeDispatchEvidenceFailure(s, id, runId, conclusion, kind).Ok?
    ensures Inv(RecordNativeDispatchEvidenceFailure(s, id, runId, conclusion, kind).value)
  {
    hide Inv, Idle;
    InvLocal(s, id);
    PutItemKeeps(s, id, RecordNativeDispatchEvidenceFailure(s, id, runId, conclusion, kind).value.queue[id]);
  }

  lemma CompletionKeeps(s: State, result: ExecutionResult)
    requires Inv(s) && ApplyActionCompletion(s, result).Ok?
    ensures Inv(ApplyActionCompletion(s, result).value)
  {
    hide Inv, Idle;
    InvLocal(s, result.actionId);
    PutItemKeeps(s, result.actionId, ApplyActionCompletion(s, result).value.queue[result.actionId]);
  }

  lemma RejectionKeeps(s: State, result: ExecutionResult)
    requires Inv(s) && ApplyActionRejection(s, result).Ok?
    ensures Inv(ApplyActionRejection(s, result).value)
  {
    hide Inv, Idle;
    InvLocal(s, result.actionId);
    PutItemKeeps(s, result.actionId, ApplyActionRejection(s, result).value.queue[result.actionId]);
  }

  /** Recording a failure touches only the result of that action. */
  lemma RecordFailureFacts(s: State, result: ExecutionResult)
    requires result.status == FAILED && RecordFailure(s, result).Ok?
    ensures var g := RecordFailure(s, result).value;
      && Framed(s, g, result.actionId)
      && g.queue == s.queue && g.recoveries == s.recoveries && g.revision >= s.revision
      && result.actionId in g.executionResults
      && g.executionResults[result.actionId].status == FAILED
      && g.executionResults[result.actionId].details.governanceRetryable == Some(EffectivelyRetryable(result))
  {
    hide EffectivelyRetryable, FingerprintOf, Framed, RecordExecutionResult;
    RecordResultFacts(s, result);
    PutResultFrames(s, RecordFailure(s, result).value, result.actionId);
  }

  lemma PutResultFrames(s: State, t: State, id: ActionId)
    requires id in t.executionResults
    requires t == s.(executionResults := s.executionResults[id := t.executionResults[id]], revision := t.revision)
    ensures Framed(s, t, id)
  {
  }

  lemma RecordResultFacts(s: State, result: ExecutionResult)
    requires RecordExecutionResult(s, result).Ok?
    ensures var t := RecordExecutionResult(s, result).value; var id := result.actionId;
      && id in t.executionResults && t.executionResults[id].status == result.status
      && t == s.(executionResults := s.executionResults[id := t.executionResults[id]], revision := t.revision)
      && t.revision >= s.revision
  {
    var t := RecordExecutionResult(s, result).value;
    assert t.executionResults == s.executionResults[result.actionId := t.executionResults[result.actionId]];
  }

  lemma RecordFailureKeeps(s: State, result: ExecutionResult)
    requires Inv(s) && FailureBound(s, result) && RecordFailure(s, result).Ok?
    ensures Inv(RecordFailure(s, result).value)
  {
    hide Inv, Framed, HasProvenance, ItemOk, RecoveryOk, RecordFailure, TerminalFailure;
    var g := RecordFailure(s, result).value;
    InvLocal(s, result.actionId);
    RecordFailureFacts(s, result);
    assert g.researchId == s.researchId by {
      FramedWorkload(s, g, result.actionId);
    }
    FramePreserves(s, g, result.actionId, ActionSurface);
  }

  lemma FramedWorkload(s: State, t: State, id: ActionId)
    requires Framed(s, t, id)
    ensures t.researchId == s.researchId
  {
  }

  lemma DiagnosisKeeps(s: State, result: ExecutionResult)
    requires Inv(s) && result.actionId in s.queue && s.queue[result.actionId].status == Dispatched
    requires SuspendForDiagnosis(s, result).Ok?
    ensures Inv(SuspendForDiagnosis(s, result).value)
  {
    hide Inv;
    var id := result.actionId;
    InvLocal(s, id);
    FramePreserves(s, SuspendForDiagnosis(s, result).value, id, ActionSurface);
  }

  /** A failed action is requeued, suspended under diagnosis, or suspended for good. */
  lemma FailureKeeps(s: State, result: ExecutionResult)
    requires Inv(s) && ApplyActionFailure(s, result).Ok?
    ensures Inv(ApplyActionFailure(s, result).value)
  {
    hide Inv, RecordFailure, SuspendForDiagnosis, HasProvenance;
    RecordFailureKeeps(s, result);
    RecordFailureFacts(s, result);
    var g := RecordFailure(s, result).value;
    var id := result.actionId;
    InvLocal(g, id);
    if RepeatsFailure(s, result) && EffectivelyRetryable(result) {
      DiagnosisKeeps(g, result);
    } else if EffectivelyRetryable(result) {
      PutItemKeeps(g, id, Requeue(g, id).queue[id]);
    } else {
      PutItemKeeps(g, id, g.queue[id].(status := Suspended));
    }
  }

  /** A corrective result either releases the action or blames the provider. */
  lemma CorrectiveCases(s: State, id: ActionId, result: ExecutionResult)
    requires ApplyCorrectiveExecutionResult(s, id, result).Ok?
    ensures var t := ApplyCorrectiveExecutionResult(s, id, result).value;
      && id in s.recoveries && s.recoveries[id].status == Open && s.recoveries[id].correctiveDispatch.Some?
      && Framed(s, t, id) && t.revision == s.revision + 1
      && id in t.recoveries
      && (t.recoveries[id].status == Resolved ==>
            && id in s.queue && s.queue[id].status == Suspended
            && t == s.(revision := s.revision + 1, recoveries := s.recoveries[id := t.recoveries[id]],
                       queue := s.queue[id := s.queue[id].(status := Pending)]))
      && (t.recoveries[id].status != Resolved ==>
            t == PutRecovery(s, id, Blamed(s.recoveries[id], result)))
  {
    hide HasProvenance, BlameProvider, ResumeDispatchedCorrective, ResolveFromExecutionReceipt, Framed;
    ResumeCorrectiveFacts(s, id);
    ResolutionFacts(s, s.recoveries[id], id, result);
    var t := ApplyCorrectiveExecutionResult(s, id, result).value;
    if t.recoveries[id].status == Resolved {
      PutBothFrames(s, t, id);
    } else {
      PutRecoveryFrames(s, id, t.recoveries[id]);
    }
  }

  lemma ResumeCorrectiveFacts(s: State, id: ActionId)
    requires ResumeDispatchedCorrective(s, id).Ok?
    ensures id in s.recoveries && s.recoveries[id].status == Open && s.recoveries[id].correctiveDispatch.Some?
    ensures s.recoveries[id].correctiveDispatch.value.receipt == Some(ResumeDispatchedCorrective(s, id).value)
  {
    hide CorrectiveIdentity;
  }

  lemma ResolutionFacts(s: State, r: Recovery, id: ActionId, result: ExecutionResult)
    ensures var resolution := ResolveFromExecutionReceipt(s, r, id, result);
      resolution.Ok? && resolution.value.Some? ==> Succeeded(result.status) && resolution.value.value.status == Resolved
  {
  }

  lemma PutBothFrames(s: State, t: State, id: ActionId)
    requires id in t.recoveries && id in t.queue
    requires t == s.(revision := t.revision, recoveries := s.recoveries[id := t.recoveries[id]],
                     queue := s.queue[id := t.queue[id]])
    ensures Framed(s, t, id)
  {
  }

  lemma CorrectiveKeeps(s: State, id: ActionId, result: ExecutionResult)
    requires Inv(s) && ApplyCorrectiveExecutionResult(s, id, result).Ok?
    ensures Inv(ApplyCorrectiveExecutionResult(s, id, result).value)
  {
    hide Inv, Framed, ApplyCorrectiveExecutionResult, BlameProvider;
    InvLocal(s, id);
    CorrectiveCases(s, id, result);
    var t := ApplyCorrectiveExecutionResult(s, id, result).value;
    if t.recoveries[id].status == Resolved {
      FramePreserves(s, t, id, CorrectiveSurface);
    } else {
      PutRecoveryKeeps(s, id, t.recoveries[id], CorrectiveSurface);
    }
  }

  /** The failure's details carry an independent verification of the correction. */
  predicate Verified(d: Details) {
    d.resolutionVerification.Some? && d.resolutionVerification.value.verified && d.resolutionVerification.value.evidence != ""
  }

  /** One diagnostic run on an open recovery: it is refused exactly when every field is already filled; else the
      typed evidence decides the phase the recovery is in, or one more identical wait is counted. */
  lemma OutcomeCases(r: Recovery)
    requires r.status == Open
    ensures DiagnosticOutcome(r).Err? <==>
      Truthy(r.rootCause) && Truthy(r.correctiveAction) && Truthy(r.resolutionEvidence)
    ensures DiagnosticOutcome(r).Ok? ==>
      var o := DiagnosticOutcome(r).value; var corrected := Truthy(r.rootCause) && Truthy(r.correctiveAction);
      && (!Truthy(r.rootCause) && Truthy(r.failure.details.provider) && Truthy(r.failure.details.errorType) ==>
            o == r.(rootCause := Some(RootCauseEvidence(r.failure.details))))
      && (Truthy(r.rootCause) && !corrected && EligibleProviders(r.failure.details) != {} ==>
            o == r.(correctiveProvider := Some(First(EligibleProviders(r.failure.details))),
                    correctiveAction := Some("retry through eligible provider="
                                             + First(EligibleProviders(r.failure.details)))))
      && (!corrected && Stuck(r) ==> o == Waited(r, WaitFingerprint(
            if Truthy(r.rootCause) then ApplyCorrectiveAction else InvestigateRootCause,
            if Truthy(r.rootCause) then "no eligible provider proven by capability evidence"
            else "typed failure evidence insufficient")))
      && (corrected && Verified(r.failure.details) ==>
            o == r.(resolutionEvidence := Some(r.failure.details.resolutionVerification.value.evidence), status := Resolved))
      && (corrected && !Verified(r.failure.details) ==>
            o == Waited(r, WaitFingerprint(VerifyResolution, "resolution not independently verified")))
  {
    WaitIs(r, InvestigateRootCause, "typed failure evidence insufficient");
    WaitIs(r, ApplyCorrectiveAction, "no eligible provider proven by capability evidence");
    WaitIs(r, VerifyResolution, "resolution not independently verified");
    hide EligibleProviders, RootCauseEvidence, RecordDiagnosticWait, Waited;
  }

  /** The same for a recovery without a planned correction. */
  lemma UncorrectedOutcome(r: Recovery)
    requires r.status == Open && !Truthy(r.correctiveAction)
    ensures DiagnosticOutcome(r).Ok?
    ensures var o := DiagnosticOutcome(r).value;
      if Stuck(r) then
        o == Waited(r, WaitFingerprint(
          if Truthy(r.rootCause) then ApplyCorrectiveAction else InvestigateRootCause,
          if Truthy(r.rootCause) then "no eligible provider proven by capability evidence"
          else "typed failure evidence insufficient"))
      else if Truthy(r.rootCause) then
        && EligibleProviders(r.failure.details) != {}
        && o == r.(correctiveProvider := Some(First(EligibleProviders(r.failure.details))),
                   correctiveAction := Some("retry through eligible provider="
                                            + First(EligibleProviders(r.failure.details))))
      else o == r.(rootCause := Some(RootCauseEvidence(r.failure.details)))
  {
    OutcomeCases(r);
    hide DiagnosticOutcome, EligibleProviders, RootCauseEvidence, Waited, Verified;
  }

  lemma WaitIs(r: Recovery, phase: DiagnosticPhase, evidence: string)
    requires r.status == Open
    ensures RecordDiagnosticWait(r, phase, evidence) == Ok(Waited(r, WaitFingerprint(phase, evidence)))
  {
  }

  /** No typed evidence decides the phase the recovery is in. */
  predicate Stuck(r: Recovery) {
    if Truthy(r.rootCause) then EligibleProviders(r.failure.details) == {}
    else !Truthy(r.failure.details.provider) || !Truthy(r.failure.details.errorType)
  }

  /** One more wait; the second identical one asks for evidence. */
  function Waited(r: Recovery, fp: WaitFingerprint): Recovery {
    var attempts := if r.wait.Some? && r.wait.value.fingerprint == fp then r.wait.value.attempts + 1 else 1;
    if attempts >= MAX_IDENTICAL_WAITS
    then r.(wait := Some(Wait(fp, attempts)), status := NeedsEvidence, evidenceRequest := Some(fp))
    else r.(wait := Some(Wait(fp, attempts)))
  }

  /** A diagnostic run leaves such a recovery live and lawful. */
  lemma OutcomeOk(rid: string, id: ActionId, r: Recovery)
    requires RecoveryOk(rid, id, r) && r.status == Open && r.diagnosticDispatch.Some?
    ensures DiagnosticOutcome(r).Ok?
    ensures var o := DiagnosticOutcome(r).value.(diagnosticDispatch := None);
      RecoveryOk(rid, id, o) && Live(o) && !FliesEvidence(o) && !FliesCorrective(o) && !FliesDiagnostic(o)
  {
    hide DiagnosticOutcome, EligibleProviders, RootCauseEvidence, DispatchOk;
    UncorrectedOutcome(r);
    if Truthy(r.rootCause) && EligibleProviders(r.failure.details) != {} {
      EligibleIsNamed(r.failure.details, First(EligibleProviders(r.failure.details)));
    }
  }

  lemma EligibleIsNamed(d: Details, provider: string)
    requires provider in EligibleProviders(d)
    ensures provider != ""
  {
  }

  lemma DiagnosticKeeps(s: State, id: ActionId, patched: Recovery, p: ArtifactProvenance)
    requires Inv(s) && ApplyDiagnosticPatch(s, id, patched, Some(p)).Ok?
    requires s.recoveries[id].diagnosticDispatch.Some? && DiagnosticOutcome(s.recoveries[id]).Ok?
    requires patched.(diagnosticDispatch := None)
             == DiagnosticOutcome(s.recoveries[id]).value.(diagnosticDispatch := None)
    ensures Inv(ApplyDiagnosticPatch(s, id, patched, Some(p)).value)
  {
    hide Inv, DiagnosticOutcome, RecoveryOk, ResumeDispatchedDiagnostic, DiagnosticIdentity, ProvenanceBinds;
    InvLocal(s, id);
    OutcomeOk(s.researchId, id, s.recoveries[id]);
    PutRecoveryKeeps(s, id, patched.(diagnosticDispatch := None), DiagnosticSurface);
  }

  lemma EvidenceKeeps(s: State, id: ActionId, evidence: Details, p: ArtifactProvenance)
    requires Inv(s) && ApplyEvidencePatch(s, id, evidence, p).Ok?
    ensures Inv(ApplyEvidencePatch(s, id, evidence, p).value)
  {
    hide Inv, ResumeDispatchedEvidence, EvidenceIdentity, ProvenanceBinds, Update;
    InvLocal(s, id);
    PutRecoveryKeeps(s, id, ApplyEvidencePatch(s, id, evidence, p).value.recoveries[id], EvidenceSurface);
  }

  lemma IngestKeeps(s: State, surface: Surface, runId: int, artifact: Artifact, gateway: GatewayTerminal)
    requires Inv(s) && Ingest(s, surface, runId, artifact, gateway).Ok?
    ensures Inv(Ingest(s, surface, runId, artifact, gateway).value)
  {
    hide Inv, DiagnosticOutcome, ApplyActionFailure, ApplyActionRejection, ApplyActionCompletion;
    hide RecordNativeDispatchEvidenceFailure, ApplyCorrectiveExecutionResult, ApplyEvidencePatch, ApplyDiagnosticPatch;
    var id := gateway.actionId;
    match surface
    case ActionSurface => IngestActionKeeps(s, id, runId, artifact, gateway);
    case CorrectiveSurface => CorrectiveKeeps(s, id, artifact.result);
    case EvidenceSurface => EvidenceKeeps(s, id, artifact.evidence, artifact.evidenceProvenance);
    case DiagnosticSurface => DiagnosticKeeps(s, id, artifact.recovery, artifact.diagnosticProvenance);
  }

  lemma IngestActionKeeps(s: State, id: ActionId, runId: int, artifact: Artifact, gateway: GatewayTerminal)
    requires Inv(s) && IngestActionArtifact(s, id, runId, artifact, gateway).Ok?
    ensures var p := IngestActionArtifact(s, id, runId, artifact, gateway).value; p.Some? ==> Inv(p.value)
  {
    hide Inv, ApplyActionFailure, ApplyActionRejection, ApplyActionCompletion, RecordNativeDispatchEvidenceFailure;
    if IdentityMismatch(gateway) {
      EvidenceFailureKeeps(s, id, runId, Conclusion(gateway), "bound_executor_identity_mismatch");
    } else if artifact.InvalidJson? {
      EvidenceFailureKeeps(s, id, runId, Conclusion(gateway),
        if artifact.missing then "missing_execution_result_artifact" else "invalid_execution_result_json");
    } else if !(id in s.queue && s.queue[id].status == Complete) {
      match artifact.result.status
      case FAILED => FailureKeeps(s, artifact.result);
      case REJECTED => RejectionKeeps(s, artifact.result);
      case _ => CompletionKeeps(s, artifact.result);
    }
  }

  // ---------- the stale-intent retirement, and every run ----------

  lemma StaleIntentKeeps(s: State, ref: string, head: string)
    requires Inv(s) && RetireStaleIntent(s, ref, head).Ok?
    ensures Inv(RetireStaleIntent(s, ref, head).value)
  {
    hide Inv, Selected;
    var id := Selected(s).value.value.actionId;
    InvLocal(s, id);
    StaleIntentInFlight(s, id);
    PutItemKeeps(s, id, RetireStaleIntent(s, ref, head).value.queue[id]);
  }

  lemma StaleIntentInFlight(s: State, id: ActionId)
    requires Selected(s) == Ok(Some(InFlightIntent(ActionSurface, id)))
    ensures id in s.queue && s.queue[id].status == IntentSaved
  {
  }

  lemma StepKeeps(s: State, step: Step)
    requires Inv(s)
    ensures Inv(Next(s, step))
  {
    hide Inv, Enqueue, Prepare, ApplyDispatchReceipt, Ingest, RetireStaleIntent;
    if Perform(s, step).Ok? {
      match step
      case EnqueueStep(plan, progress) => EnqueueKeeps(s, plan, progress);
      case PrepareStep(ref, at, head) => PrepareKeeps(s, ref, at, head);
      case ReceiptStep(surface, id, receipt) => ReceiptKeeps(s, surface, id, receipt);
      case IngestStep(surface, runId, artifact, gateway) => IngestKeeps(s, surface, runId, artifact, gateway);
      case StaleIntentStep(ref, head) => StaleIntentKeeps(s, ref, head);
      case RetireStep(issue, mode) => SameRecordsKeep(s, Next(s, step));
      case PredispatchStep(failures) => SameRecordsKeep(s, Next(s, step));
    }
  }

  lemma {:induction false} RunKeeps(s: State, steps: seq<Step>)
    requires Inv(s)
    ensures Inv(Run(s, steps))
    decreases |steps|
  {
    hide Inv, Next;
    if steps != [] {
      StepKeeps(s, steps[0]);
      RunKeeps(Next(s, steps[0]), steps[1..]);
    }
  }

  /** The joint invariant holds in every state any run can reach. */
  lemma ReachableInv(s: State)
    requires Reachable(s)
    ensures Inv(s)
  {
    hide Inv, Run, IsFresh;
    var start: State, steps: seq<Step> :| IsFresh(start) && Run(start, steps) == s;
    FreshInv(start);
    RunKeeps(start, steps);
  }
}
