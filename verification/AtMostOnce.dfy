/** The terminal artifact of a run changes the state at most once. */
module AtMostOnce {
  import opened Prelude
  import opened Records
  import opened Diagnosis
  import opened DurableState
  import opened Ingestion
  import opened Selector
  import opened Protocol
  import opened Preservation
  import opened ControllerTheorems

  /** The run id a dispatched record carries. */
  function CarriedRun(s: State, f: Flight): Option<int> {
    match f.surface
    case ActionSurface =>
      if f.id in s.queue && s.queue[f.id].status == Dispatched then RunOf(s.queue[f.id].dispatchReceipt) else None
    case EvidenceSurface =>
      if f.id in s.recoveries && FliesEvidence(s.recoveries[f.id]) then DispatchRun(s.recoveries[f.id].evidenceDispatch.value) else None
    case DiagnosticSurface =>
      if f.id in s.recoveries && FliesDiagnostic(s.recoveries[f.id]) then DispatchRun(s.recoveries[f.id].diagnosticDispatch.value) else None
    case CorrectiveSurface =>
      if f.id in s.recoveries && FliesCorrective(s.recoveries[f.id]) then DispatchRun(s.recoveries[f.id].correctiveDispatch.value) else None
  }

  function RunOf(receipt: Option<Receipt>): Option<int> {
    if receipt.Some? then receipt.value.workflowRunId else None
  }

  function DispatchRun(d: Dispatch): Option<int> {
    if d.status == Dispatched then RunOf(d.receipt) else None
  }

  /** The run a receipt step binds to the state. */
  ghost function Binding(s: State, step: Step): Option<int> {
    if step.ReceiptStep? && Perform(s, step).Ok? then step.receipt.workflowRunId else None
  }

  /** The run whose artifact changes the state. */
  ghost function Consumption(s: State, step: Step): Option<int> {
    if step.IngestStep? && Next(s, step) != s
    then Some(ReportedRun(step.artifact, step.gateway, step.runId)) else None
  }

  function Listed(o: Option<int>): seq<int> {
    if o.Some? then [o.value] else []
  }

  ghost function Bindings(s: State, steps: seq<Step>): seq<int>
    decreases |steps|
  {
    if steps == [] then [] else Listed(Binding(s, steps[0])) + Bindings(Next(s, steps[0]), steps[1..])
  }

  ghost function Consumptions(s: State, steps: seq<Step>): seq<int>
    decreases |steps|
  {
    if steps == [] then [] else Listed(Consumption(s, steps[0])) + Consumptions(Next(s, steps[0]), steps[1..])
  }

  ghost predicate Distinct(xs: seq<int>) {
    forall i, j :: 0 <= i < j < |xs| ==> xs[i] != xs[j]
  }

  // ---------- an ingested artifact lands its flight ----------

  predicate IsFinal(status: ActionLifecycle) {
    status == ActionLifecycle.Complete || status == ActionLifecycle.Rejected
  }

  /** The item completed with PASS/NOOP evidence of the very run and source head it was dispatched with. */
  predicate ProvenComplete(id: ActionId, item: Item) {
    && item.completionResult.Some? && Succeeded(item.completionResult.value.status)
    && item.completionResult.value.actionId == id
    && BoundRun(item).Ok? && item.dispatchIntent.Some?
    && HasProvenance(item.completionResult.value, BoundRun(item).value, item.dispatchIntent.value.expectedHeadSha)
  }

  /** The queued work stays what it is; a completion result arrives only with a settled status, and
      completion only with its proof. */
  predicate SameWork(s: State, t: State, id: ActionId) {
    id in s.queue ==>
      && id in t.queue && t.queue[id].plan == s.queue[id].plan && t.queue[id].progress == s.queue[id].progress
      && (t.queue[id].completionResult == s.queue[id].completionResult || IsFinal(t.queue[id].status))
      && (t.queue[id].status == ActionLifecycle.Complete ==> t.queue[id] == s.queue[id] || ProvenComplete(id, t.queue[id]))
  }

  /** The record at `id` carried `run` before, and nothing is in flight at `id` after. */
  ghost predicate Landed(s: State, t: State, id: ActionId, surface: Surface, run: int) {
    && Framed(s, t, id) && SameWork(s, t, id)
    && CarriedRun(s, Flight(surface, id)) == Some(run)
    && forall k: Surface :: !Flies(t, Flight(k, id))
  }

  lemma PutItemLands(s: State, id: ActionId, item: Item, run: int)
    requires Local(s, id) && id in s.queue && s.queue[id].status == Dispatched
    requires RunOf(s.queue[id].dispatchReceipt) == Some(run)
    requires !Flying(item.status) && SameWork(s, PutItem(s, id, item), id)
    ensures Landed(s, PutItem(s, id, item), id, ActionSurface, run)
  {
    hide ItemOk, RecoveryOk, TerminalFailure;
    assert !LiveAt(s, id);
  }

  lemma EvidenceFailureLands(s: State, id: ActionId, runId: int, conclusion: string, kind: string)
    requires Local(s, id) && RecordNativeDispatchEvidenceFailure(s, id, runId, conclusion, kind).Ok?
    ensures Landed(s, RecordNativeDispatchEvidenceFailure(s, id, runId, conclusion, kind).value, id, ActionSurface, runId)
  {
    hide Landed, Local;
    var t := RecordNativeDispatchEvidenceFailure(s, id, runId, conclusion, kind).value;
    PutItemLands(s, id, t.queue[id], runId);
  }

  lemma CompletionLands(s: State, result: ExecutionResult)
    requires Local(s, result.actionId) && ApplyActionCompletion(s, result).Ok?
    ensures result.details.provenance.Some?
    ensures Landed(s, ApplyActionCompletion(s, result).value, result.actionId, ActionSurface,
                   result.details.provenance.value.workflowRunId)
  {
    hide Landed, Local;
    var t := ApplyActionCompletion(s, result).value;
    PutItemLands(s, result.actionId, t.queue[result.actionId], result.details.provenance.value.workflowRunId);
  }

  lemma RejectionLands(s: State, result: ExecutionResult)
    requires Local(s, result.actionId) && ApplyActionRejection(s, result).Ok?
    ensures result.details.provenance.Some?
    ensures Landed(s, ApplyActionRejection(s, result).value, result.actionId, ActionSurface,
                   result.details.provenance.value.workflowRunId)
  {
    hide Landed, Local;
    var t := ApplyActionRejection(s, result).value;
    PutItemLands(s, result.actionId, t.queue[result.actionId], result.details.provenance.value.workflowRunId);
  }

  lemma FramesCompose(s: State, g: State, t: State, id: ActionId)
    requires Framed(s, g, id) && Framed(g, t, id)
    ensures Framed(s, t, id)
  {
  }

  /** Only `id` changed, its work is the same, and nothing is in flight there. */
  ghost predicate Disposed(g: State, t: State, id: ActionId) {
    Framed(g, t, id) && SameWork(g, t, id) && forall k: Surface :: !Flies(t, Flight(k, id))
  }

  lemma DisposalLands(g: State, result: ExecutionResult, repeated: bool)
    requires result.actionId in g.queue && g.queue[result.actionId].status == Dispatched && !LiveAt(g, result.actionId)
    requires DisposeOfFailure(g, result, repeated).Ok?
    ensures Disposed(g, DisposeOfFailure(g, result, repeated).value, result.actionId)
  {
    hide EffectivelyRetryable, SuspendForDiagnosis, Disposed;
    var id, t := result.actionId, DisposeOfFailure(g, result, repeated).value;
    if repeated && EffectivelyRetryable(result) {
      DiagnosisLands(g, result);
    } else {
      PutItemDisposes(g, t, id);
    }
  }

  lemma PutItemDisposes(g: State, t: State, id: ActionId)
    requires !LiveAt(g, id) && id in t.queue && t == PutItem(g, id, t.queue[id])
    requires SameWork(g, t, id) && !Flying(t.queue[id].status)
    ensures Disposed(g, t, id)
  {
  }

  lemma DiagnosisLands(g: State, result: ExecutionResult)
    requires result.actionId in g.queue && SuspendForDiagnosis(g, result).Ok?
    ensures Disposed(g, SuspendForDiagnosis(g, result).value, result.actionId)
  {
    hide FingerprintOf, PlanParses;
  }

  lemma FailureLands(s: State, result: ExecutionResult)
    requires Local(s, result.actionId) && ApplyActionFailure(s, result).Ok?
    ensures result.details.provenance.Some?
    ensures Landed(s, ApplyActionFailure(s, result).value, result.actionId, ActionSurface,
                   result.details.provenance.value.workflowRunId)
  {
    hide Framed, RecordFailure, DisposeOfFailure, Flies, ItemOk, RecoveryOk, TerminalFailure;
    var g := RecordFailure(s, result).value;
    RecordFailureFacts(s, result);
    DisposalLands(g, result, RepeatsFailure(s, result));
    FramesCompose(s, g, ApplyActionFailure(s, result).value, result.actionId);
  }

  lemma CorrectiveLands(s: State, id: ActionId, result: ExecutionResult)
    requires Local(s, id) && ApplyCorrectiveExecutionResult(s, id, result).Ok?
    ensures result.details.provenance.Some?
    ensures Landed(s, ApplyCorrectiveExecutionResult(s, id, result).value, id, CorrectiveSurface,
                   result.details.provenance.value.workflowRunId)
  {
    hide ApplyCorrectiveExecutionResult, Framed, Local, CarriedRun, BlameProvider;
    CorrectiveProvenance(s, id, result);
    CorrectiveCases(s, id, result);
    CorrectiveAlone(s, id);
  }

  lemma CorrectiveAlone(s: State, id: ActionId)
    requires Local(s, id) && Flies(s, Flight(CorrectiveSurface, id))
    ensures id in s.queue && s.queue[id].status == Suspended
    ensures s.recoveries[id].diagnosticDispatch.None? && s.recoveries[id].evidenceDispatch.None?
  {
  }

  lemma CorrectiveProvenance(s: State, id: ActionId, result: ExecutionResult)
    requires ApplyCorrectiveExecutionResult(s, id, result).Ok?
    ensures result.details.provenance.Some?
    ensures CarriedRun(s, Flight(CorrectiveSurface, id)) == Some(result.details.provenance.value.workflowRunId)
  {
    hide ResolveFromExecutionReceipt, ResumeResolvedAction, BlameProvider, CorrectiveIdentity;
  }

  lemma EvidenceLands(s: State, id: ActionId, evidence: Details, p: ArtifactProvenance)
    requires Local(s, id) && ApplyEvidencePatch(s, id, evidence, p).Ok?
    ensures Landed(s, ApplyEvidencePatch(s, id, evidence, p).value, id, EvidenceSurface, p.workflowRunId)
  {
    hide Update, TerminalFailure, EvidenceIdentity;
  }

  lemma DiagnosticLands(s: State, id: ActionId, patched: Recovery, p: ArtifactProvenance)
    requires Local(s, id) && ApplyDiagnosticPatch(s, id, patched, Some(p)).Ok?
    requires s.recoveries[id].diagnosticDispatch.Some? && DiagnosticOutcome(s.recoveries[id]).Ok?
    requires patched.(diagnosticDispatch := None)
             == DiagnosticOutcome(s.recoveries[id]).value.(diagnosticDispatch := None)
    ensures Landed(s, ApplyDiagnosticPatch(s, id, patched, Some(p)).value, id, DiagnosticSurface, p.workflowRunId)
  {
    hide DiagnosticOutcome, TerminalFailure, DiagnosticIdentity, RecoveryOk;
    OutcomeOk(s.researchId, id, s.recoveries[id]);
  }

  /** Every artifact that changes the state ends the one flight that carried its run. */
  lemma IngestLands(s: State, surface: Surface, runId: int, artifact: Artifact, gateway: GatewayTerminal)
    requires Inv(s) && Ingest(s, surface, runId, artifact, gateway).Ok?
    requires Ingest(s, surface, runId, artifact, gateway).value != s
    ensures Landed(s, Ingest(s, surface, runId, artifact, gateway).value, gateway.actionId, surface,
                   ReportedRun(artifact, gateway, runId))
  {
    hide Inv, Local, Landed, DiagnosticOutcome, IngestActionArtifact;
    hide ApplyCorrectiveExecutionResult, ApplyEvidencePatch, ApplyDiagnosticPatch;
    var id := gateway.actionId;
    InvLocal(s, id);
    match surface
    case ActionSurface => IngestActionLands(s, id, runId, artifact, gateway);
    case CorrectiveSurface => CorrectiveLands(s, id, artifact.result);
    case EvidenceSurface => EvidenceLands(s, id, artifact.evidence, artifact.evidenceProvenance);
    case DiagnosticSurface => DiagnosticLands(s, id, artifact.recovery, artifact.diagnosticProvenance);
  }

  lemma IngestActionLands(s: State, id: ActionId, runId: int, artifact: Artifact, gateway: GatewayTerminal)
    requires Local(s, id) && gateway.surface == ActionSurface && IngestActionArtifact(s, id, runId, artifact, gateway).Ok?
    ensures var p := IngestActionArtifact(s, id, runId, artifact, gateway).value;
      p.Some? ==> Landed(s, p.value, id, ActionSurface, ReportedRun(artifact, gateway, runId))
  {
    hide Local, Landed, ApplyActionFailure, ApplyActionRejection, ApplyActionCompletion, RecordNativeDispatchEvidenceFailure;
    if IdentityMismatch(gateway) {
      EvidenceFailureLands(s, id, runId, Conclusion(gateway), "bound_executor_identity_mismatch");
    } else if artifact.InvalidJson? {
      EvidenceFailureLands(s, id, runId, Conclusion(gateway),
        if artifact.missing then "missing_execution_result_artifact" else "invalid_execution_result_json");
    } else if !(id in s.queue && s.queue[id].status == Complete) {
      match artifact.result.status
      case FAILED => FailureLands(s, artifact.result);
      case REJECTED => RejectionLands(s, artifact.result);
      case _ => CompletionLands(s, artifact.result);
    }
  }

  // ---------- the other steps ----------

  /** A record carries a run after a step only if it did before, or the step bound that run. */
  ghost predicate CarriesNoMore(s: State, t: State, bound: Option<int>) {
    forall g: Flight, run: int ::
      CarriedRun(t, g) == Some(run) ==> CarriedRun(s, g) == Some(run) || bound == Some(run)
  }

  lemma IntentCarries(s: State, surface: Surface, id: ActionId, req: DispatchRequest)
    requires RecordIntent(s, surface, id, req).Ok?
    ensures CarriesNoMore(s, RecordIntent(s, surface, id, req).value, None)
  {
    hide RecordActionDispatchIntent, RecordEvidenceDispatchIntent, CarriesNoMore;
    hide RecordDiagnosticDispatchIntent, RecordCorrectiveDispatchIntent;
    match surface
    case ActionSurface => ActionIntentCarries(s, id, req);
    case EvidenceSurface => EvidenceIntentCarries(s, id, req);
    case DiagnosticSurface => DiagnosticIntentCarries(s, id, req);
    case CorrectiveSurface => CorrectiveIntentCarries(s, id, req);
  }

  lemma ActionIntentCarries(s: State, id: ActionId, req: DispatchRequest)
    requires RecordActionDispatchIntent(s, id, req).Ok?
    ensures CarriesNoMore(s, RecordActionDispatchIntent(s, id, req).value, None)
  {
    hide MakeIntent, PlanParses, SameRequest;
  }

  /** A saved intent binds no run. */
  lemma SavedIntentIsUnbound(s: State, id: ActionId, existing: Option<Dispatch>, c: Correlation, req: DispatchRequest)
    ensures var d := SaveIntent(s, id, existing, c, req);
      d.Ok? ==> if existing.Some? then existing == Some(d.value) else DispatchRun(d.value).None?
  {
    hide MakeIntent, SameRequest;
  }

  lemma EvidenceIntentCarries(s: State, id: ActionId, req: DispatchRequest)
    requires RecordEvidenceDispatchIntent(s, id, req).Ok?
    ensures CarriesNoMore(s, RecordEvidenceDispatchIntent(s, id, req).value, None)
  {
    SavedIntentIsUnbound(s, id, s.recoveries[id].evidenceDispatch, EvidenceIdentity(s, id).value, req);
    hide SaveIntent, DispatchRun;
  }

  lemma DiagnosticIntentCarries(s: State, id: ActionId, req: DispatchRequest)
    requires RecordDiagnosticDispatchIntent(s, id, req).Ok?
    ensures CarriesNoMore(s, RecordDiagnosticDispatchIntent(s, id, req).value, None)
  {
    SavedIntentIsUnbound(s, id, s.recoveries[id].diagnosticDispatch, DiagnosticIdentity(s, id).value, req);
    hide SaveIntent, DispatchRun;
  }

  lemma CorrectiveIntentCarries(s: State, id: ActionId, req: DispatchRequest)
    requires RecordCorrectiveDispatchIntent(s, id, req).Ok?
    ensures CarriesNoMore(s, RecordCorrectiveDispatchIntent(s, id, req).value, None)
  {
    hide CorrectiveIdentity;
    SavedIntentIsUnbound(s, id, s.recoveries[id].correctiveDispatch, CorrectiveIdentity(s, id).value, req);
    hide SaveIntent, DispatchRun;
  }

  lemma PrepareCarries(s: State, ref: string, at: string, head: string)
    requires Prepare(s, ref, at, head).Ok?
    ensures CarriesNoMore(s, Prepare(s, ref, at, head).value, None)
  {
    hide RecordIntent, ToStart, CarriesNoMore;
    var (surface, id) := ToStart(s).value;
    var executor := if surface == ActionSurface then s.queue[id].plan.executor else GithubNative;
    IntentCarries(s, surface, id, DispatchRequest(WorkflowFor(surface, executor).value, ref, at, head));
  }

  lemma ReceiptCarries(s: State, surface: Surface, id: ActionId, receipt: Receipt)
    requires ApplyDispatchReceipt(s, surface, id, receipt).Ok?
    ensures CarriesNoMore(s, ApplyDispatchReceipt(s, surface, id, receipt).value, receipt.workflowRunId)
  {
    hide EvidenceIdentity, DiagnosticIdentity, CorrectiveIdentity, BindReceipt, ReceiptMatches;
    match surface
    case ActionSurface =>
    case EvidenceSurface => BoundCarries(s.recoveries[id].evidenceDispatch, EvidenceIdentity(s, id), receipt);
    case DiagnosticSurface => BoundCarries(s.recoveries[id].diagnosticDispatch, DiagnosticIdentity(s, id), receipt);
    case CorrectiveSurface => BoundCarries(s.recoveries[id].correctiveDispatch, CorrectiveIdentity(s, id), receipt);
  }

  /** Binding a receipt makes the dispatch carry exactly the receipt's run. */
  lemma BoundCarries(existing: Option<Dispatch>, identity: Result<Correlation>, receipt: Receipt)
    ensures var d := BindReceipt(existing, identity, receipt);
      d.Ok? ==> DispatchRun(d.value) == receipt.workflowRunId
  {
  }

  lemma EnqueueCarries(s: State, plan: ActionPlan, progress: Option<string>)
    requires Enqueue(s, plan, progress).Ok?
    ensures CarriesNoMore(s, Enqueue(s, plan, progress).value, None)
  {
  }

  lemma StaleIntentCarries(s: State, ref: string, head: string)
    requires RetireStaleIntent(s, ref, head).Ok?
    ensures CarriesNoMore(s, RetireStaleIntent(s, ref, head).value, None)
  {
    hide Selected;
  }

  lemma OtherStepCarries(s: State, step: Step)
    requires !step.IngestStep?
    ensures CarriesNoMore(s, Next(s, step), Binding(s, step))
  {
    hide Prepare, ApplyDispatchReceipt, Enqueue, RetireStaleIntent;
    if Perform(s, step).Ok? {
      match step
      case EnqueueStep(plan, progress) => EnqueueCarries(s, plan, progress);
      case PrepareStep(ref, at, head) => PrepareCarries(s, ref, at, head);
      case ReceiptStep(surface, id, receipt) => ReceiptCarries(s, surface, id, receipt);
      case StaleIntentStep(ref, head) => StaleIntentCarries(s, ref, head);
      case _ =>
    }
  }

  // ---------- the ledger of bound and consumed runs ----------

  ghost predicate Accounted(s: State, bound: set<int>, consumed: set<int>) {
    && consumed <= bound
    && forall g: Flight, run: int :: CarriedRun(s, g) == Some(run) ==> run in bound && run !in consumed
  }

  lemma LandedIsIdle(s: State, t: State, id: ActionId, surface: Surface, run: int)
    requires SingleFlight(s) && Landed(s, t, id, surface, run)
    ensures forall g: Flight :: CarriedRun(t, g).None?
  {
    forall g: Flight ensures CarriedRun(t, g).None? {
      assert Flies(s, Flight(surface, id));
      assert !Flies(t, Flight(g.surface, id));
      if g.id != id {
        FrameKeepsOthers(s, t, id, g.id);
        assert Flies(t, Flight(g.surface, g.id)) ==> Flies(s, Flight(g.surface, g.id));
      }
      assert g == Flight(g.surface, g.id);
    }
  }

  /** One step: a consumed run was bound before and not consumed before. */
  lemma StepAccounts(s: State, step: Step, bound: set<int>, consumed: set<int>)
    requires Inv(s) && Accounted(s, bound, consumed)
    requires Binding(s, step).Some? ==> Binding(s, step).value !in bound
    ensures Consumption(s, step).Some? ==> Consumption(s, step).value in bound - consumed
    ensures Accounted(Next(s, step), bound + Elements(Listed(Binding(s, step))),
                      consumed + Elements(Listed(Consumption(s, step))))
  {
    hide Inv, Perform, CarriedRun, Ingest;
    var t := Next(s, step);
    if step.IngestStep? {
      if t != s {
        assert Perform(s, step) == Ingest(s, step.surface, step.runId, step.artifact, step.gateway) by {
          PerformIngest(s, step);
        }
        IngestLands(s, step.surface, step.runId, step.artifact, step.gateway);
        InvSingle(s);
        LandedIsIdle(s, t, step.gateway.actionId, step.surface, ReportedRun(step.artifact, step.gateway, step.runId));
      }
    } else {
      OtherStepCarries(s, step);
    }
  }

  lemma PerformIngest(s: State, step: Step)
    requires step.IngestStep?
    ensures Perform(s, step) == Ingest(s, step.surface, step.runId, step.artifact, step.gateway)
  {
  }

  function Elements(xs: seq<int>): set<int> {
    set x | x in xs
  }

  lemma {:induction false} RunAccounts(s: State, steps: seq<Step>, bound: set<int>, consumed: set<int>)
    requires Inv(s) && Accounted(s, bound, consumed)
    requires Distinct(Bindings(s, steps)) && Elements(Bindings(s, steps)) !! bound
    ensures Distinct(Consumptions(s, steps)) && Elements(Consumptions(s, steps)) !! consumed
    ensures Accounted(Run(s, steps), bound + Elements(Bindings(s, steps)), consumed + Elements(Consumptions(s, steps)))
    decreases |steps|
  {
    hide Inv, Next, Accounted, Binding, Consumption;
    if steps == [] {
      assert bound + Elements(Bindings(s, steps)) == bound;
      assert consumed + Elements(Consumptions(s, steps)) == consumed;
    } else {
      var t, rest := Next(s, steps[0]), steps[1..];
      var b, c := Listed(Binding(s, steps[0])), Listed(Consumption(s, steps[0]));
      Heads(Binding(s, steps[0]), Bindings(t, rest));
      StepAccounts(s, steps[0], bound, consumed);
      StepKeeps(s, steps[0]);
      RunAccounts(t, rest, bound + Elements(b), consumed + Elements(c));
      Joined(Consumption(s, steps[0]), Consumptions(t, rest));
      assert bound + Elements(b) + Elements(Bindings(t, rest)) == bound + Elements(Bindings(s, steps));
      assert consumed + Elements(c) + Elements(Consumptions(t, rest)) == consumed + Elements(Consumptions(s, steps));
    }
  }

  lemma Heads(o: Option<int>, xs: seq<int>)
    ensures Elements(Listed(o) + xs) == Elements(Listed(o)) + Elements(xs)
    ensures Distinct(Listed(o) + xs) ==> Distinct(xs) && Elements(Listed(o)) !! Elements(xs)
  {
    var all := Listed(o) + xs;
    if Distinct(all) {
      forall i, j | 0 <= i < j < |xs| ensures xs[i] != xs[j] {
        assert all[i + |Listed(o)|] == xs[i] && all[j + |Listed(o)|] == xs[j];
      }
      if o.Some? {
        forall i | 0 <= i < |xs| ensures xs[i] != o.value {
          assert all[0] == o.value && all[i + 1] == xs[i];
        }
      }
    }
  }

  lemma Joined(o: Option<int>, xs: seq<int>)
    requires Distinct(xs) && Elements(Listed(o)) !! Elements(xs)
    ensures Elements(Listed(o) + xs) == Elements(Listed(o)) + Elements(xs)
    ensures Distinct(Listed(o) + xs)
  {
    var all := Listed(o) + xs;
    forall i, j | 0 <= i < j < |all| ensures all[i] != all[j] {
      if i < |Listed(o)| {
        assert all[i] in Elements(Listed(o)) && all[j] in Elements(xs);
      }
    }
  }

  /** When no workflow run id is bound twice, no run's artifact ever changes the state twice, whatever is
      replayed, requeued or redispatched in between.  On the diagnostic surface this rests on the protocol's
      step, which takes an artifact only while its dispatch is recorded; `DiagnosticReplayExactly` says what
      the function itself would accept. */
  lemma ArtifactsApplyAtMostOnce(start: State, steps: seq<Step>)
    requires IsFresh(start) && Distinct(Bindings(start, steps))
    ensures Distinct(Consumptions(start, steps))
  {
    hide Inv, Bindings, Consumptions, Run, IsFresh;
    FreshAccounted(start);
    RunAccounts(start, steps, {}, {});
  }

  lemma FreshAccounted(start: State)
    requires IsFresh(start)
    ensures Inv(start) && Accounted(start, {}, {})
  {
  }

  /** Once a run's artifact has been applied, every further artifact of that run is a no-op or refused. */
  lemma ReplayChangesNothing(start: State, steps: seq<Step>, replay: Step)
    requires IsFresh(start) && Distinct(Bindings(start, steps))
    requires replay.IngestStep? && replay.surface != DiagnosticSurface
    requires ReportedRun(replay.artifact, replay.gateway, replay.runId) in Consumptions(start, steps)
    ensures Next(Run(start, steps), replay) == Run(start, steps)
  {
    hide Inv, Bindings, Consumptions, Run, IsFresh, Accounted, Perform;
    FreshAccounted(start);
    RunAccounts(start, steps, {}, {});
    RunKeeps(start, steps);
    var s := Run(start, steps);
    StepAccounts(s, replay, Elements(Bindings(start, steps)), Elements(Consumptions(start, steps))) by {
      assert {} + Elements(Bindings(start, steps)) == Elements(Bindings(start, steps));
      assert {} + Elements(Consumptions(start, steps)) == Elements(Consumptions(start, steps));
    }
  }

  // ---------- replaying a diagnostic artifact ----------

  /** When the diagnostic patch is accepted, and what it leaves. */
  lemma PatchIsAcceptedExactly(u: State, id: ActionId, patched: Recovery, p: ArtifactProvenance)
    ensures ApplyDiagnosticPatch(u, id, patched, Some(p)).Ok? <==>
      && id in u.recoveries && u.recoveries[id].status == Open
      && (u.recoveries[id].diagnosticDispatch.None?
          || (ResumeDispatchedDiagnostic(u, id).Ok? && DiagnosticIdentity(u, id).Ok?
              && ProvenanceBinds(p, id, u.recoveries[id].diagnosticDispatch.value, DiagnosticIdentity(u, id).value)))
    ensures ApplyDiagnosticPatch(u, id, patched, Some(p)).Ok? ==>
      ApplyDiagnosticPatch(u, id, patched, Some(p)).value == PutRecovery(u, id, patched.(diagnosticDispatch := None))
  {
    hide ResumeDispatchedDiagnostic, DiagnosticIdentity, ProvenanceBinds;
  }

  lemma BoundPatchCarries(u: State, id: ActionId, patched: Recovery, p: ArtifactProvenance)
    requires ApplyDiagnosticPatch(u, id, patched, Some(p)).Ok? && u.recoveries[id].diagnosticDispatch.Some?
    ensures CarriedRun(u, Flight(DiagnosticSurface, id)) == Some(p.workflowRunId)
  {
    hide DiagnosticIdentity;
  }

  /** Wherever a run has led: an artifact whose run was consumed before is accepted again as a diagnostic patch
      if and only if the recovery is open and no diagnostic dispatch is recorded for it. */
  lemma DiagnosticReplayExactly(start: State, steps: seq<Step>, id: ActionId, patched: Recovery, p: ArtifactProvenance)
    requires IsFresh(start) && Distinct(Bindings(start, steps))
    requires p.workflowRunId in Consumptions(start, steps)
    ensures var u := Run(start, steps);
      ApplyDiagnosticPatch(u, id, patched, Some(p)).Ok? <==>
        id in u.recoveries && u.recoveries[id].status == Open && u.recoveries[id].diagnosticDispatch.None?
  {
    hide Inv, Bindings, Consumptions, Run, IsFresh, ApplyDiagnosticPatch, CarriedRun;
    FreshAccounted(start);
    RunAccounts(start, steps, {}, {});
    var u := Run(start, steps);
    assert p.workflowRunId in Elements(Consumptions(start, steps));
    PatchIsAcceptedExactly(u, id, patched, p);
    if ApplyDiagnosticPatch(u, id, patched, Some(p)).Ok? && u.recoveries[id].diagnosticDispatch.Some? {
      BoundPatchCarries(u, id, patched, p);
    }
  }
}
