/** A live recovery cannot keep starting runs: between two evidence acquisitions the number of
    runs it starts is bounded by the providers it has not yet seen fail. */
module CorrectiveTermination {
  import opened Prelude
  import opened Records
  import opened Diagnosis
  import opened DurableState
  import opened Ingestion
  import opened Selector
  import opened Protocol
  import opened Preservation
  import opened ControllerTheorems
  import opened AtMostOnce

  // ---------- how one step moves one live recovery ----------

  predicate NoDispatch(r: Recovery) {
    r.evidenceDispatch.None? && r.diagnosticDispatch.None? && r.correctiveDispatch.None?
  }

  /** A run was started: its intent is the recovery's only dispatch. */
  predicate Launches(r: Recovery, q: Recovery) {
    NoDispatch(r) &&
    match r.status
    case NeedsEvidence => q.evidenceDispatch.Some? && q == r.(evidenceDispatch := q.evidenceDispatch)
    case Open =>
      if Truthy(r.correctiveAction)
      then q.correctiveDispatch.Some? && q == r.(correctiveDispatch := q.correctiveDispatch)
      else q.diagnosticDispatch.Some? && q == r.(diagnosticDispatch := q.diagnosticDispatch)
    case Resolved => false
  }

  /** A receipt was saved with an intent already there. */
  predicate Binds(r: Recovery, q: Recovery) {
    && q == r.(evidenceDispatch := q.evidenceDispatch, diagnosticDispatch := q.diagnosticDispatch,
               correctiveDispatch := q.correctiveDispatch)
    && (q.evidenceDispatch.Some? == r.evidenceDispatch.Some?)
    && (q.diagnosticDispatch.Some? == r.diagnosticDispatch.Some?)
    && (q.correctiveDispatch.Some? == r.correctiveDispatch.Some?)
  }

  ghost predicate Diagnoses(r: Recovery, q: Recovery) {
    && r.status == Open && !Truthy(r.correctiveAction) && r.diagnosticDispatch.Some?
    && r.evidenceDispatch.None? && r.correctiveDispatch.None?
    && DiagnosticOutcome(r).Ok? && q == DiagnosticOutcome(r).value.(diagnosticDispatch := None)
  }

  ghost predicate Blames(r: Recovery, q: Recovery) {
    && r.status == Open && r.correctiveDispatch.Some? && Planned(r)
    && r.evidenceDispatch.None? && r.diagnosticDispatch.None?
    && exists result :: q == Blamed(r, result)
  }

  /** The recovery is released, or new evidence was acquired for it. */
  predicate EndsEpisode(r: Recovery, q: Recovery) {
    !Live(q) || (r.status == NeedsEvidence && q.status == Open)
  }

  ghost predicate Moves(r: Recovery, q: Recovery) {
    q == r || Launches(r, q) || Binds(r, q) || Diagnoses(r, q) || Blames(r, q) || EndsEpisode(r, q)
  }

  ghost predicate MovesAt(s: State, t: State, id: ActionId) {
    id in s.recoveries && id in t.recoveries && Moves(s.recoveries[id], t.recoveries[id])
  }

  lemma FramedIsStill(s: State, t: State, touched: ActionId, id: ActionId)
    requires Framed(s, t, touched) && touched != id && id in s.recoveries
    ensures MovesAt(s, t, id)
  {
  }

  lemma LiveShape(s: State, id: ActionId)
    requires Inv(s) && LiveAt(s, id)
    ensures id in s.queue && s.queue[id].status == Suspended
    ensures var r := s.recoveries[id];
      && (r.status == Open ==>
            && r.evidenceDispatch.None? && (Truthy(r.correctiveAction) ==> Planned(r))
            && (Truthy(r.correctiveAction) || r.correctiveDispatch.None?)
            && (r.diagnosticDispatch.Some? ==> !Truthy(r.correctiveAction) && r.correctiveDispatch.None?))
      && (r.status == NeedsEvidence ==> r.diagnosticDispatch.None? && r.correctiveDispatch.None?)
  {
    hide Planned, DispatchOk;
    InvLocal(s, id);
  }

  lemma PrepareMoves(s: State, ref: string, at: string, head: string, id: ActionId)
    requires Inv(s) && LiveAt(s, id) && Prepare(s, ref, at, head).Ok?
    ensures MovesAt(s, Prepare(s, ref, at, head).value, id)
  {
    hide Inv, ToStart, RecordIntent, Idle, MovesAt;
    StartFacts(s);
    LiveShape(s, id);
    var (surface, action) := ToStart(s).value;
    var executor := if surface == ActionSurface then s.queue[action].plan.executor else GithubNative;
    var req := DispatchRequest(WorkflowFor(surface, executor).value, ref, at, head);
    IntentMoves(s, surface, action, req, id);
  }

  lemma IntentMoves(s: State, surface: Surface, action: ActionId, req: DispatchRequest, id: ActionId)
    requires LiveAt(s, id) && RecordIntent(s, surface, action, req).Ok?
    requires surface != ActionSurface && action == id ==> NoDispatch(s.recoveries[id])
    requires surface == CorrectiveSurface && action == id ==> Truthy(s.recoveries[id].correctiveAction)
    requires surface == DiagnosticSurface && action == id ==> !Truthy(s.recoveries[id].correctiveAction)
    ensures MovesAt(s, RecordIntent(s, surface, action, req).value, id)
  {
    hide MovesAt, RecordActionDispatchIntent, RecordEvidenceDispatchIntent;
    hide RecordDiagnosticDispatchIntent, RecordCorrectiveDispatchIntent;
    match surface
    case ActionSurface => ActionIntentMoves(s, action, req, id);
    case EvidenceSurface => EvidenceIntentMoves(s, action, req, id);
    case DiagnosticSurface => DiagnosticIntentMoves(s, action, req, id);
    case CorrectiveSurface => CorrectiveIntentMoves(s, action, req, id);
  }

  lemma ActionIntentMoves(s: State, action: ActionId, req: DispatchRequest, id: ActionId)
    requires LiveAt(s, id) && RecordActionDispatchIntent(s, action, req).Ok?
    ensures MovesAt(s, RecordActionDispatchIntent(s, action, req).value, id)
  {
    hide MakeIntent, PlanParses, SameRequest, Launches, Binds, Diagnoses, Blames, EndsEpisode;
  }

  lemma EvidenceIntentMoves(s: State, action: ActionId, req: DispatchRequest, id: ActionId)
    requires LiveAt(s, id) && RecordEvidenceDispatchIntent(s, action, req).Ok?
    requires action == id ==> NoDispatch(s.recoveries[id])
    ensures MovesAt(s, RecordEvidenceDispatchIntent(s, action, req).value, id)
  {
    hide SaveIntent, Binds, Diagnoses, Blames, EndsEpisode;
  }

  lemma DiagnosticIntentMoves(s: State, action: ActionId, req: DispatchRequest, id: ActionId)
    requires LiveAt(s, id) && RecordDiagnosticDispatchIntent(s, action, req).Ok?
    requires action == id ==> NoDispatch(s.recoveries[id]) && !Truthy(s.recoveries[id].correctiveAction)
    ensures MovesAt(s, RecordDiagnosticDispatchIntent(s, action, req).value, id)
  {
    hide SaveIntent, Binds, Diagnoses, Blames, EndsEpisode;
  }

  lemma CorrectiveIntentMoves(s: State, action: ActionId, req: DispatchRequest, id: ActionId)
    requires LiveAt(s, id) && RecordCorrectiveDispatchIntent(s, action, req).Ok?
    requires action == id ==> NoDispatch(s.recoveries[id]) && Truthy(s.recoveries[id].correctiveAction)
    ensures MovesAt(s, RecordCorrectiveDispatchIntent(s, action, req).value, id)
  {
    hide SaveIntent, CorrectiveIdentity, Binds, Diagnoses, Blames, EndsEpisode;
  }

  lemma ReceiptMoves(s: State, surface: Surface, at: ActionId, receipt: Receipt, id: ActionId)
    requires LiveAt(s, id) && ApplyDispatchReceipt(s, surface, at, receipt).Ok?
    ensures MovesAt(s, ApplyDispatchReceipt(s, surface, at, receipt).value, id)
  {
    hide EvidenceIdentity, DiagnosticIdentity, CorrectiveIdentity, BindReceipt, ReceiptMatches;
    hide Launches, Diagnoses, Blames, EndsEpisode;
    match surface
    case ActionSurface =>
    case EvidenceSurface => BoundIsThere(s.recoveries[at].evidenceDispatch, EvidenceIdentity(s, at), receipt);
    case DiagnosticSurface => BoundIsThere(s.recoveries[at].diagnosticDispatch, DiagnosticIdentity(s, at), receipt);
    case CorrectiveSurface => BoundIsThere(s.recoveries[at].correctiveDispatch, CorrectiveIdentity(s, at), receipt);
  }

  lemma BoundIsThere(existing: Option<Dispatch>, identity: Result<Correlation>, receipt: Receipt)
    ensures BindReceipt(existing, identity, receipt).Ok? ==> existing.Some?
  {
  }

  lemma IngestMoves(s: State, surface: Surface, runId: int, artifact: Artifact, gateway: GatewayTerminal, id: ActionId)
    requires Inv(s) && LiveAt(s, id) && Ingest(s, surface, runId, artifact, gateway).Ok?
    requires Ingest(s, surface, runId, artifact, gateway).value != s
    ensures MovesAt(s, Ingest(s, surface, runId, artifact, gateway).value, id)
  {
    hide Inv, Moves, Flies, Framed, DiagnosticOutcome, IngestActionArtifact;
    hide ApplyCorrectiveExecutionResult, ApplyEvidencePatch, ApplyDiagnosticPatch;
    IngestLands(s, surface, runId, artifact, gateway);
    if gateway.actionId != id {
      FramedIsStill(s, Ingest(s, surface, runId, artifact, gateway).value, gateway.actionId, id);
    } else {
      LiveShape(s, id);
      match surface
      case ActionSurface =>
      case CorrectiveSurface => CorrectiveMoves(s, id, artifact.result);
      case EvidenceSurface => EvidenceMoves(s, id, artifact.evidence, artifact.evidenceProvenance);
      case DiagnosticSurface => DiagnosticMoves(s, id, artifact.recovery, artifact.diagnosticProvenance);
    }
  }

  lemma CorrectiveMoves(s: State, id: ActionId, result: ExecutionResult)
    requires Inv(s) && LiveAt(s, id) && ApplyCorrectiveExecutionResult(s, id, result).Ok?
    ensures MovesAt(s, ApplyCorrectiveExecutionResult(s, id, result).value, id)
  {
    hide Inv, ApplyCorrectiveExecutionResult, Framed, Planned;
    LiveShape(s, id);
    CorrectiveCases(s, id, result);
  }

  lemma EvidenceMoves(s: State, id: ActionId, evidence: Details, p: ArtifactProvenance)
    requires LiveAt(s, id) && ApplyEvidencePatch(s, id, evidence, p).Ok?
    ensures MovesAt(s, ApplyEvidencePatch(s, id, evidence, p).value, id)
  {
    hide Update, EvidenceIdentity, ProvenanceBinds;
  }

  lemma DiagnosticMoves(s: State, id: ActionId, patched: Recovery, p: ArtifactProvenance)
    requires Inv(s) && LiveAt(s, id) && ApplyDiagnosticPatch(s, id, patched, Some(p)).Ok?
    requires s.recoveries[id].diagnosticDispatch.Some? && DiagnosticOutcome(s.recoveries[id]).Ok?
    requires patched.(diagnosticDispatch := None)
             == DiagnosticOutcome(s.recoveries[id]).value.(diagnosticDispatch := None)
    ensures MovesAt(s, ApplyDiagnosticPatch(s, id, patched, Some(p)).value, id)
    ensures Diagnoses(s.recoveries[id], ApplyDiagnosticPatch(s, id, patched, Some(p)).value.recoveries[id])
  {
    hide Inv, DiagnosticOutcome, ResumeDispatchedDiagnostic, DiagnosticIdentity, ProvenanceBinds, Planned;
    LiveShape(s, id);
  }

  /** Every step either leaves a live recovery alone or moves it in one of five ways. */
  lemma StepMoves(s: State, step: Step, id: ActionId)
    requires Inv(s) && LiveAt(s, id)
    ensures MovesAt(s, Next(s, step), id)
  {
    hide Inv, Prepare, ApplyDispatchReceipt, Ingest, Selected, Launches, Binds, Diagnoses, Blames, EndsEpisode;
    if Perform(s, step).Ok? && Next(s, step) != s {
      match step
      case PrepareStep(ref, at, head) => PrepareMoves(s, ref, at, head, id);
      case ReceiptStep(surface, action, receipt) => ReceiptMoves(s, surface, action, receipt, id);
      case IngestStep(surface, runId, artifact, gateway) => IngestMoves(s, surface, runId, artifact, gateway, id);
      case _ =>
    }
  }

  // ---------- the measure ----------

  function ProvidersLeft(r: Recovery): nat {
    |EligibleProviders(r.failure.details)|
  }

  function WaitsLeft(r: Recovery, fp: WaitFingerprint): nat {
    if r.wait.Some? && r.wait.value.fingerprint == fp && r.wait.value.attempts >= 1 then 1 else 2
  }

  const NO_PROVIDER := WaitFingerprint(ApplyCorrectiveAction, "no eligible provider proven by capability evidence")
  const NO_EVIDENCE := WaitFingerprint(InvestigateRootCause, "typed failure evidence insufficient")

  /** Runs an open recovery with nothing in flight can still start before it asks for evidence and gets it. */
  function Todo(r: Recovery): nat {
    if Truthy(r.correctiveAction) then 2 * ProvidersLeft(r) + WaitsLeft(r, NO_PROVIDER)
    else if Truthy(r.rootCause) then 2 * ProvidersLeft(r) + 1 + WaitsLeft(r, NO_PROVIDER)
    else if Stuck(r) then 1 + WaitsLeft(r, NO_EVIDENCE)
    else 2 * ProvidersLeft(r) + 4
  }

  /** Runs the recovery can still start in this episode. */
  function StartsLeft(r: Recovery): int {
    match r.status
    case NeedsEvidence => if r.evidenceDispatch.None? then 1 else 0
    case Open => if NoDispatch(r) then Todo(r) else Todo(r) - 1
    case Resolved => 0
  }

  /** Corrective runs the recovery can still start in this episode. */
  function CorrectivesLeft(r: Recovery): int {
    ProvidersLeft(r) - if r.correctiveDispatch.Some? then 1 else 0
  }

  lemma MeasuresAreNatural(r: Recovery)
    requires r.correctiveDispatch.Some? ==> Planned(r)
    ensures StartsLeft(r) >= 0 && CorrectivesLeft(r) >= 0
    ensures StartsLeft(r) <= 2 * ProvidersLeft(r) + 4
  {
    if r.correctiveDispatch.Some? {
      assert r.correctiveProvider.value in EligibleProviders(r.failure.details);
    }
  }

  function Begun(r: Recovery, q: Recovery): nat {
    if NoDispatch(r) && !NoDispatch(q) then 1 else 0
  }

  function CorrectiveBegun(r: Recovery, q: Recovery): nat {
    if r.correctiveDispatch.None? && q.correctiveDispatch.Some? then 1 else 0
  }

  /** A corrective run that fails to verify removes exactly its provider. */
  lemma BlameShrinks(r: Recovery, result: ExecutionResult)
    requires Planned(r)
    ensures EligibleProviders(Blamed(r, result).failure.details)
            == EligibleProviders(r.failure.details) - {r.correctiveProvider.value}
    ensures ProvidersLeft(Blamed(r, result)) == ProvidersLeft(r) - 1
  {
    var d := r.failure.details;
    var e := BlameProvider(d, r.correctiveProvider.value, result);
    BlamedFails(d, r.correctiveProvider.value, result);
    assert EligibleProviders(e) == EligibleProviders(d) - {r.correctiveProvider.value};
  }

  lemma BlamedFails(d: Details, provider: string, result: ExecutionResult)
    requires provider != ""
    ensures FailedProviders(BlameProvider(d, provider, result)) == FailedProviders(d) + {provider}
  {
    var before := d.providerFailures.GetOr([]);
    var e := BlameProvider(d, provider, result);
    var after := e.providerFailures.value;
    forall x | x in FailedProviders(d) + {provider} ensures x in FailedProviders(e) {
      if d.providerFailures.Some? && exists f :: f in before && f.provider == x && x != "" {
        var f :| f in before && f.provider == x;
        assert f in after;
      } else if x == provider {
        assert after[|before|].provider == provider;
      }
    }
  }

  /** Each started run is paid for, and nothing but new evidence refills the budget. */
  lemma MovePays(r: Recovery, q: Recovery)
    requires Live(r) && Moves(r, q) && !EndsEpisode(r, q)
    requires r.status == Open && Truthy(r.correctiveAction) ==> Planned(r)
    ensures StartsLeft(q) + Begun(r, q) <= StartsLeft(r)
    ensures CorrectivesLeft(q) + CorrectiveBegun(r, q) <= CorrectivesLeft(r)
  {
    hide EligibleProviders, Stuck, DiagnosticOutcome, Planned;
    if Blames(r, q) {
      var result :| q == Blamed(r, result);
      BlamePays(r, result);
    } else if Diagnoses(r, q) {
      DiagnosisPays(r, q);
    } else if Launches(r, q) || Binds(r, q) {
      assert ProvidersLeft(q) == ProvidersLeft(r);
      assert Stuck(q) == Stuck(r) by {
        SameEvidence(r, q);
      }
    }
  }

  lemma SameEvidence(r: Recovery, q: Recovery)
    requires q.rootCause == r.rootCause && q.failure == r.failure
    ensures Stuck(q) == Stuck(r)
  {
  }

  lemma BlamePays(r: Recovery, result: ExecutionResult)
    requires Blames(r, Blamed(r, result))
    ensures var q := Blamed(r, result);
      StartsLeft(q) <= StartsLeft(r) && CorrectivesLeft(q) <= CorrectivesLeft(r) && Begun(r, q) == 0
  {
    BlameShrinks(r, result);
    hide BlameProvider, EligibleProviders, Stuck;
    assert Truthy(r.correctiveAction) && Truthy(r.rootCause);
  }

  lemma DiagnosisPays(r: Recovery, q: Recovery)
    requires Diagnoses(r, q)
    ensures StartsLeft(q) <= StartsLeft(r) && CorrectivesLeft(q) <= CorrectivesLeft(r)
    ensures Begun(r, q) == 0 && CorrectiveBegun(r, q) == 0
  {
    UncorrectedOutcome(r);
    hide DiagnosticOutcome, EligibleProviders;
    assert ProvidersLeft(q) == ProvidersLeft(r);
  }

  // ---------- over whole runs ----------

  /** `id` keeps one live recovery through the run, and no evidence is acquired for it. */
  ghost predicate OneEpisode(s: State, steps: seq<Step>, id: ActionId)
    decreases |steps|
  {
    LiveAt(s, id) &&
    (steps != [] ==>
      && id in Next(s, steps[0]).recoveries
      && !EndsEpisode(s.recoveries[id], Next(s, steps[0]).recoveries[id])
      && OneEpisode(Next(s, steps[0]), steps[1..], id))
  }

  ghost function RunsStarted(s: State, steps: seq<Step>, id: ActionId): nat
    requires OneEpisode(s, steps, id)
    decreases |steps|
  {
    if steps == [] then 0
    else Begun(s.recoveries[id], Next(s, steps[0]).recoveries[id]) + RunsStarted(Next(s, steps[0]), steps[1..], id)
  }

  ghost function CorrectivesStarted(s: State, steps: seq<Step>, id: ActionId): nat
    requires OneEpisode(s, steps, id)
    decreases |steps|
  {
    if steps == [] then 0
    else CorrectiveBegun(s.recoveries[id], Next(s, steps[0]).recoveries[id])
         + CorrectivesStarted(Next(s, steps[0]), steps[1..], id)
  }

  lemma {:induction false} EpisodePays(s: State, steps: seq<Step>, id: ActionId)
    requires Inv(s) && OneEpisode(s, steps, id)
    ensures RunsStarted(s, steps, id) <= StartsLeft(s.recoveries[id])
    ensures CorrectivesStarted(s, steps, id) <= CorrectivesLeft(s.recoveries[id])
    decreases |steps|
  {
    hide Inv, Next, Moves, EndsEpisode, Begun, CorrectiveBegun, StartsLeft, CorrectivesLeft, Planned;
    LiveShape(s, id);
    if steps == [] {
      MeasuresAreNatural(s.recoveries[id]);
    } else {
      StepMoves(s, steps[0], id);
      MovePays(s.recoveries[id], Next(s, steps[0]).recoveries[id]);
      StepKeeps(s, steps[0]);
      EpisodePays(Next(s, steps[0]), steps[1..], id);
    }
  }

  /** Between evidence acquisitions a recovery makes at most as many corrective dispatches as it has
      providers not yet seen to fail, and at most four runs more than twice that on all surfaces. */
  lemma RecoveryIsBounded(s: State, steps: seq<Step>, id: ActionId)
    requires Reachable(s) && OneEpisode(s, steps, id)
    ensures CorrectivesStarted(s, steps, id) <= |EligibleProviders(s.recoveries[id].failure.details)|
    ensures RunsStarted(s, steps, id) <= 2 * |EligibleProviders(s.recoveries[id].failure.details)| + 4
  {
    hide Inv, Reachable, OneEpisode, RunsStarted, CorrectivesStarted, Planned, EligibleProviders;
    ReachableInv(s);
    assert LiveAt(s, id) by {
      EpisodeIsLive(s, steps, id);
    }
    LiveShape(s, id);
    MeasuresAreNatural(s.recoveries[id]);
    EpisodePays(s, steps, id);
  }

  lemma EpisodeIsLive(s: State, steps: seq<Step>, id: ActionId)
    requires OneEpisode(s, steps, id)
    ensures LiveAt(s, id)
  {
  }

  // ---------- a stuck recovery asks for evidence ----------

  /** With every provider failed, or no typed failure to reason from, two diagnostic outcomes ask for evidence. */
  lemma StuckOutcomesAskForEvidence(r: Recovery)
    requires r.status == Open && !Truthy(r.correctiveAction) && Stuck(r)
    ensures DiagnosticOutcome(r).Ok?
    ensures var q := DiagnosticOutcome(r).value;
      || q.status == NeedsEvidence
      || (q.status == Open && DiagnosticOutcome(q).Ok? && DiagnosticOutcome(q).value.status == NeedsEvidence)
  {
    UncorrectedOutcome(r);
    hide DiagnosticOutcome, EligibleProviders;
    var q := DiagnosticOutcome(r).value;
    if q.status == Open {
      UncorrectedOutcome(q);
    }
  }

  predicate IsStuck(r: Recovery) {
    Live(r) && !Truthy(r.correctiveAction) && Stuck(r)
  }

  /** Diagnostic runs a stuck recovery can still absorb before it asks for evidence. */
  function DiagnosesLeft(r: Recovery): nat {
    if r.status == NeedsEvidence then 0
    else WaitsLeft(r, if Truthy(r.rootCause) then NO_PROVIDER else NO_EVIDENCE)
  }

  /** The step ingests a diagnostic artifact for `id`. */
  ghost function AppliesDiagnosis(s: State, step: Step, id: ActionId): nat {
    if step.IngestStep? && step.surface == DiagnosticSurface && step.gateway.actionId == id && Next(s, step) != s
    then 1 else 0
  }

  lemma AppliedDiagnosisDiagnoses(s: State, step: Step, id: ActionId)
    requires Inv(s) && LiveAt(s, id) && AppliesDiagnosis(s, step, id) == 1
    ensures id in Next(s, step).recoveries && Diagnoses(s.recoveries[id], Next(s, step).recoveries[id])
  {
    hide Inv, Moves, DiagnosticOutcome, ApplyDiagnosticPatch;
    PerformIngest(s, step);
    DiagnosticMoves(s, id, step.artifact.recovery, step.artifact.diagnosticProvenance);
  }

  lemma StuckMove(r: Recovery, q: Recovery)
    requires IsStuck(r) && Moves(r, q) && !EndsEpisode(r, q)
    ensures IsStuck(q) && DiagnosesLeft(q) <= DiagnosesLeft(r)
    ensures Diagnoses(r, q) ==> DiagnosesLeft(q) + 1 <= DiagnosesLeft(r)
  {
    hide EligibleProviders, DiagnosticOutcome, Stuck;
    if Diagnoses(r, q) {
      UncorrectedOutcome(r);
      SameEvidence(r, q);
    } else if Launches(r, q) || Binds(r, q) {
      SameEvidence(r, q);
    }
  }

  ghost function DiagnosesApplied(s: State, steps: seq<Step>, id: ActionId): nat
    decreases |steps|
  {
    if steps == [] then 0 else AppliesDiagnosis(s, steps[0], id) + DiagnosesApplied(Next(s, steps[0]), steps[1..], id)
  }

  lemma {:induction false} StuckRun(s: State, steps: seq<Step>, id: ActionId)
    requires Inv(s) && OneEpisode(s, steps, id) && IsStuck(s.recoveries[id])
    ensures id in Run(s, steps).recoveries && IsStuck(Run(s, steps).recoveries[id])
    ensures DiagnosesApplied(s, steps, id) + DiagnosesLeft(Run(s, steps).recoveries[id]) <= DiagnosesLeft(s.recoveries[id])
    decreases |steps|
  {
    hide Inv, Next, Moves, EndsEpisode, IsStuck, DiagnosesLeft, AppliesDiagnosis, Diagnoses;
    if steps != [] {
      StepMoves(s, steps[0], id);
      if AppliesDiagnosis(s, steps[0], id) == 1 {
        AppliedDiagnosisDiagnoses(s, steps[0], id);
      }
      assert AppliesDiagnosis(s, steps[0], id) <= 1 by {
        AtMostOneDiagnosis(s, steps[0], id);
      }
      StuckMove(s.recoveries[id], Next(s, steps[0]).recoveries[id]);
      StepKeeps(s, steps[0]);
      StuckRun(Next(s, steps[0]), steps[1..], id);
    }
  }

  lemma AtMostOneDiagnosis(s: State, step: Step, id: ActionId)
    ensures AppliesDiagnosis(s, step, id) <= 1
  {
  }

  /** Over every run within one episode: a stuck recovery absorbs at most two diagnostic artifacts, and once
      it has absorbed two, the state waits for evidence. */
  lemma StuckAsksForEvidence(s: State, steps: seq<Step>, id: ActionId)
    requires Reachable(s) && OneEpisode(s, steps, id) && IsStuck(s.recoveries[id])
    ensures DiagnosesApplied(s, steps, id) <= 2
    ensures DiagnosesApplied(s, steps, id) == 2 ==>
      id in Run(s, steps).recoveries && Run(s, steps).recoveries[id].status == NeedsEvidence
  {
    hide Inv, Reachable, OneEpisode, DiagnosesApplied, Stuck, Run;
    ReachableInv(s);
    assert LiveAt(s, id) by {
      EpisodeIsLive(s, steps, id);
    }
    StuckRun(s, steps, id);
  }
}
