/** What the joint invariant buys, for every reachable state of the controller. */
module ControllerTheorems {
  import opened Prelude
  import opened Records
  import opened Diagnosis
  import opened DurableState
  import opened Ingestion
  import opened Selector
  import opened Protocol
  import opened Preservation

  // ---------- single flight ----------

  lemma AtMostOne(s: set<ActionId>)
    requires forall x, y :: x in s && y in s ==> x == y
    ensures |s| <= 1
  {
    if s != {} {
      var x :| x in s;
      assert s == {x};
    }
  }

  lemma FlightsAreCounted(s: State)
    requires SingleFlight(s)
    ensures FlightCount(s.queue, s.recoveries) <= 1
  {
    var a, e := ActionsFlying(s.queue), EvidenceFlying(s.recoveries);
    var d, c := DiagnosticsFlying(s.recoveries), CorrectivesFlying(s.recoveries);
    assert forall x :: x in a ==> Flies(s, Flight(ActionSurface, x));
    assert forall x :: x in e ==> Flies(s, Flight(EvidenceSurface, x));
    assert forall x :: x in d ==> Flies(s, Flight(DiagnosticSurface, x));
    assert forall x :: x in c ==> Flies(s, Flight(CorrectiveSurface, x));
    AtMostOne(a);
    AtMostOne(e);
    AtMostOne(d);
    AtMostOne(c);
    if a != {} { var x :| x in a; assert e == {} && d == {} && c == {}; }
    if e != {} { var x :| x in e; assert d == {} && c == {}; }
    if d != {} { var x :| x in d; assert c == {}; }
  }

  lemma RecordsAreSupported(s: State)
    requires Inv(s)
    ensures ActionsSupported(s.queue) && RecoveriesSupported(s.recoveries)
  {
    forall id | id in s.queue ensures Supported(s.queue[id].status) {
      InvLocal(s, id);
    }
    forall id | id in s.recoveries ensures RecoverySupported(s.recoveries[id]) {
      InvLocal(s, id);
    }
  }

  ghost predicate AdmissionsMatch(admitted: map<string, Admission>) {
    forall w :: w in admitted ==> admitted[w].workId == w
  }

  /** In every reachable state at most one workflow is in flight across the four surfaces,
      and the scheduler never raises. */
  lemma SchedulerNeverRaises(s: State, legacy: seq<string>, admitted: map<string, Admission>)
    requires Reachable(s) && AdmissionsMatch(admitted)
    ensures FlightCount(s.queue, s.recoveries) <= 1
    ensures Select(legacy, s.recoveries, s.queue, admitted).Ok?
  {
    hide Reachable, Inv;
    ReachableInv(s);
    assert SingleFlight(s) by {
      InvSingle(s);
    }
    FlightsAreCounted(s);
    RecordsAreSupported(s);
    if FlightCount(s.queue, s.recoveries) == 1 {
      InFlightWorkOk(s);
    } else {
      assert IdleWork(legacy, s.recoveries, s.queue, admitted).Ok?;
    }
  }

  lemma InvSingle(s: State)
    requires Inv(s)
    ensures SingleFlight(s)
  {
  }

  lemma InFlightWorkOk(s: State)
    requires Inv(s)
    ensures InFlightWork(s.recoveries, s.queue).Ok?
  {
    hide Inv;
    if ActionsFlying(s.queue) != {} {
      InvLocal(s, First(ActionsFlying(s.queue)));
    } else if CorrectivesFlying(s.recoveries) != {} {
      InvLocal(s, First(CorrectivesFlying(s.recoveries)));
    } else if EvidenceFlying(s.recoveries) != {} {
      InvLocal(s, First(EvidenceFlying(s.recoveries)));
    } else if DiagnosticsFlying(s.recoveries) != {} {
      InvLocal(s, First(DiagnosticsFlying(s.recoveries)));
    }
  }

  /** The stage of an in-flight record. */
  function StageOf(s: State, f: Flight): ActionLifecycle
    requires Flies(s, f)
  {
    match f.surface
    case ActionSurface => s.queue[f.id].status
    case EvidenceSurface => s.recoveries[f.id].evidenceDispatch.value.status
    case DiagnosticSurface => s.recoveries[f.id].diagnosticDispatch.value.status
    case CorrectiveSurface => s.recoveries[f.id].correctiveDispatch.value.status
  }

  lemma OnlyFlightSets(s: State, f: Flight)
    requires SingleFlight(s) && Flies(s, f)
    ensures ActionsFlying(s.queue) == if f.surface == ActionSurface then {f.id} else {}
    ensures EvidenceFlying(s.recoveries) == if f.surface == EvidenceSurface then {f.id} else {}
    ensures DiagnosticsFlying(s.recoveries) == if f.surface == DiagnosticSurface then {f.id} else {}
    ensures CorrectivesFlying(s.recoveries) == if f.surface == CorrectiveSurface then {f.id} else {}
  {
    assert forall x :: x in ActionsFlying(s.queue) ==> Flies(s, Flight(ActionSurface, x));
    assert forall x :: x in EvidenceFlying(s.recoveries) ==> Flies(s, Flight(EvidenceSurface, x));
    assert forall x :: x in DiagnosticsFlying(s.recoveries) ==> Flies(s, Flight(DiagnosticSurface, x));
    assert forall x :: x in CorrectivesFlying(s.recoveries) ==> Flies(s, Flight(CorrectiveSurface, x));
    assert f == Flight(f.surface, f.id);
  }

  lemma FlightHasRecords(s: State, f: Flight)
    requires Local(s, f.id) && Flies(s, f)
    ensures StageOf(s, f) == IntentSaved || StageOf(s, f) == Dispatched
    ensures f.surface == ActionSurface ==> s.queue[f.id].dispatchIntent.Some?
    ensures f.surface == ActionSurface && StageOf(s, f) == Dispatched ==> s.queue[f.id].dispatchReceipt.Some?
    ensures f.surface == EvidenceSurface && StageOf(s, f) == Dispatched ==>
      s.recoveries[f.id].evidenceDispatch.value.receipt.Some?
    ensures f.surface == DiagnosticSurface && StageOf(s, f) == Dispatched ==>
      s.recoveries[f.id].diagnosticDispatch.value.receipt.Some?
    ensures f.surface == CorrectiveSurface && StageOf(s, f) == Dispatched ==>
      s.recoveries[f.id].correctiveDispatch.value.receipt.Some?
  {
  }

  /** In every reachable state the one record in flight is the scheduler's choice, whatever else waits: its
      intent is reconciled, and once it is dispatched its run is observed. */
  lemma FlightIsResumed(s: State, f: Flight, legacy: seq<string>, admitted: map<string, Admission>)
    requires Reachable(s) && Flies(s, f)
    ensures Select(legacy, s.recoveries, s.queue, admitted)
            == Ok(Some(if StageOf(s, f) == IntentSaved then InFlightIntent(f.surface, f.id)
                       else InFlightObservation(f.surface, f.id)))
  {
    hide Reachable, Inv, Flies, StageOf, Local;
    ReachableInv(s);
    InvSingle(s);
    RecordsAreSupported(s);
    InvLocal(s, f.id);
    OnlyFlightSets(s, f);
    FlightHasRecords(s, f);
    LeReflexive(f.id);
    FirstUnique(f.id, {f.id});
    hide ActionsSupported, RecoveriesSupported, ActionsFlying, EvidenceFlying, DiagnosticsFlying, CorrectivesFlying;
    StageIs(s, f);
    OneFlightSelects(s, legacy, admitted);
    hide Select, FlightCount;
  }

  lemma OneFlightSelects(s: State, legacy: seq<string>, admitted: map<string, Admission>)
    requires FlightCount(s.queue, s.recoveries) == 1 && ActionsSupported(s.queue) && RecoveriesSupported(s.recoveries)
    ensures Select(legacy, s.recoveries, s.queue, admitted) == InFlightWork(s.recoveries, s.queue)
  {
    hide FlightCount, ActionsSupported, RecoveriesSupported, InFlightWork, IdleWork;
  }

  lemma StageIs(s: State, f: Flight)
    requires Flies(s, f)
    ensures match f.surface
      case ActionSurface => f.id in s.queue && StageOf(s, f) == s.queue[f.id].status
      case EvidenceSurface =>
        (f.id in s.recoveries && s.recoveries[f.id].evidenceDispatch.Some?
         && StageOf(s, f) == s.recoveries[f.id].evidenceDispatch.value.status)
      case DiagnosticSurface =>
        (f.id in s.recoveries && s.recoveries[f.id].diagnosticDispatch.Some?
         && StageOf(s, f) == s.recoveries[f.id].diagnosticDispatch.value.status)
      case CorrectiveSurface =>
        (f.id in s.recoveries && s.recoveries[f.id].correctiveDispatch.Some?
         && StageOf(s, f) == s.recoveries[f.id].correctiveDispatch.value.status)
  {
  }

  // ---------- resuming never fails ----------

  /** The `resume_*` function of the stage and surface a record is in accepts it. */
  predicate Resumable(s: State, f: Flight) {
    match f.surface
    case ActionSurface => ResumeDispatchIntent(s, f.id).Ok? || ResumeDispatchedAction(s, f.id).Ok?
    case EvidenceSurface => ResumeEvidenceDispatchIntent(s, f.id).Ok? || ResumeDispatchedEvidence(s, f.id).Ok?
    case DiagnosticSurface => ResumeDiagnosticDispatchIntent(s, f.id).Ok? || ResumeDispatchedDiagnostic(s, f.id).Ok?
    case CorrectiveSurface => ResumeCorrectiveDispatchIntent(s, f.id).Ok? || ResumeDispatchedCorrective(s, f.id).Ok?
  }

  lemma LocalResumes(s: State, f: Flight)
    requires Local(s, f.id) && Flies(s, f)
    ensures Resumable(s, f)
  {
    hide CorrectiveIdentity;
    if f.surface == CorrectiveSurface {
      CorrectiveIdentityIs(s, f.id);
    }
  }

  /** The identity recomputed from the current state always equals the one saved with the intent,
      so every in-flight record of a reachable state can be resumed, and nothing else can. */
  lemma ResumeExactlyInFlight(s: State, f: Flight)
    requires Reachable(s)
    ensures Resumable(s, f) <==> Flies(s, f)
  {
    hide Reachable, Inv;
    ReachableInv(s);
    InvLocal(s, f.id);
    if Flies(s, f) {
      LocalResumes(s, f);
    }
  }

  // ---------- no replay while diagnosis is live ----------

  /** While an action has a live recovery it stays suspended, and the scheduler never starts it. */
  lemma NoReplayWhileDiagnosed(s: State, id: ActionId, legacy: seq<string>, admitted: map<string, Admission>)
    requires Reachable(s) && LiveAt(s, id)
    ensures id in s.queue && s.queue[id].status == Suspended
    ensures Select(legacy, s.recoveries, s.queue, admitted) != Ok(Some(Ready(ActionSurface, id)))
  {
    hide Reachable, Inv, Select;
    ReachableInv(s);
    InvLocal(s, id);
    if Select(legacy, s.recoveries, s.queue, admitted) == Ok(Some(Ready(ActionSurface, id))) {
      ChosenActionIsRunnable(s, legacy, admitted, id);
    }
  }

  /** Whatever action the scheduler starts or resumes passes the recoverability guard, and more: the guard lets a
      recovery that waits for evidence pass, but no such action is ever chosen either. */
  lemma ChosenActionsAreRecoverable(s: State, legacy: seq<string>, admitted: map<string, Admission>, id: ActionId)
    requires Reachable(s)
    requires var chosen := Select(legacy, s.recoveries, s.queue, admitted);
      chosen == Ok(Some(Ready(ActionSurface, id))) || chosen == Ok(Some(InFlightIntent(ActionSurface, id)))
      || chosen == Ok(Some(InFlightObservation(ActionSurface, id)))
    ensures RequireActionRecoverable(s, id).Pass? && !LiveAt(s, id)
  {
    hide Reachable, Inv, FlightCount, ActionsSupported, RecoveriesSupported;
    ReachableInv(s);
    InvLocal(s, id);
    ChosenActionIsRunnable(s, legacy, admitted, id);
  }

  lemma ChosenActionIsRunnable(s: State, legacy: seq<string>, admitted: map<string, Admission>, id: ActionId)
    requires var chosen := Select(legacy, s.recoveries, s.queue, admitted);
      chosen == Ok(Some(Ready(ActionSurface, id))) || chosen == Ok(Some(InFlightIntent(ActionSurface, id)))
      || chosen == Ok(Some(InFlightObservation(ActionSurface, id)))
    ensures id in s.queue && s.queue[id].status != Suspended
  {
    hide FlightCount, ActionsSupported, RecoveriesSupported, IdleWork, InFlightWork;
    IdleChoice(s, legacy, admitted);
    InFlightChoice(s);
  }

  lemma IdleChoice(s: State, legacy: seq<string>, admitted: map<string, Admission>)
    ensures var work := IdleWork(legacy, s.recoveries, s.queue, admitted);
      work.Ok? && work.value.Some? ==>
        && !work.value.value.InFlightIntent? && !work.value.value.InFlightObservation?
        && (work.value.value.Ready? && work.value.value.surface == ActionSurface ==>
              work.value.value.actionId in PendingActions(s.queue))
  {
    hide CorrectivesReady, OpenRecoveries, EvidenceReady, PendingActions, AdmittedIds;
  }

  lemma InFlightChoice(s: State)
    ensures var work := InFlightWork(s.recoveries, s.queue);
      work.Ok? && work.value.Some? ==>
        && (work.value.value.InFlightIntent? || work.value.value.InFlightObservation?)
        && (work.value.value.surface == ActionSurface ==> work.value.value.actionId in ActionsFlying(s.queue))
  {
    FlyingIsKnown(s);
    hide ActionsFlying, EvidenceFlying, DiagnosticsFlying, CorrectivesFlying;
  }

  // ---------- quiescence is exactly rollover ----------

  lemma NothingIdle(s: State)
    requires RecoveriesSupported(s.recoveries)
    ensures Select([], s.recoveries, s.queue, map[]) == Ok(None) <==>
      && ActionsSupported(s.queue) && FlightCount(s.queue, s.recoveries) == 0
      && OpenRecoveries(s.recoveries) == {} && EvidenceReady(s.recoveries) == {} && PendingActions(s.queue) == {}
  {
    hide InFlightWork, FlightCount, RecoveriesSupported, ActionsSupported, OpenRecoveries, EvidenceReady, PendingActions;
    hide CorrectivesReady;
    CorrectionsAreOpen(s.recoveries);
    if FlightCount(s.queue, s.recoveries) == 1 {
      InFlightIsSomething(s);
    }
  }

  lemma InFlightIsSomething(s: State)
    requires FlightCount(s.queue, s.recoveries) == 1
    ensures InFlightWork(s.recoveries, s.queue) != Ok(None)
  {
    hide ActionsFlying, EvidenceFlying, DiagnosticsFlying, CorrectivesFlying;
    var a, e := ActionsFlying(s.queue), EvidenceFlying(s.recoveries);
    var d, c := DiagnosticsFlying(s.recoveries), CorrectivesFlying(s.recoveries);
    assert a != {} || e != {} || d != {} || c != {};
    FlyingIsKnown(s);
  }

  lemma FlyingIsKnown(s: State)
    ensures ActionsFlying(s.queue) <= s.queue.Keys
    ensures forall id :: id in EvidenceFlying(s.recoveries) ==> id in s.recoveries && s.recoveries[id].evidenceDispatch.Some?
    ensures forall id :: id in DiagnosticsFlying(s.recoveries) ==> id in s.recoveries && s.recoveries[id].diagnosticDispatch.Some?
    ensures forall id :: id in CorrectivesFlying(s.recoveries) ==> id in s.recoveries && s.recoveries[id].correctiveDispatch.Some?
  {
  }

  lemma NoLiveRecovery(s: State)
    ensures !HasUnresolvedRecovery(s) <==>
      OpenRecoveries(s.recoveries) == {} && EvidenceReady(s.recoveries) == {} && EvidenceFlying(s.recoveries) == {}
  {
    if OpenRecoveries(s.recoveries) == {} && EvidenceReady(s.recoveries) == {} && EvidenceFlying(s.recoveries) == {} {
      forall id | id in s.recoveries ensures !Live(s.recoveries[id]) {
        assert id !in OpenRecoveries(s.recoveries) && id !in EvidenceReady(s.recoveries);
        assert id !in EvidenceFlying(s.recoveries);
      }
    }
  }

  lemma OpenCovers(s: State)
    requires OpenRecoveries(s.recoveries) == {}
    ensures DiagnosticsFlying(s.recoveries) == {} && CorrectivesFlying(s.recoveries) == {}
  {
    assert DiagnosticsFlying(s.recoveries) <= OpenRecoveries(s.recoveries);
    assert CorrectivesFlying(s.recoveries) <= OpenRecoveries(s.recoveries);
  }

  /** Every queued action has reached a terminal status. */
  ghost predicate AllSettled(s: State) {
    forall id :: id in s.queue ==>
      s.queue[id].status == Complete || s.queue[id].status == Rejected
      || (s.queue[id].status == Suspended && TerminalFailure(s, id))
  }

  lemma SettledExactly(s: State)
    requires Inv(s) && !HasUnresolvedRecovery(s)
    ensures AllSettled(s) <==> ActionsFlying(s.queue) == {} && PendingActions(s.queue) == {}
  {
    hide Inv, ItemOk, RecoveryOk, TerminalFailure;
    if ActionsFlying(s.queue) == {} && PendingActions(s.queue) == {} {
      forall id | id in s.queue
        ensures s.queue[id].status == Complete || s.queue[id].status == Rejected
                || (s.queue[id].status == Suspended && TerminalFailure(s, id))
      {
        InvLocal(s, id);
        assert id !in ActionsFlying(s.queue) && id !in PendingActions(s.queue);
        assert Supported(s.queue[id].status) by {
          ItemIsSupported(s, id);
        }
      }
    }
  }

  lemma ItemIsSupported(s: State, id: ActionId)
    requires Local(s, id) && id in s.queue
    ensures Supported(s.queue[id].status)
  {
  }

  /** A workload with queued work and neither a retirement nor an active pre-dispatch failure may
      yield the state slot exactly when the scheduler has nothing left to do. */
  lemma QuiescenceIsRollover(s: State)
    requires Reachable(s) && s.queue != map[] && s.retirement.None? && !ActivePredispatchFailure(s)
    ensures CanRolloverState(s) <==> Selected(s) == Ok(None)
  {
    hide Reachable, Inv, Select, HasUnresolvedRecovery, ActivePredispatchFailure, TerminalFailure;
    ReachableInv(s);
    RecordsAreSupported(s);
    NothingIdle(s);
    NoLiveRecovery(s);
    if OpenRecoveries(s.recoveries) == {} {
      OpenCovers(s);
    }
    if !HasUnresolvedRecovery(s) {
      SettledExactly(s);
      assert CanRolloverState(s) <==> AllSettled(s);
    }
  }

  // ---------- every write advances the revision ----------

  lemma StepAdvances(s: State, step: Step)
    ensures Next(s, step) == s || Next(s, step).revision > s.revision
    ensures Next(s, step).researchId == s.researchId
    ensures Next(s, step).retirement == s.retirement || (step.RetireStep? && s.retirement.None?)
  {
    hide Prepare, Ingest, ApplyDispatchReceipt, Selected;
    match step
    case PrepareStep(ref, at, head) => PrepareAdvances(s, ref, at, head);
    case IngestStep(surface, runId, artifact, gateway) =>
      if Perform(s, step).Ok? {
        IngestAdvances(s, surface, runId, artifact, gateway);
      }
    case ReceiptStep(surface, id, receipt) => ReceiptAdvances(s, surface, id, receipt);
    case _ =>
  }

  predicate Advances(s: State, t: State) {
    t.researchId == s.researchId && t.retirement == s.retirement && (t == s || t.revision > s.revision)
  }

  lemma ReceiptAdvances(s: State, surface: Surface, id: ActionId, receipt: Receipt)
    ensures var r := ApplyDispatchReceipt(s, surface, id, receipt);
      r.Ok? ==> Advances(s, r.value) && r.value.revision == s.revision + 1
  {
    hide ReceiptMatches, EvidenceIdentity, DiagnosticIdentity, CorrectiveIdentity, BindReceipt;
  }

  lemma PrepareAdvances(s: State, ref: string, at: string, head: string)
    ensures var r := Prepare(s, ref, at, head); r.Ok? ==> Advances(s, r.value)
  {
    hide RecordIntent, ToStart;
    if Prepare(s, ref, at, head).Ok? {
      var (surface, id) := ToStart(s).value;
      var executor := if surface == ActionSurface then s.queue[id].plan.executor else GithubNative;
      IntentAdvances(s, surface, id, DispatchRequest(WorkflowFor(surface, executor).value, ref, at, head));
    }
  }

  lemma IntentAdvances(s: State, surface: Surface, id: ActionId, req: DispatchRequest)
    ensures var r := RecordIntent(s, surface, id, req);
      r.Ok? ==> Advances(s, r.value)
  {
    hide SaveIntent, EvidenceIdentity, DiagnosticIdentity, CorrectiveIdentity, MakeIntent;
  }

  lemma IngestAdvances(s: State, surface: Surface, runId: int, artifact: Artifact, gateway: GatewayTerminal)
    requires Ingest(s, surface, runId, artifact, gateway).Ok?
    ensures Advances(s, Ingest(s, surface, runId, artifact, gateway).value)
  {
    hide HonestDiagnosis, IngestActionArtifact, ApplyCorrectiveExecutionResult, ApplyEvidencePatch, ApplyDiagnosticPatch;
    var id := gateway.actionId;
    match surface
    case ActionSurface => IngestActionAdvances(s, id, runId, artifact, gateway);
    case CorrectiveSurface => CorrectiveAdvances(s, id, artifact.result);
    case EvidenceSurface => EvidenceAdvances(s, id, artifact.evidence, artifact.evidenceProvenance);
    case DiagnosticSurface => PatchAdvances(s, id, artifact.recovery, Some(artifact.diagnosticProvenance));
  }

  lemma IngestActionAdvances(s: State, id: ActionId, runId: int, artifact: Artifact, gateway: GatewayTerminal)
    ensures var p := IngestActionArtifact(s, id, runId, artifact, gateway);
      p.Ok? && p.value.Some? ==> Advances(s, p.value.value)
  {
    hide ApplyActionFailure, ApplyActionRejection, ApplyActionCompletion, RecordNativeDispatchEvidenceFailure;
    EvidenceFailureAdvances(s, id, runId, Conclusion(gateway), "bound_executor_identity_mismatch");
    EvidenceFailureAdvances(s, id, runId, Conclusion(gateway), "missing_execution_result_artifact");
    EvidenceFailureAdvances(s, id, runId, Conclusion(gateway), "invalid_execution_result_json");
    if artifact.ResultArtifact? {
      CompletionAdvances(s, artifact.result);
      RejectionAdvances(s, artifact.result);
      FailureAdvances(s, artifact.result);
    }
  }

  lemma EvidenceFailureAdvances(s: State, id: ActionId, runId: int, conclusion: string, kind: string)
    ensures var r := RecordNativeDispatchEvidenceFailure(s, id, runId, conclusion, kind);
      r.Ok? ==> Advances(s, r.value)
  {
  }

  lemma EvidenceAdvances(s: State, id: ActionId, evidence: Details, p: ArtifactProvenance)
    ensures var r := ApplyEvidencePatch(s, id, evidence, p); r.Ok? ==> Advances(s, r.value)
  {
    hide ResumeDispatchedEvidence, EvidenceIdentity, ProvenanceBinds, Update;
  }

  lemma PatchAdvances(s: State, id: ActionId, patched: Recovery, p: Option<ArtifactProvenance>)
    ensures var r := ApplyDiagnosticPatch(s, id, patched, p); r.Ok? ==> Advances(s, r.value)
  {
    hide ResumeDispatchedDiagnostic, DiagnosticIdentity, ProvenanceBinds;
  }

  lemma CompletionAdvances(s: State, result: ExecutionResult)
    ensures ApplyActionCompletion(s, result).Ok? ==> Advances(s, ApplyActionCompletion(s, result).value)
  {
    hide HasProvenance, BoundRun;
  }

  lemma RejectionAdvances(s: State, result: ExecutionResult)
    ensures ApplyActionRejection(s, result).Ok? ==> Advances(s, ApplyActionRejection(s, result).value)
  {
    hide HasProvenance, BoundRun;
  }

  lemma CorrectiveAdvances(s: State, id: ActionId, result: ExecutionResult)
    ensures ApplyCorrectiveExecutionResult(s, id, result).Ok? ==>
      Advances(s, ApplyCorrectiveExecutionResult(s, id, result).value)
  {
    hide ApplyCorrectiveExecutionResult, BlameProvider, ResumeDispatchedCorrective;
    if ApplyCorrectiveExecutionResult(s, id, result).Ok? {
      CorrectiveCases(s, id, result);
    }
  }

  lemma FailureAdvances(s: State, result: ExecutionResult)
    ensures ApplyActionFailure(s, result).Ok? ==> Advances(s, ApplyActionFailure(s, result).value)
  {
    hide HasProvenance, RecordFailure;
    if ApplyActionFailure(s, result).Ok? {
      RecordFailureFacts(s, result);
      RecordFailureWorkload(s, result);
    }
  }

  lemma RecordFailureWorkload(s: State, result: ExecutionResult)
    requires RecordFailure(s, result).Ok?
    ensures RecordFailure(s, result).value.researchId == s.researchId
    ensures RecordFailure(s, result).value.retirement == s.retirement
  {
  }
}
