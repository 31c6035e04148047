/** The protocol really gets there: states with a diagnosis, with a correction in flight, and the two states
    in which a replay or a retry goes wrong are all reached from every new workload. */
module Liveness {
  import opened Prelude
  import opened Records
  import opened Diagnosis
  import opened DurableState
  import opened Ingestion
  import opened Selector
  import opened Protocol
  import opened Preservation
  import opened ControllerTheorems
  import opened AtMostOnce
  import opened CorrectiveTermination
  import opened Limits
  import opened Outcomes
  import CrashSafety

  /** One native action, the executor source it runs from, and the failure its runs report. */
  datatype Trial = Trial(plan: ActionPlan, ref: string, at: string, head: string, retryable: bool, details: Details) {
    function Id(): ActionId {
      plan.idempotencyKey
    }
  }

  predicate TrialOk(c: Trial) {
    && PlanParses(c.plan) && c.plan.researchId != "" && c.plan.executor == GithubNative && c.Id() != ""
    && c.ref != "" && c.at != "" && c.head != "" && IsSha40(c.head)
  }

  // ---------- runs ----------

  lemma StaysReachable(s: State, steps: seq<Step>)
    requires Reachable(s)
    ensures Reachable(Run(s, steps))
  {
    hide Run, IsFresh;
    var start: State, earlier: seq<Step> :| IsFresh(start) && Run(start, earlier) == s;
    CrashSafety.RunAppends(start, earlier, steps);
  }

  lemma NextStaysReachable(s: State, step: Step)
    requires Reachable(s)
    ensures Reachable(Next(s, step))
  {
    hide Reachable, Run;
    CrashSafety.RunOne(s, [step]);
    StaysReachable(s, [step]);
  }

  lemma FreshIsReachable(start: State)
    requires IsFresh(start)
    ensures Reachable(start)
  {
    assert Run(start, []) == start;
  }

  lemma RunTwo(s: State, a: Step, b: Step)
    ensures Run(s, [a, b]) == Next(Next(s, a), b)
  {
    hide Next;
    assert [a, b][1..] == [b];
    CrashSafety.RunOne(Next(s, a), [b]);
  }

  // ---------- the action surface ----------

  /** A workload with the one action and no recovery. */
  predicate OneAction(s: State, c: Trial, status: ActionLifecycle) {
    && s.researchId == c.plan.researchId && s.recoveries == map[] && s.queue.Keys == {c.Id()}
    && s.queue[c.Id()].plan == c.plan && s.queue[c.Id()].status == status
  }

  predicate IntentIs(s: State, c: Trial) {
    c.Id() in s.queue && s.queue[c.Id()].dispatchIntent.Some? &&
    var intent := s.queue[c.Id()].dispatchIntent.value;
    intent.ref == c.ref && intent.expectedHeadSha == Some(c.head) && intent.workflow == "samuel-native-github.yml"
  }

  lemma EnqueueStarts(start: State, c: Trial)
    requires IsFresh(start) && TrialOk(c) && start.researchId == c.plan.researchId
    ensures var t := Next(start, EnqueueStep(c.plan, None)); OneAction(t, c, Pending) && t.executionResults == map[]
  {
  }

  lemma PendingIsSelected(s: State, c: Trial)
    requires OneAction(s, c, Pending)
    ensures ToStart(s) == Some((ActionSurface, c.Id()))
  {
    var id := c.Id();
    assert PendingActions(s.queue) == {id};
    LeReflexive(id);
    FirstUnique(id, {id});
    assert ActionsFlying(s.queue) == {} && EvidenceFlying(s.recoveries) == {};
    assert DiagnosticsFlying(s.recoveries) == {} && CorrectivesFlying(s.recoveries) == {};
    assert CorrectivesReady(s.recoveries) == {} && OpenRecoveries(s.recoveries) == {} && EvidenceReady(s.recoveries) == {};
  }

  function RequestOf(c: Trial, workflow: string): DispatchRequest {
    DispatchRequest(workflow, c.ref, c.at, c.head)
  }

  lemma PrepareSaves(s: State, c: Trial)
    requires TrialOk(c) && OneAction(s, c, Pending)
    ensures var t := Next(s, PrepareStep(c.ref, c.at, c.head));
      OneAction(t, c, IntentSaved) && IntentIs(t, c) && t.executionResults == s.executionResults
  {
    hide ToStart, RecordActionDispatchIntent, OneAction, IntentIs, RecordEvidenceDispatchIntent;
    hide RecordDiagnosticDispatchIntent, RecordCorrectiveDispatchIntent, IsSha40, PlanParses;
    PendingIsSelected(s, c);
    IntentIsSaved(s, c);
  }

  lemma IntentIsSaved(s: State, c: Trial)
    requires TrialOk(c) && OneAction(s, c, Pending)
    ensures c.Id() in s.queue && s.queue[c.Id()].plan.executor == GithubNative
    ensures RecordActionDispatchIntent(s, c.Id(), RequestOf(c, "samuel-native-github.yml")).Ok?
    ensures var t := RecordActionDispatchIntent(s, c.Id(), RequestOf(c, "samuel-native-github.yml")).value;
      OneAction(t, c, IntentSaved) && IntentIs(t, c) && t.executionResults == s.executionResults
  {
    hide IsSha40, PlanParses;
  }

  function ReceiptFor(c: Trial, run: int): Receipt {
    Receipt(ActionCorrelation(c.Id()), Some(run), c.ref, None)
  }

  lemma ReceiptBinds(s: State, c: Trial, run: int)
    requires OneAction(s, c, IntentSaved) && IntentIs(s, c) && run >= 1
    ensures var t := Next(s, ReceiptStep(ActionSurface, c.Id(), ReceiptFor(c, run)));
      Bound(t, c, run) && t.executionResults == s.executionResults
  {
    hide RecordActionDispatch, OneAction, IntentIs;
    ReceiptIsRecorded(s, c, run);
  }

  /** The action is dispatched and bound to `run`. */
  predicate Bound(s: State, c: Trial, run: int) {
    OneAction(s, c, Dispatched) && IntentIs(s, c) && s.queue[c.Id()].dispatchReceipt == Some(ReceiptFor(c, run))
  }

  lemma ReceiptIsRecorded(s: State, c: Trial, run: int)
    requires OneAction(s, c, IntentSaved) && IntentIs(s, c) && run >= 1
    ensures RecordActionDispatch(s, c.Id(), ReceiptFor(c, run)).Ok?
    ensures var t := RecordActionDispatch(s, c.Id(), ReceiptFor(c, run)).value;
      Bound(t, c, run) && t.executionResults == s.executionResults && t.revision == s.revision + 1
  {
  }

  /** The failure a run reports, the same each time but for the run. */
  function FailureOf(c: Trial, run: int): ExecutionResult {
    ExecutionResult(c.plan.researchId, c.Id(), GithubNative, FAILED, "provider unavailable", c.retryable,
      c.details.(provenance := Some(Provenance(run, 1, c.head, c.Id()))))
  }

  function Terminal(surface: Surface, c: Trial, run: int): GatewayTerminal {
    GatewayTerminal(true, surface, run, c.Id(), None)
  }

  lemma FailureIsBound(s: State, c: Trial, run: int)
    requires TrialOk(c) && Bound(s, c, run) && run >= 1
    ensures FailureBound(s, FailureOf(c, run))
    ensures c.Id() in s.queue && s.queue[c.Id()].status == Dispatched && s.researchId == c.plan.researchId
  {
    hide PlanParses, IsSha40;
  }

  function FailureStep(c: Trial, run: int): Step {
    IngestStep(ActionSurface, run, ResultArtifact(FailureOf(c, run)), Terminal(ActionSurface, c, run))
  }

  lemma FailureIsApplied(s: State, c: Trial, run: int)
    requires Reachable(s) && TrialOk(c) && Bound(s, c, run) && run >= 1
    requires Recordable(s, FailureOf(c, run))
    ensures ApplyActionFailure(s, FailureOf(c, run)).Ok?
    ensures Next(s, FailureStep(c, run)) == ApplyActionFailure(s, FailureOf(c, run)).value
  {
    hide Reachable, Recordable, ApplyActionFailure, OneAction, IntentIs, FailureBound, PlanParses, IsSha40;
    FailureIsBound(s, c, run);
    FailureIsIngestedExactly(s, FailureOf(c, run));
    ArtifactIsIngested(s, c, run);
    hide IngestTerminalArtifact, FailureOf;
  }

  lemma ArtifactIsIngested(s: State, c: Trial, run: int)
    requires c.Id() in s.queue && s.queue[c.Id()].status == Dispatched
    requires c.Id() != "" && c.plan.researchId != "" && run >= 1
    ensures IngestTerminalArtifact(s, ActionSurface, run, ResultArtifact(FailureOf(c, run)), Terminal(ActionSurface, c, run))
            == Changed(ApplyActionFailure(s, FailureOf(c, run)))
  {
    hide ApplyActionFailure, ApplyActionCompletion, ApplyActionRejection;
    hide ApplyCorrectiveExecutionResult, ApplyEvidencePatch, ApplyDiagnosticPatch, RecordNativeDispatchEvidenceFailure;
  }

  /** Prepare, then bind: the two steps before a result arrives. */
  function Start(c: Trial, run: int): seq<Step> {
    [PrepareStep(c.ref, c.at, c.head), ReceiptStep(ActionSurface, c.Id(), ReceiptFor(c, run))]
  }

  lemma StartIsBound(s: State, c: Trial, run: int)
    requires Reachable(s) && TrialOk(c) && OneAction(s, c, Pending) && run >= 1
    ensures var w := Run(s, Start(c, run));
      Reachable(w) && Bound(w, c, run) && w.executionResults == s.executionResults
  {
    hide Reachable, Next, OneAction, IntentIs, Run, Bound;
    RunTwo(s, Start(c, run)[0], Start(c, run)[1]);
    PrepareSaves(s, c);
    ReceiptBinds(Next(s, Start(c, run)[0]), c, run);
    StaysReachable(s, Start(c, run));
  }

  /** A first failure that governance calls retryable puts the action back, with its failure on record. */
  lemma FirstFailureRequeues(w: State, c: Trial, run: int)
    requires OneAction(w, c, Dispatched) && w.executionResults == map[] && EffectivelyRetryable(FailureOf(c, run))
    requires ApplyActionFailure(w, FailureOf(c, run)).Ok?
    ensures var t := ApplyActionFailure(w, FailureOf(c, run)).value;
      && OneAction(t, c, Pending) && c.Id() in t.executionResults
      && t.executionResults[c.Id()].status == FAILED && t.executionResults[c.Id()].retryable == c.retryable
      && t.executionResults[c.Id()].details.failureFingerprint == Some(FingerprintOf(FailureOf(c, run)))
  {
    hide HasProvenance, PlanParses;
  }

  lemma SecondFailureRepeats(w: State, c: Trial, first: int, second: int)
    requires c.Id() in w.executionResults
    requires w.executionResults[c.Id()].details.failureFingerprint == Some(FingerprintOf(FailureOf(c, first)))
    ensures RepeatsFailure(w, FailureOf(c, second))
  {
  }

  /** The state after the first attempt. */
  ghost predicate FailedOnce(s: State, c: Trial, first: int) {
    && Reachable(s) && OneAction(s, c, Pending) && c.Id() in s.executionResults
    && s.executionResults[c.Id()].status == FAILED && s.executionResults[c.Id()].retryable == c.retryable
    && s.executionResults[c.Id()].details.failureFingerprint == Some(FingerprintOf(FailureOf(c, first)))
  }

  lemma FirstAttempt(start: State, c: Trial, first: int) returns (w: State, t: State)
    requires IsFresh(start) && TrialOk(c) && start.researchId == c.plan.researchId && first >= 1
    requires EffectivelyRetryable(FailureOf(c, first))
    ensures Reachable(w) && w.executionResults == map[] && FailureBound(w, FailureOf(c, first))
    ensures ApplyActionFailure(w, FailureOf(c, first)) == Ok(t) && FailedOnce(t, c, first)
  {
    hide Reachable, Run, Next, IsFresh, ApplyActionFailure, FailureOf, EffectivelyRetryable, IntentIs, OneAction, PlanParses;
    hide IsSha40, FailureBound;
    FreshIsReachable(start);
    EnqueueStarts(start, c);
    var s0 := Next(start, EnqueueStep(c.plan, None));
    NextStaysReachable(start, EnqueueStep(c.plan, None));
    StartIsBound(s0, c, first);
    w := Run(s0, Start(c, first));
    FailureNames(c, first);
    FailureIsBound(w, c, first);
    FailureIsApplied(w, c, first);
    t := Next(w, FailureStep(c, first));
    NextStaysReachable(w, FailureStep(c, first));
    FirstFailureRequeues(w, c, first);
  }

  lemma FailureNames(c: Trial, run: int)
    ensures FailureOf(c, run).actionId == c.Id() && FailureOf(c, run).researchId == c.plan.researchId
    ensures FailureOf(c, run).retryable == c.retryable
    ensures FailureOf(c, run).details.provenance == Some(Provenance(run, 1, c.head, c.Id()))
  {
  }

  // ---------- a requeued failure that blocks its retry ----------

  /** For every new workload and native plan: a provider-infrastructure failure that does not report itself
      retryable is requeued, its action is dispatched again, and the failure of that bound run is refused. */
  lemma RetriedInfrastructureFailureIsRefused(start: State, c: Trial, first: int, second: int) returns (u: State)
    requires IsFresh(start) && TrialOk(c) && start.researchId == c.plan.researchId
    requires first >= 1 && second >= 1 && first != second
    requires !c.retryable && c.details.errorType == Some("ExecutionKernelError") && Truthy(c.details.provider)
    ensures Reachable(u) && FailureBound(u, FailureOf(c, second))
    ensures ApplyActionFailure(u, FailureOf(c, second)).Err?
  {
    assert EffectivelyRetryable(FailureOf(c, first));
    hide Reachable, Run, Next, IsFresh, ApplyActionFailure, FailureOf, EffectivelyRetryable, OneAction, TrialOk, FailureBound;
    var w, t := FirstAttempt(start, c, first);
    StartIsBound(t, c, second);
    u := Run(t, Start(c, second));
    FailureIsBound(u, c, second);
    FailureNames(c, first);
    FailureNames(c, second);
    BoundIsOwn(w, FailureOf(c, first));
    RequeuedInfrastructureFailureBlocks(w, FailureOf(c, first), Start(c, second), FailureOf(c, second));
  }

  lemma BoundIsOwn(w: State, result: ExecutionResult)
    requires Reachable(w) && FailureBound(w, result) && ApplyActionFailure(w, result).Ok?
    ensures result.researchId == w.researchId
  {
    hide Reachable, Recordable, FailureBound, ApplyActionFailure;
    FailureIsIngestedExactly(w, result);
  }

  // ---------- a repeated failure opens diagnosis ----------

  /** A workload with the one action suspended under the recovery `r`. */
  predicate OneRecovery(s: State, c: Trial, r: Recovery) {
    && s.researchId == c.plan.researchId && s.queue.Keys == {c.Id()}
    && s.queue[c.Id()].plan == c.plan && s.queue[c.Id()].status == Suspended
    && s.recoveries == map[c.Id() := r] && r.sourcePlan == Some(c.plan)
  }

  function OpenedBy(c: Trial, run: int): Recovery {
    Recovery(Open, FingerprintOf(FailureOf(c, run)), FailureOf(c, run), None, None, None, None, Some(c.plan), None,
             None, None, None, None, None, None)
  }

  lemma RepeatedFailureOpens(w: State, c: Trial, run: int)
    requires OneAction(w, c, Dispatched) && RepeatsFailure(w, FailureOf(c, run)) && c.retryable
    requires ApplyActionFailure(w, FailureOf(c, run)).Ok?
    ensures OneRecovery(ApplyActionFailure(w, FailureOf(c, run)).value, c, OpenedBy(c, run))
  {
    hide HasProvenance, PlanParses, RepeatsFailure, FingerprintOf, RecordFailure, FailureBound;
    RecordFailureFacts(w, FailureOf(c, run));
    var g := RecordFailure(w, FailureOf(c, run)).value;
    FramedWorkload(w, g, c.Id());
  }

  /** For every new workload and every native plan, two runs that fail alike leave the action suspended under
      a new open recovery holding its plan and the second failure. */
  lemma RepeatedFailureOpensDiagnosis(start: State, c: Trial, first: int, second: int) returns (t: State)
    requires IsFresh(start) && TrialOk(c) && start.researchId == c.plan.researchId && c.retryable
    requires first >= 1 && second >= 1
    ensures Reachable(t) && OneRecovery(t, c, OpenedBy(c, second))
  {
    assert EffectivelyRetryable(FailureOf(c, first));
    hide Reachable, Run, Next, IsFresh, ApplyActionFailure, FailureOf, EffectivelyRetryable, OneAction, FingerprintOf;
    hide TrialOk, FailureBound, RepeatsFailure, IntentIs;
    var _, s := FirstAttempt(start, c, first);
    StartIsBound(s, c, second);
    var w := Run(s, Start(c, second));
    FailureNames(c, second);
    SecondFailureRepeats(w, c, first, second);
    FailureIsApplied(w, c, second);
    RepeatedFailureOpens(w, c, second);
    t := Next(w, FailureStep(c, second));
    NextStaysReachable(w, FailureStep(c, second));
  }

  // ---------- one diagnostic run ----------

  lemma RecoveryIsSelected(s: State, c: Trial, r: Recovery)
    requires OneRecovery(s, c, r) && r.status == Open && r.diagnosticDispatch.None? && r.correctiveDispatch.None?
    requires Truthy(r.correctiveAction) ==> CorrectiveReady(r)
    ensures ToStart(s) == Some((if Truthy(r.correctiveAction) then CorrectiveSurface else DiagnosticSurface, c.Id()))
  {
    LeReflexive(c.Id());
    FirstUnique(c.Id(), {c.Id()});
    RecoverySets(s, c, r);
    hide ActionsFlying, EvidenceFlying, DiagnosticsFlying, CorrectivesFlying, OpenRecoveries, CorrectivesReady, CorrectiveReady;
  }

  lemma RecoverySets(s: State, c: Trial, r: Recovery)
    requires OneRecovery(s, c, r) && r.status == Open && r.diagnosticDispatch.None? && r.correctiveDispatch.None?
    ensures OpenRecoveries(s.recoveries) == {c.Id()}
    ensures CorrectivesReady(s.recoveries) == if CorrectiveReady(r) then {c.Id()} else {}
    ensures ActionsFlying(s.queue) == {} && EvidenceFlying(s.recoveries) == {}
    ensures DiagnosticsFlying(s.recoveries) == {} && CorrectivesFlying(s.recoveries) == {}
    ensures ActionsSupported(s.queue) && RecoveriesSupported(s.recoveries)
    ensures CorrectiveReady(r) ==> Truthy(r.correctiveAction)
  {
  }

  /** The dispatch record of a run of the trial. */
  predicate DispatchIs(d: Dispatch, c: Trial, correlation: Correlation, workflow: string, bound: Option<int>) {
    && d.correlationId == correlation && d.intent.actionId == c.Id() && d.intent.researchId == c.plan.researchId
    && d.intent.ref == c.ref && d.intent.workflow == workflow && d.intent.expectedHeadSha == Some(c.head)
    && (if bound.None? then d.status == IntentSaved
        else d.status == Dispatched && d.receipt == Some(Receipt(correlation, bound, c.ref, None)))
  }

  lemma DispatchIsSaved(s: State, c: Trial, correlation: Correlation, workflow: string)
    requires TrialOk(c) && s.researchId == c.plan.researchId && workflow != ""
    ensures var d := SaveIntent(s, c.Id(), None, correlation, RequestOf(c, workflow));
      d.Ok? && DispatchIs(d.value, c, correlation, workflow, None)
  {
    hide IsSha40, PlanParses;
  }

  lemma DispatchIsBound(d: Dispatch, c: Trial, correlation: Correlation, workflow: string, run: int)
    requires DispatchIs(d, c, correlation, workflow, None) && run >= 1
    ensures var bound := BindReceipt(Some(d), Ok(correlation), Receipt(correlation, Some(run), c.ref, None));
      bound.Ok? && DispatchIs(bound.value, c, correlation, workflow, Some(run)) && bound.value != d
  {
  }

  function DiagnosisOf(c: Trial, r: Recovery): Correlation {
    DiagnosticCorrelation(c.plan.researchId, c.Id(), r.(diagnosticDispatch := None))
  }

  /** A diagnostic run of `r` is in flight, bound to `run` if given. */
  predicate Diagnosing(s: State, c: Trial, r: Recovery, bound: Option<int>) {
    c.Id() in s.recoveries && s.recoveries[c.Id()].diagnosticDispatch.Some? &&
    var d := s.recoveries[c.Id()].diagnosticDispatch.value;
    OneRecovery(s, c, r.(diagnosticDispatch := Some(d)))
    && DispatchIs(d, c, DiagnosisOf(c, r), "samuel-diagnostic-recovery.yml", bound)
  }

  predicate Undiagnosed(r: Recovery) {
    r.status == Open && NoDispatch(r) && !Truthy(r.correctiveAction)
  }

  lemma DiagnosisIsPrepared(s: State, c: Trial, r: Recovery)
    requires TrialOk(c) && OneRecovery(s, c, r) && Undiagnosed(r)
    ensures Diagnosing(Next(s, PrepareStep(c.ref, c.at, c.head)), c, r, None)
  {
    hide ToStart, IsSha40, PlanParses, RecordActionDispatchIntent, RecordEvidenceDispatchIntent;
    hide RecordCorrectiveDispatchIntent, RecordDiagnosticDispatchIntent, Diagnosing;
    RecoveryIsSelected(s, c, r);
    DiagnosticIntentIsSaved(s, c, r);
  }

  lemma DiagnosticIntentIsSaved(s: State, c: Trial, r: Recovery)
    requires TrialOk(c) && OneRecovery(s, c, r) && Undiagnosed(r)
    ensures var t := RecordDiagnosticDispatchIntent(s, c.Id(), RequestOf(c, "samuel-diagnostic-recovery.yml"));
      t.Ok? && Diagnosing(t.value, c, r, None)
  {
    hide IsSha40, PlanParses;
  }

  function DiagnosticReceipt(c: Trial, r: Recovery, run: int): Receipt {
    Receipt(DiagnosisOf(c, r), Some(run), c.ref, None)
  }

  lemma DiagnosisIsBound(s: State, c: Trial, r: Recovery, run: int)
    requires Diagnosing(s, c, r, None) && Undiagnosed(r) && run >= 1
    ensures Diagnosing(Next(s, ReceiptStep(DiagnosticSurface, c.Id(), DiagnosticReceipt(c, r, run))), c, r, Some(run))
  {
    hide RecordDiagnosticDispatch, Diagnosing;
    DiagnosticReceiptIsRecorded(s, c, r, run);
  }

  lemma DiagnosticReceiptIsRecorded(s: State, c: Trial, r: Recovery, run: int)
    requires Diagnosing(s, c, r, None) && Undiagnosed(r) && run >= 1
    ensures var t := RecordDiagnosticDispatch(s, c.Id(), DiagnosticReceipt(c, r, run));
      t.Ok? && t.value.revision == s.revision + 1 && Diagnosing(t.value, c, r, Some(run))
  {
  }

  /** The artifact of the diagnostic run: what it computed, and its provenance. */
  function DiagnosticArtifactOf(c: Trial, r: Recovery, outcome: Recovery, run: int): Artifact {
    DiagnosticArtifact(c.Id(), true, outcome, ArtifactProvenance(run, 1, c.head, c.Id(), DiagnosisOf(c, r)))
  }

  function DiagnosticStep(c: Trial, r: Recovery, outcome: Recovery, run: int): Step {
    IngestStep(DiagnosticSurface, run, DiagnosticArtifactOf(c, r, outcome, run), Terminal(DiagnosticSurface, c, run))
  }

  lemma DiagnosisIsIngested(s: State, c: Trial, r: Recovery, outcome: Recovery, run: int)
    requires TrialOk(c) && Diagnosing(s, c, r, Some(run)) && Undiagnosed(r) && run >= 1
    requires DiagnosticOutcome(s.recoveries[c.Id()]) == Ok(outcome) && outcome.sourcePlan == Some(c.plan)
    ensures OneRecovery(Next(s, DiagnosticStep(c, r, outcome, run)), c, outcome.(diagnosticDispatch := None))
  {
    hide DiagnosticOutcome, ApplyDiagnosticPatch, PlanParses, IsSha40;
    PatchIsApplied(s, c, r, outcome, run);
    hide Diagnosing, OneRecovery, Undiagnosed;
  }

  lemma PatchIsApplied(s: State, c: Trial, r: Recovery, outcome: Recovery, run: int)
    requires TrialOk(c) && Diagnosing(s, c, r, Some(run)) && Undiagnosed(r) && run >= 1
    requires outcome.sourcePlan == Some(c.plan)
    ensures var t := ApplyDiagnosticPatch(s, c.Id(), outcome, Some(DiagnosticArtifactOf(c, r, outcome, run).diagnosticProvenance));
      t.Ok? && OneRecovery(t.value, c, outcome.(diagnosticDispatch := None))
  {
    hide PlanParses, IsSha40;
  }

  /** A round: prepare, bind and ingest one diagnostic run. */
  lemma DiagnosticRound(s: State, c: Trial, r: Recovery, run: int) returns (w: State, outcome: Recovery)
    requires Reachable(s) && TrialOk(c) && OneRecovery(s, c, r) && Undiagnosed(r) && run >= 1
    ensures Reachable(w) && Diagnosing(w, c, r, Some(run)) && DiagnosticOutcome(w.recoveries[c.Id()]) == Ok(outcome)
    ensures outcome.sourcePlan == Some(c.plan)
    ensures var t := Next(w, DiagnosticStep(c, r, outcome, run));
      Reachable(t) && OneRecovery(t, c, outcome.(diagnosticDispatch := None))
  {
    hide Reachable, Next, TrialOk, OneRecovery, DiagnosticOutcome, Undiagnosed;
    var prepare := PrepareStep(c.ref, c.at, c.head);
    var receipt := ReceiptStep(DiagnosticSurface, c.Id(), DiagnosticReceipt(c, r, run));
    assert Undiagnosed(r) && r.status == Open && !Truthy(r.correctiveAction) && r.sourcePlan == Some(c.plan) by {
      ShapeOf(s, c, r);
    }
    DiagnosisIsPrepared(s, c, r);
    NextStaysReachable(s, prepare);
    DiagnosisIsBound(Next(s, prepare), c, r, run);
    NextStaysReachable(Next(s, prepare), receipt);
    w := Next(Next(s, prepare), receipt);
    RecoveryOf(w, c, r, run);
    UncorrectedOutcome(w.recoveries[c.Id()]);
    outcome := DiagnosticOutcome(w.recoveries[c.Id()]).value;
    OutcomeKeepsPlan(w.recoveries[c.Id()]);
    DiagnosisIsIngested(w, c, r, outcome, run);
    NextStaysReachable(w, DiagnosticStep(c, r, outcome, run));
  }

  lemma ShapeOf(s: State, c: Trial, r: Recovery)
    requires OneRecovery(s, c, r) && Undiagnosed(r)
    ensures r.status == Open && !Truthy(r.correctiveAction) && r.sourcePlan == Some(c.plan)
  {
  }

  lemma RecoveryOf(w: State, c: Trial, r: Recovery, run: int)
    requires Diagnosing(w, c, r, Some(run))
    ensures c.Id() in w.recoveries && w.recoveries[c.Id()] == r.(diagnosticDispatch := w.recoveries[c.Id()].diagnosticDispatch)
    ensures r.sourcePlan == Some(c.plan)
  {
  }

  lemma OutcomeKeepsPlan(r: Recovery)
    requires DiagnosticOutcome(r).Ok?
    ensures DiagnosticOutcome(r).value.sourcePlan == r.sourcePlan
  {
    hide EligibleProviders, RootCauseEvidence;
  }

  // ---------- a correction in flight, and a replay that drops it ----------

  /** The failure names its provider, and another provider is available. */
  predicate Correctable(c: Trial) {
    Truthy(c.details.provider) && Truthy(c.details.errorType) && EligibleProviders(c.details) != {}
  }

  lemma FirstRoundFindsTheCause(c: Trial, run: int, w: Recovery, outcome: Recovery)
    requires Correctable(c) && w == OpenedBy(c, run).(diagnosticDispatch := w.diagnosticDispatch)
    requires DiagnosticOutcome(w) == Ok(outcome)
    ensures outcome.(diagnosticDispatch := None)
            == OpenedBy(c, run).(rootCause := Some(RootCauseEvidence(FailureOf(c, run).details)))
  {
    UncorrectedOutcome(w);
    hide DiagnosticOutcome, RootCauseEvidence, EligibleProviders;
  }

  lemma SecondRoundPlansTheCorrection(c: Trial, run: int, r: Recovery, w: Recovery, outcome: Recovery)
    requires Correctable(c) && r.status == Open && Truthy(r.rootCause) && !Truthy(r.correctiveAction)
    requires r.failure == FailureOf(c, run) && NoDispatch(r) && !Truthy(r.resolutionEvidence)
    requires w == r.(diagnosticDispatch := w.diagnosticDispatch) && DiagnosticOutcome(w) == Ok(outcome)
    ensures var q := outcome.(diagnosticDispatch := None);
      CorrectiveReady(q) && Truthy(q.correctiveAction) && Truthy(q.correctiveProvider) && NoDispatch(q) && q.failure == r.failure
  {
    UncorrectedOutcome(w);
    assert EligibleProviders(w.failure.details) == EligibleProviders(c.details);
    EligibleIsNamed(w.failure.details, First(EligibleProviders(w.failure.details)));
    hide DiagnosticOutcome, EligibleProviders;
  }

  function TokenFor(c: Trial, q: Recovery): AuthorizationToken
    requires q.correctiveAction.Some? && q.correctiveProvider.Some?
  {
    TokenOf(c.plan.researchId, c.Id(), q)
  }

  predicate Correcting(s: State, c: Trial, q: Recovery, bound: Option<int>)
    requires q.correctiveAction.Some? && q.correctiveProvider.Some?
  {
    c.Id() in s.recoveries && s.recoveries[c.Id()].correctiveDispatch.Some? &&
    var d := s.recoveries[c.Id()].correctiveDispatch.value;
    OneRecovery(s, c, q.(correctiveDispatch := Some(d)))
    && DispatchIs(d, c, CorrectiveCorrelation(c.plan.researchId, c.Id(), TokenFor(c, q)), "samuel-native-github.yml", bound)
  }

  lemma CorrectionIsPrepared(s: State, c: Trial, q: Recovery)
    requires TrialOk(c) && OneRecovery(s, c, q) && CorrectiveReady(q) && NoDispatch(q)
    ensures Correcting(Next(s, PrepareStep(c.ref, c.at, c.head)), c, q, None)
  {
    hide ToStart, IsSha40, PlanParses, RecordActionDispatchIntent, RecordEvidenceDispatchIntent;
    hide RecordCorrectiveDispatchIntent, RecordDiagnosticDispatchIntent, Correcting;
    RecoveryIsSelected(s, c, q);
    CorrectiveIntentIsSaved(s, c, q);
  }

  lemma CorrectiveIntentIsSaved(s: State, c: Trial, q: Recovery)
    requires TrialOk(c) && OneRecovery(s, c, q) && CorrectiveReady(q) && NoDispatch(q)
    ensures var t := RecordCorrectiveDispatchIntent(s, c.Id(), RequestOf(c, "samuel-native-github.yml"));
      t.Ok? && Correcting(t.value, c, q, None)
  {
    var correlation := CorrectiveCorrelation(c.plan.researchId, c.Id(), TokenFor(c, q));
    var req := RequestOf(c, "samuel-native-github.yml");
    CorrectionIdentity(s, c, q);
    DispatchIsSaved(s, c, correlation, "samuel-native-github.yml");
    hide SaveIntent, DispatchIs, CorrectiveIdentity, RequestOf;
    assert s.recoveries[c.Id()] == q && q.correctiveDispatch.None?;
    CorrectiveIntentIs(s, c.Id(), req, correlation);
    CorrectingStored(s, c, q, q, SaveIntent(s, c.Id(), None, correlation, req).value, None);
    hide Correcting, RecordCorrectiveDispatchIntent, OneRecovery;
  }

  lemma CorrectingStored(s: State, c: Trial, before: Recovery, q: Recovery, d: Dispatch, bound: Option<int>)
    requires OneRecovery(s, c, before) && q.correctiveAction.Some? && q.correctiveProvider.Some? && q.sourcePlan == Some(c.plan)
    requires DispatchIs(d, c, CorrectiveCorrelation(c.plan.researchId, c.Id(), TokenFor(c, q)), "samuel-native-github.yml", bound)
    ensures Correcting(PutRecovery(s, c.Id(), q.(correctiveDispatch := Some(d))), c, q, bound)
  {
    hide DispatchIs, TokenOf;
  }

  lemma CorrectionIdentity(s: State, c: Trial, q: Recovery)
    requires TrialOk(c) && OneRecovery(s, c, q) && q.status == Open
    requires Truthy(q.rootCause) && Truthy(q.correctiveAction) && Truthy(q.correctiveProvider)
    ensures CorrectiveIdentity(s, c.Id()) == Ok(CorrectiveCorrelation(c.plan.researchId, c.Id(), TokenFor(c, q)))
  {
    hide IsSha40, PlanParses;
  }

  function CorrectiveReceipt(c: Trial, q: Recovery, run: int): Receipt
    requires q.correctiveAction.Some? && q.correctiveProvider.Some?
  {
    Receipt(CorrectiveCorrelation(c.plan.researchId, c.Id(), TokenFor(c, q)), Some(run), c.ref, None)
  }

  lemma CorrectionIsBound(s: State, c: Trial, q: Recovery, run: int)
    requires TrialOk(c) && CorrectiveReady(q) && NoDispatch(q) && Correcting(s, c, q, None) && run >= 1
    ensures Correcting(Next(s, ReceiptStep(CorrectiveSurface, c.Id(), CorrectiveReceipt(c, q, run))), c, q, Some(run))
  {
    hide RecordCorrectiveDispatch, Correcting, PlanParses, IsSha40;
    CorrectiveReceiptIsRecorded(s, c, q, run);
  }

  lemma CorrectiveReceiptIsRecorded(s: State, c: Trial, q: Recovery, run: int)
    requires TrialOk(c) && CorrectiveReady(q) && NoDispatch(q) && Correcting(s, c, q, None) && run >= 1
    ensures var t := RecordCorrectiveDispatch(s, c.Id(), CorrectiveReceipt(c, q, run));
      t.Ok? && t.value.revision == s.revision + 1 && Correcting(t.value, c, q, Some(run))
  {
    var correlation := CorrectiveCorrelation(c.plan.researchId, c.Id(), TokenFor(c, q));
    CorrectionIdentity(s, c, s.recoveries[c.Id()]);
    DispatchIsBound(s.recoveries[c.Id()].correctiveDispatch.value, c, correlation, "samuel-native-github.yml", run);
    hide CorrectiveIdentity, BindReceipt, DispatchIs;
    CorrectiveReceiptIs(s, c.Id(), CorrectiveReceipt(c, q, run), correlation);
    var before := s.recoveries[c.Id()];
    var d := BindReceipt(before.correctiveDispatch, Ok(correlation), CorrectiveReceipt(c, q, run)).value;
    assert before == q.(correctiveDispatch := before.correctiveDispatch);
    assert before.(correctiveDispatch := Some(d)) == q.(correctiveDispatch := Some(d));
    CorrectingStored(s, c, before, q, d, Some(run));
    hide Correcting, RecordCorrectiveDispatch, OneRecovery;
  }

  lemma CorrectiveReceiptIs(s: State, id: ActionId, receipt: Receipt, correlation: Correlation)
    requires id in s.recoveries && s.recoveries[id].status == Open && CorrectiveIdentity(s, id) == Ok(correlation)
    requires BindReceipt(s.recoveries[id].correctiveDispatch, Ok(correlation), receipt).Ok?
    ensures var d := BindReceipt(s.recoveries[id].correctiveDispatch, Ok(correlation), receipt).value;
      RecordCorrectiveDispatch(s, id, receipt) == Ok(
        if s.recoveries[id].correctiveDispatch != Some(d)
        then PutRecovery(s, id, s.recoveries[id].(correctiveDispatch := Some(d))) else s)
  {
    hide BindReceipt, CorrectiveIdentity;
  }

  lemma NewIsUndiagnosed(c: Trial, run: int)
    ensures Undiagnosed(OpenedBy(c, run)) && OpenedBy(c, run).failure == FailureOf(c, run)
  {
  }

  /** What the first round leaves is ready for the second. */
  lemma CauseIsUndiagnosed(c: Trial, run: int, r: Recovery)
    requires r == OpenedBy(c, run).(rootCause := Some(RootCauseEvidence(FailureOf(c, run).details)))
    ensures Undiagnosed(r) && Truthy(r.rootCause) && !Truthy(r.resolutionEvidence) && NoDispatch(r)
    ensures r.failure == FailureOf(c, run)
  {
  }

  /** A planned correction starts: prepare, then bind. */
  lemma CorrectionStarts(s: State, c: Trial, q: Recovery, run: int) returns (u: State, receipt: Receipt)
    requires Reachable(s) && TrialOk(c) && OneRecovery(s, c, q) && CorrectiveReady(q) && NoDispatch(q) && run >= 1
    ensures u == Run(s, [PrepareStep(c.ref, c.at, c.head), ReceiptStep(CorrectiveSurface, c.Id(), receipt)])
    ensures Reachable(u) && Correcting(u, c, q, Some(run))
  {
    hide Reachable, Next, Run, TrialOk, OneRecovery, Correcting;
    receipt := CorrectiveReceipt(c, q, run);
    var prepare, bind := PrepareStep(c.ref, c.at, c.head), ReceiptStep(CorrectiveSurface, c.Id(), receipt);
    CorrectionIsPrepared(s, c, q);
    CorrectionIsBound(Next(s, prepare), c, q, run);
    RunTwo(s, prepare, bind);
    u := Run(s, [prepare, bind]);
    StaysReachable(s, [prepare, bind]);
  }

  /** The replay of `outcome` at `u`, where no diagnostic dispatch is recorded. */
  lemma ReplayIsAccepted(u: State, c: Trial, r: Recovery, q: Recovery, outcome: Recovery, run: int) returns (v: State)
    requires TrialOk(c) && run >= 1 && CorrectiveReady(q) && NoDispatch(q) && q == outcome.(diagnosticDispatch := None)
    requires c.Id() in u.recoveries && u.recoveries[c.Id()].status == Open && u.recoveries[c.Id()].diagnosticDispatch.None?
    requires OneRecovery(u, c, u.recoveries[c.Id()]) && outcome.sourcePlan == Some(c.plan)
    ensures IngestTerminalArtifact(u, DiagnosticSurface, run, DiagnosticArtifactOf(c, r, outcome, run),
                                   Terminal(DiagnosticSurface, c, run)) == Ok(Some(v))
    ensures OneRecovery(v, c, q)
  {
    hide PlanParses, IsSha40, ProvenanceBinds, ResumeDispatchedDiagnostic;
    v := PutRecovery(u, c.Id(), q);
  }

  /** After the replay nothing is in flight, the scheduler starts the correction again, and no result of the
      dropped run is accepted. */
  lemma DroppedIsRestarted(v: State, c: Trial, q: Recovery)
    requires OneRecovery(v, c, q) && CorrectiveReady(q) && NoDispatch(q)
    ensures ToStart(v) == Some((CorrectiveSurface, c.Id()))
    ensures forall k: Surface :: !Flies(v, Flight(k, c.Id()))
    ensures forall result :: ApplyCorrectiveExecutionResult(v, c.Id(), result).Err?
  {
    RecoveryIsSelected(v, c, q);
    hide ToStart, CorrectiveIdentity, HasProvenance, ResolveFromExecutionReceipt;
  }

  lemma CorrectionInFlight(u: State, c: Trial, q: Recovery, run: int)
    requires CorrectiveReady(q) && NoDispatch(q) && Correcting(u, c, q, Some(run))
    ensures CarriedRun(u, Flight(CorrectiveSurface, c.Id())) == Some(run)
    ensures c.Id() in u.recoveries && u.recoveries[c.Id()].status == Open && u.recoveries[c.Id()].diagnosticDispatch.None?
    ensures OneRecovery(u, c, u.recoveries[c.Id()])
  {
  }

  lemma RoundChanges(w: State, t: State, c: Trial, r: Recovery, q: Recovery, run: int)
    requires Diagnosing(w, c, r, Some(run)) && OneRecovery(t, c, q) && NoDispatch(q)
    ensures t != w
  {
  }

  /** From every new workload with a correctable failure the protocol reaches a state `u` in which a correction
      is in flight, bound to the last run, and a diagnostic artifact that was already applied at `w` is accepted
      a second time.  The replay forgets the correction in flight: no result of its run is accepted from then
      on, and the scheduler starts the same correction again. */
  lemma ReplayedDiagnosisDropsTheCorrection(start: State, c: Trial, runs: seq<int>)
    returns (w: State, m: State, u: State, v: State, artifact: Artifact, receipt: Receipt)
    requires IsFresh(start) && TrialOk(c) && start.researchId == c.plan.researchId && c.retryable && Correctable(c)
    requires |runs| == 5 && forall i :: 0 <= i < 5 ==> runs[i] >= 1
    ensures Reachable(w) && m == Next(w, IngestStep(DiagnosticSurface, runs[3], artifact, Terminal(DiagnosticSurface, c, runs[3])))
    ensures m != w && u == Run(m, [PrepareStep(c.ref, c.at, c.head), ReceiptStep(CorrectiveSurface, c.Id(), receipt)])
    ensures Reachable(u) && CarriedRun(u, Flight(CorrectiveSurface, c.Id())) == Some(runs[4])
    ensures IngestTerminalArtifact(u, DiagnosticSurface, runs[3], artifact, Terminal(DiagnosticSurface, c, runs[3])) == Ok(Some(v))
    ensures forall k: Surface :: !Flies(v, Flight(k, c.Id()))
    ensures ToStart(v) == Some((CorrectiveSurface, c.Id()))
    ensures forall result :: ApplyCorrectiveExecutionResult(v, c.Id(), result).Err?
  {
    hide Reachable, Next, TrialOk, OneRecovery, DiagnosticOutcome, Undiagnosed, Run, IsFresh, FailureOf, RootCauseEvidence;
    hide ToStart, IngestTerminalArtifact, ApplyCorrectiveExecutionResult, Diagnosing, CorrectiveReady, Flies, CarriedRun, Correcting;
    hide OpenedBy, Correctable;
    var s0 := RepeatedFailureOpensDiagnosis(start, c, runs[0], runs[1]);
    var s1, r1 := FirstRound(s0, c, runs[1], runs[2]);
    var outcome: Recovery;
    w, outcome := DiagnosticRound(s1, c, r1, runs[3]);
    var q := outcome.(diagnosticDispatch := None);
    RecoveryOf(w, c, r1, runs[3]);
    SecondRoundPlansTheCorrection(c, runs[1], r1, w.recoveries[c.Id()], outcome);
    artifact := DiagnosticArtifactOf(c, r1, outcome, runs[3]);
    m := Next(w, DiagnosticStep(c, r1, outcome, runs[3]));
    RoundChanges(w, m, c, r1, q, runs[3]);
    u, receipt := CorrectionStarts(m, c, q, runs[4]);
    CorrectionInFlight(u, c, q, runs[4]);
    v := ReplayIsAccepted(u, c, r1, q, outcome, runs[3]);
    DroppedIsRestarted(v, c, q);
  }

  /** The first round finds the root cause. */
  lemma FirstRound(s: State, c: Trial, failed: int, run: int) returns (t: State, r: Recovery)
    requires Reachable(s) && TrialOk(c) && OneRecovery(s, c, OpenedBy(c, failed)) && Correctable(c) && run >= 1
    ensures Reachable(t) && OneRecovery(t, c, r) && Undiagnosed(r)
    ensures r.status == Open && Truthy(r.rootCause) && !Truthy(r.correctiveAction) && !Truthy(r.resolutionEvidence)
    ensures NoDispatch(r) && r.failure == FailureOf(c, failed)
  {
    hide Reachable, Next, TrialOk, OneRecovery, DiagnosticOutcome, Undiagnosed, FailureOf, RootCauseEvidence, Diagnosing;
    hide Correctable;
    NewIsUndiagnosed(c, failed);
    var w, outcome := DiagnosticRound(s, c, OpenedBy(c, failed), run);
    RecoveryOf(w, c, OpenedBy(c, failed), run);
    FirstRoundFindsTheCause(c, failed, w.recoveries[c.Id()], outcome);
    t, r := Next(w, DiagnosticStep(c, OpenedBy(c, failed), outcome, run)), outcome.(diagnosticDispatch := None);
    CauseIsUndiagnosed(c, failed, r);
  }
}
