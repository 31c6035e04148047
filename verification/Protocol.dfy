/** The controller as a state machine: one step per durable write, and the joint
    invariant that no single function checks by itself. */
module Protocol {
  import opened Prelude
  import opened Records
  import opened Diagnosis
  import opened DurableState
  import opened Ingestion
  import opened Selector

  // ---------- steps ----------

  datatype Step =
    | EnqueueStep(plan: ActionPlan, progress: Option<string>)
    | PrepareStep(ref: string, requestedAt: string, headSha: string)
    | ReceiptStep(receiptSurface: Surface, receiptAction: ActionId, receipt: Receipt)
    | IngestStep(surface: Surface, runId: int, artifact: Artifact, gateway: GatewayTerminal)
    | StaleIntentStep(observedRef: string, observedHead: string)
    | RetireStep(issueNumber: int, workloadMode: string)
    | PredispatchStep(failures: map<string, PredispatchStatus>)

  /** Enqueue a plan that passed the duplicate-action preflight, with its progress claim. */
  function Enqueue(s: State, plan: ActionPlan, progress: Option<string>): Result<State> {
    if plan.idempotencyKey in s.queue then Err("duplicate_action") else
    var queued :- EnqueueSuspendedAction(s, plan);
    if plan.idempotencyKey !in queued.queue then Err("plan was not queued")
    else Ok(queued.(queue := queued.queue[plan.idempotencyKey :=
                      queued.queue[plan.idempotencyKey].(progress := progress)]))
  }

  /** The workflow that runs one surface of one action. */
  function WorkflowFor(surface: Surface, executor: ExecutorKind): Option<string> {
    match surface
    case ActionSurface =>
      (match executor
       case GithubNative => Some("samuel-native-github.yml")
       case RepositoryMutation => Some("samuel-repository-mutation.yml")
       case GithubActions => None)
    case EvidenceSurface => Some("samuel-evidence-acquisition.yml")
    case DiagnosticSurface => Some("samuel-diagnostic-recovery.yml")
    case CorrectiveSurface => Some("samuel-native-github.yml")
  }

  function RecordIntent(s: State, surface: Surface, id: ActionId, req: DispatchRequest): Result<State> {
    match surface
    case ActionSurface => RecordActionDispatchIntent(s, id, req)
    case EvidenceSurface => RecordEvidenceDispatchIntent(s, id, req)
    case DiagnosticSurface => RecordDiagnosticDispatchIntent(s, id, req)
    case CorrectiveSurface => RecordCorrectiveDispatchIntent(s, id, req)
  }

  /** The scheduler's choice with no admitted issue and no legacy work. */
  ghost function Selected(s: State): Result<Option<Work>> {
    Select([], s.recoveries, s.queue, map[])
  }

  /** The surface and action the scheduler wants started now. */
  ghost function ToStart(s: State): Option<(Surface, ActionId)> {
    if Selected(s).Ok? && Selected(s).value.Some? && Selected(s).value.value.Ready?
    then Some((Selected(s).value.value.surface, Selected(s).value.value.actionId))
    else None
  }

  /** `_prepare_dispatch_intent` on the selected work. */
  ghost function Prepare(s: State, ref: string, requestedAt: string, headSha: string): Result<State> {
    if ref == "" || headSha == "" then Err("dispatch intent requires executor_ref and executor_head_sha")
    else if ToStart(s).None? then Err("nothing to start")
    else
      var (surface, id) := ToStart(s).value;
      if surface == ActionSurface && id !in s.queue then Err("action work has no typed plan")
      else
        var executor := if surface == ActionSurface then s.queue[id].plan.executor else GithubNative;
        var workflow := WorkflowFor(surface, executor);
        if workflow.None? then Err("production action executor is not supported")
        else RecordIntent(s, surface, id, DispatchRequest(workflow.value, ref, requestedAt, headSha))
  }

  /** A diagnostic artifact reports what the diagnostic run computed on the recovery it patches,
      for a dispatch the state still records. */
  ghost predicate HonestDiagnosis(s: State, artifact: Artifact) {
    artifact.DiagnosticArtifact? ==>
      var id := artifact.diagnosticAction;
      && id in s.recoveries && s.recoveries[id].diagnosticDispatch.Some?
      && DiagnosticOutcome(s.recoveries[id]).Ok?
      && artifact.recovery.(diagnosticDispatch := None)
         == DiagnosticOutcome(s.recoveries[id]).value.(diagnosticDispatch := None)
  }

  ghost function Ingest(s: State, surface: Surface, runId: int, artifact: Artifact, gateway: GatewayTerminal)
    : Result<State>
  {
    if !HonestDiagnosis(s, artifact) then Err("not an artifact of this recovery")
    else
      match IngestTerminalArtifact(s, surface, runId, artifact, gateway)
      case Ok(Some(proposed)) => Ok(proposed)
      case Ok(None) => Ok(s)
      case Err(e) => Err(e)
  }

  /** Retire an action intent whose executor source moved before the dispatch. */
  ghost function RetireStaleIntent(s: State, observedRef: string, observedHead: string): Result<State> {
    match Selected(s)
    case Ok(Some(InFlightIntent(ActionSurface, id))) =>
      if id !in s.queue || s.queue[id].dispatchIntent.None? then Err("action intent has no durable queue entry")
      else
        var item := s.queue[id];
        var intent := item.dispatchIntent.value;
        if intent.expectedHeadSha.Some? && observedRef != "" && observedHead != ""
           && intent.ref == observedRef && intent.expectedHeadSha.value != observedHead
        then Ok(PutItem(s, id, item.(
          intentHistory := item.intentHistory + [RetiredIntent(intent, observedHead)],
          status := Rejected, dispatchIntent := None, dispatchReceipt := None)))
        else Err("intent is not stale")
    case _ => Err("no action intent in flight")
  }

  ghost function Perform(s: State, step: Step): Result<State> {
    match step
    case EnqueueStep(plan, progress) => Enqueue(s, plan, progress)
    case PrepareStep(ref, at, head) => Prepare(s, ref, at, head)
    case ReceiptStep(surface, id, receipt) => ApplyDispatchReceipt(s, surface, id, receipt)
    case IngestStep(surface, runId, artifact, gateway) => Ingest(s, surface, runId, artifact, gateway)
    case StaleIntentStep(ref, head) => RetireStaleIntent(s, ref, head)
    case RetireStep(issue, mode) => RetireQuiescentState(s, issue, mode)
    case PredispatchStep(failures) => Ok(s.(predispatchFailures := failures, revision := s.revision + 1))
  }

  /** A refused step writes nothing. */
  ghost function Next(s: State, step: Step): State {
    match Perform(s, step)
    case Ok(proposed) => proposed
    case Err(_) => s
  }

  ghost function Run(s: State, steps: seq<Step>): State
    decreases |steps|
  {
    if steps == [] then s else Run(Next(s, steps[0]), steps[1..])
  }

  ghost predicate Reachable(s: State) {
    exists start: State, steps: seq<Step> :: IsFresh(start) && Run(start, steps) == s
  }

  // ---------- the invariant ----------

  datatype Flight = Flight(surface: Surface, id: ActionId)

  /** The in-flight records, one per surface and action. */
  predicate Flies(s: State, f: Flight) {
    match f.surface
    case ActionSurface => f.id in s.queue && Flying(s.queue[f.id].status)
    case EvidenceSurface => f.id in s.recoveries && FliesEvidence(s.recoveries[f.id])
    case DiagnosticSurface => f.id in s.recoveries && FliesDiagnostic(s.recoveries[f.id])
    case CorrectiveSurface => f.id in s.recoveries && FliesCorrective(s.recoveries[f.id])
  }

  ghost predicate SingleFlight(s: State) {
    forall f, g :: Flies(s, f) && Flies(s, g) ==> f == g
  }

  ghost predicate Idle(s: State) {
    forall f :: !Flies(s, f)
  }

  predicate IntentFor(rid: string, id: ActionId, intent: DispatchIntent) {
    intent.actionId == id && intent.researchId == rid
  }

  predicate ItemOk(rid: string, id: ActionId, item: Item) {
    && Supported(item.status)
    && item.plan.idempotencyKey == id && item.plan.researchId == rid
    && (Flying(item.status) ==>
          PlanParses(item.plan) && item.dispatchIntent.Some? && IntentFor(rid, id, item.dispatchIntent.value))
    && (item.status == Dispatched ==>
          && item.dispatchReceipt.Some?
          && ReceiptMatches(item.dispatchReceipt.value, item.dispatchIntent.value, ActionCorrelation(id)))
  }

  predicate DispatchOk(rid: string, id: ActionId, d: Dispatch, correlation: Correlation) {
    && Flying(d.status)
    && d.correlationId == correlation
    && IntentFor(rid, id, d.intent)
    && (d.status == Dispatched ==> d.receipt.Some? && ReceiptMatches(d.receipt.value, d.intent, correlation))
  }

  function TokenOf(rid: string, id: ActionId, r: Recovery): AuthorizationToken
    requires r.correctiveAction.Some? && r.correctiveProvider.Some?
  {
    AuthorizationToken(rid, id, id, r.correctiveAction.value, r.correctiveProvider.value, Open)
  }

  /** The chosen corrective provider is one that has not failed yet. */
  predicate Planned(r: Recovery) {
    Truthy(r.rootCause) && Truthy(r.correctiveAction) && Truthy(r.correctiveProvider)
    && r.correctiveProvider.value in EligibleProviders(r.failure.details)
  }

  predicate OpenOk(rid: string, id: ActionId, r: Recovery) {
    && r.evidenceDispatch.None?
    && (Truthy(r.correctiveAction) ==> Planned(r))
    && (r.correctiveDispatch.Some? ==>
          Truthy(r.correctiveAction) && Planned(r)
          && DispatchOk(rid, id, r.correctiveDispatch.value, CorrectiveCorrelation(rid, id, TokenOf(rid, id, r))))
    && (r.diagnosticDispatch.Some? ==>
          && !Truthy(r.correctiveAction) && r.correctiveDispatch.None?
          && DispatchOk(rid, id, r.diagnosticDispatch.value,
                        DiagnosticCorrelation(rid, id, r.(diagnosticDispatch := None))))
  }

  predicate NeedsEvidenceOk(rid: string, id: ActionId, r: Recovery) {
    && !Truthy(r.correctiveAction) && r.diagnosticDispatch.None? && r.correctiveDispatch.None?
    && r.evidenceRequest.Some?
    && (r.evidenceDispatch.Some? ==>
          DispatchOk(rid, id, r.evidenceDispatch.value, EvidenceCorrelation(rid, id, r.evidenceRequest.value)))
  }

  predicate RecoveryOk(rid: string, id: ActionId, r: Recovery) {
    Live(r) ==>
      && r.sourcePlan.Some? && PlanParses(r.sourcePlan.value) && r.sourcePlan.value.idempotencyKey == id
      && !Truthy(r.resolutionEvidence)
      && (r.status == Open ==> OpenOk(rid, id, r))
      && (r.status == NeedsEvidence ==> NeedsEvidenceOk(rid, id, r))
  }

  predicate LiveAt(s: State, id: ActionId) {
    id in s.recoveries && Live(s.recoveries[id])
  }

  /** Everything the invariant says about one action. */
  predicate Local(s: State, id: ActionId) {
    && (id in s.queue ==> ItemOk(s.researchId, id, s.queue[id]))
    && (id in s.recoveries ==> RecoveryOk(s.researchId, id, s.recoveries[id]))
    && (LiveAt(s, id) ==> id in s.queue && s.queue[id].status == Suspended)
    && (id in s.queue && s.queue[id].status == Suspended ==> LiveAt(s, id) || TerminalFailure(s, id))
  }

  ghost predicate Inv(s: State) {
    (forall id :: Local(s, id)) && SingleFlight(s)
  }

  /** Only the records of `id` differ. */
  ghost predicate Framed(s: State, t: State, id: ActionId) {
    && t.researchId == s.researchId && t.inheritedEvidence == s.inheritedEvidence
    && (forall x :: x != id ==> (x in t.queue <==> x in s.queue))
    && (forall x :: x != id && x in s.queue ==> t.queue[x] == s.queue[x])
    && (forall x :: x != id ==> (x in t.recoveries <==> x in s.recoveries))
    && (forall x :: x != id && x in s.recoveries ==> t.recoveries[x] == s.recoveries[x])
    && (forall x :: x != id ==> (x in t.executionResults <==> x in s.executionResults))
    && (forall x :: x != id && x in s.executionResults ==> t.executionResults[x] == s.executionResults[x])
  }

  ghost predicate NoNewFlight(s: State, t: State, id: ActionId) {
    forall k: Surface :: Flies(t, Flight(k, id)) ==> Flies(s, Flight(k, id))
  }

  ghost predicate OnlyFlight(t: State, id: ActionId, only: Surface) {
    forall k: Surface :: Flies(t, Flight(k, id)) ==> k == only
  }

  lemma FrameKeepsOthers(s: State, t: State, id: ActionId, x: ActionId)
    requires Framed(s, t, id) && x != id
    ensures Local(s, x) ==> Local(t, x)
    ensures forall k: Surface :: Flies(t, Flight(k, x)) ==> Flies(s, Flight(k, x))
  {
  }

  lemma FramePreserves(s: State, t: State, id: ActionId, only: Surface)
    requires Inv(s) && Framed(s, t, id) && Local(t, id)
    requires NoNewFlight(s, t, id)
             || (Idle(s) && OnlyFlight(t, id, only))
    ensures Inv(t)
  {
    forall x ensures Local(t, x) {
      if x != id {
        FrameKeepsOthers(s, t, id, x);
        assert Local(s, x);
      }
    }
    forall f, g | Flies(t, f) && Flies(t, g) ensures f == g {
      if f.id != id {
        FrameKeepsOthers(s, t, id, f.id);
        assert Flies(s, Flight(f.surface, f.id));
      }
      if g.id != id {
        FrameKeepsOthers(s, t, id, g.id);
        assert Flies(s, Flight(g.surface, g.id));
      }
      assert f == Flight(f.surface, f.id) && g == Flight(g.surface, g.id);
    }
  }

  lemma PutItemFrames(s: State, id: ActionId, item: Item)
    ensures Framed(s, PutItem(s, id, item), id)
  {
  }

  lemma PutRecoveryFrames(s: State, id: ActionId, recovery: Recovery)
    ensures Framed(s, PutRecovery(s, id, recovery), id)
  {
  }

  lemma InvLocal(s: State, id: ActionId)
    requires Inv(s)
    ensures Local(s, id)
  {
  }

  /** Replacing one queue entry keeps the invariant when the entry stays lawful. */
  lemma PutItemKeeps(s: State, id: ActionId, item: Item)
    requires Inv(s) && ItemOk(s.researchId, id, item)
    requires LiveAt(s, id) ==> item.status == Suspended
    requires item.status == Suspended ==> LiveAt(s, id) || TerminalFailure(s, id)
    requires Flying(item.status) ==> (id in s.queue && Flying(s.queue[id].status)) || (Idle(s) && !LiveAt(s, id))
    ensures Inv(PutItem(s, id, item))
  {
    hide Inv, Framed, ItemOk, RecoveryOk;
    var t := PutItem(s, id, item);
    InvLocal(s, id);
    PutItemFrames(s, id, item);
    FramePreserves(s, t, id, ActionSurface);
  }

  /** Replacing one recovery keeps the invariant when the recovery stays lawful. */
  lemma PutRecoveryKeeps(s: State, id: ActionId, r: Recovery, only: Surface)
    requires Inv(s) && RecoveryOk(s.researchId, id, r)
    requires LiveAt(s, id) && Live(r)
    requires
      || (Idle(s) && (FliesEvidence(r) ==> only == EvidenceSurface) && (FliesDiagnostic(r) ==> only == DiagnosticSurface)
          && (FliesCorrective(r) ==> only == CorrectiveSurface))
      || ((FliesEvidence(r) ==> FliesEvidence(s.recoveries[id]))
          && (FliesDiagnostic(r) ==> FliesDiagnostic(s.recoveries[id]))
          && (FliesCorrective(r) ==> FliesCorrective(s.recoveries[id])))
    ensures Inv(PutRecovery(s, id, r))
  {
    hide Inv, Framed, ItemOk, RecoveryOk;
    var t := PutRecovery(s, id, r);
    InvLocal(s, id);
    PutRecoveryFrames(s, id, r);
    FramePreserves(s, t, id, only);
  }
}
