/** The typed records the controller keeps in its durable state.
    A SHA-256 identity is represented by the value it is a digest of, so equal
    identities mean equal contents.  The one exception is a plan's idempotency key:
    it orders work as text, so it is a field of the plan and nothing is assumed
    about which plans share it. */
module Records {
  import opened Prelude

  type ActionId = string

  datatype ResearchStage =
    | DefineProblem | AcquireKnowledge | GenerateHypothesis | DesignValidation
    | DesignExperiment | Implement | Execute | Analyze | Decide | Escalate | Completed

  // ---------- action plans (action_plan.py) ----------

  datatype ExecutorKind = RepositoryMutation | GithubActions | GithubNative

  datatype Target = Target(
    number: Option<int>, head: Option<string>, branch: Option<string>, expectedHeadSha: Option<string>)

  datatype Payload = Payload(
    action: Option<string>, resource: Option<string>, target: Option<Target>,
    desiredSha: Option<string>, rest: string)

  datatype DecisionRisk = DecisionRisk(impact: real, uncertainty: real, irreversibility: real)

  datatype ActionPlan = ActionPlan(
    idempotencyKey: ActionId, researchId: string, stage: ResearchStage, executor: ExecutorKind,
    payload: Payload, expectedObservation: string, decisionRisk: Option<DecisionRisk>)

  /** `ActionPlan.from_dict` accepts the stored plan. */
  predicate PlanParses(plan: ActionPlan) {
    plan.stage != Escalate && plan.stage != Completed && plan.researchId != "" && plan.expectedObservation != ""
  }

  // ---------- execution results (execution.py) ----------

  datatype ExecutionStatus = PASS | NOOP | REJECTED | FAILED

  datatype Provenance = Provenance(workflowRunId: int, runAttempt: int, headSha: string, actionId: ActionId)

  datatype ProviderFailure = ProviderFailure(
    provider: string, errorType: string, providerStatus: string, observation: string)

  datatype Verification = Verification(verified: bool, evidence: string)

  datatype Readback = Readback(merged: Option<bool>, prNumber: Option<int>)

  datatype FailureFingerprint = FailureFingerprint(
    executor: ExecutorKind, observation: string, provider: Option<string>,
    errorType: Option<string>, providerStatus: Option<string>)

  datatype Details = Details(
    provider: Option<string>, errorType: Option<string>, providerStatus: Option<string>,
    availableProviders: Option<seq<string>>, providerFailures: Option<seq<ProviderFailure>>,
    resolutionVerification: Option<Verification>, before: Option<Readback>, after: Option<Readback>,
    provenance: Option<Provenance>, failureFingerprint: Option<FailureFingerprint>,
    governanceRetryable: Option<bool>, attemptHistory: seq<ExecutionResult>, other: map<string, string>)

  datatype ExecutionResult = ExecutionResult(
    researchId: string, actionId: ActionId, executor: ExecutorKind, status: ExecutionStatus,
    observation: string, retryable: bool, details: Details)

  predicate Succeeded(status: ExecutionStatus) {
    status == PASS || status == NOOP
  }

  function StatusName(status: ExecutionStatus): string {
    match status
    case PASS => "pass"
    case NOOP => "noop"
    case REJECTED => "rejected"
    case FAILED => "failed"
  }

  /** `ExecutionResult.from_dict` accepts the artifact. */
  predicate ResultParses(result: ExecutionResult) {
    result.researchId != "" && result.observation != "" && (Succeeded(result.status) ==> !result.retryable)
  }

  /** `require_execution_provenance(result, workflow_run_id, head_sha)` */
  predicate HasProvenance(result: ExecutionResult, runId: int, headSha: Option<string>) {
    result.details.provenance.Some? &&
    var p := result.details.provenance.value;
    p.workflowRunId >= 1 && p.runAttempt >= 1 && p.headSha != "" && p.actionId == result.actionId
    && p.workflowRunId == runId && (headSha.Some? ==> p.headSha == headSha.value)
  }

  /** `details.update(evidence)` */
  function Update(details: Details, evidence: Details): Details {
    Details(
      Newer(details.provider, evidence.provider),
      Newer(details.errorType, evidence.errorType),
      Newer(details.providerStatus, evidence.providerStatus),
      Newer(details.availableProviders, evidence.availableProviders),
      Newer(details.providerFailures, evidence.providerFailures),
      Newer(details.resolutionVerification, evidence.resolutionVerification),
      Newer(details.before, evidence.before),
      Newer(details.after, evidence.after),
      Newer(details.provenance, evidence.provenance),
      Newer(details.failureFingerprint, evidence.failureFingerprint),
      Newer(details.governanceRetryable, evidence.governanceRetryable),
      if evidence.attemptHistory != [] then evidence.attemptHistory else details.attemptHistory,
      details.other + evidence.other)
  }

  const NO_DETAILS := Details(None, None, None, None, None, None, None, None, None, None, None, [], map[])

  function Newer<T>(before: Option<T>, update: Option<T>): Option<T> {
    if update.Some? then update else before
  }

  // ---------- dispatch records (action_lifecycle.py) ----------

  datatype ActionLifecycle =
    | Pending | IntentSaved | Dispatched | Observing | Terminal | Verified | Complete | Rejected | Suspended

  datatype DispatchIntent = DispatchIntent(
    actionId: ActionId, researchId: string, workflow: string, ref: string,
    requestedAt: string, stateRevision: nat, expectedHeadSha: Option<string>)

  predicate IsSha40(s: string) {
    |s| == 40 && forall i :: 0 <= i < |s| ==> '0' <= s[i] <= '9' || 'a' <= s[i] <= 'f'
  }

  /** What the caller of a `record_*_dispatch_intent` supplies. */
  datatype DispatchRequest = DispatchRequest(workflow: string, ref: string, requestedAt: string, headSha: string)

  datatype WaitFingerprint = WaitFingerprint(phase: DiagnosticPhase, evidence: string)

  datatype DiagnosticPhase = InvestigateRootCause | ApplyCorrectiveAction | VerifyResolution

  datatype AuthorizationToken = AuthorizationToken(
    researchId: string, actionId: ActionId, sourcePlanId: ActionId,
    correctiveAction: string, correctiveProvider: string, status: RecoveryStatus)

  datatype Correlation =
    | ActionCorrelation(actionId: ActionId)
    | EvidenceCorrelation(researchId: string, actionId: ActionId, request: WaitFingerprint)
    | DiagnosticCorrelation(researchId: string, actionId: ActionId, recovery: Recovery)
    | CorrectiveCorrelation(researchId: string, actionId: ActionId, token: AuthorizationToken)

  datatype Receipt = Receipt(
    correlationId: Correlation, workflowRunId: Option<int>, ref: string, workflowPath: Option<string>)

  datatype Dispatch = Dispatch(
    status: ActionLifecycle, correlationId: Correlation, intent: DispatchIntent, receipt: Option<Receipt>)

  /** `str(path).rsplit("/", 1)[-1]` */
  function BaseName(path: string): string {
    if '/' in path then BaseName(path[1..]) else path
  }

  /** A receipt binds an intent when it carries the identity, a run id, the ref and the workflow. */
  predicate ReceiptMatches(receipt: Receipt, intent: DispatchIntent, correlation: Correlation) {
    && receipt.correlationId == correlation
    && receipt.workflowRunId.Some? && receipt.workflowRunId.value >= 1
    && receipt.ref == intent.ref
    && (receipt.workflowPath.Some? ==> BaseName(receipt.workflowPath.value) == intent.workflow)
  }

  // ---------- diagnostic recoveries ----------

  datatype RecoveryStatus = Open | NeedsEvidence | Resolved

  datatype Wait = Wait(fingerprint: WaitFingerprint, attempts: nat)

  datatype Recovery = Recovery(
    status: RecoveryStatus, fingerprint: FailureFingerprint, failure: ExecutionResult,
    rootCause: Option<string>, correctiveAction: Option<string>, correctiveProvider: Option<string>,
    resolutionEvidence: Option<string>, sourcePlan: Option<ActionPlan>, wait: Option<Wait>,
    evidenceRequest: Option<WaitFingerprint>, acquiredEvidence: Option<Details>,
    lastCorrectiveResult: Option<ExecutionResult>, evidenceDispatch: Option<Dispatch>,
    diagnosticDispatch: Option<Dispatch>, correctiveDispatch: Option<Dispatch>)

  predicate Live(recovery: Recovery) {
    recovery.status == Open || recovery.status == NeedsEvidence
  }

  // ---------- the research state (research.py) ----------

  datatype DispatchAttempt = DispatchAttempt(
    workflowRunId: int, conclusion: string, failureKind: string, intent: DispatchIntent, receipt: Receipt)

  datatype RetiredIntent = RetiredIntent(intent: DispatchIntent, observedHeadSha: string)

  datatype Item = Item(
    status: ActionLifecycle, plan: ActionPlan, progress: Option<string>,
    dispatchIntent: Option<DispatchIntent>, dispatchReceipt: Option<Receipt>,
    completionResult: Option<ExecutionResult>,
    attemptHistory: seq<DispatchAttempt>, intentHistory: seq<RetiredIntent>)

  datatype PredispatchStatus = Retryable | Escalated | Blocked | Settled

  datatype InheritedEvidence = InheritedEvidence(verifiedStatus: string, sourceActionId: string)

  datatype StateRetirement = StateRetirement(issueNumber: int, workloadMode: string, retiredFromRevision: nat)

  datatype State = State(
    researchId: string, objective: string, stage: ResearchStage, completedOperationIds: seq<string>,
    executionResults: map<ActionId, ExecutionResult>, recoveries: map<ActionId, Recovery>,
    queue: map<ActionId, Item>, revision: nat, inheritedEvidence: seq<InheritedEvidence>,
    predispatchFailures: map<string, PredispatchStatus>, retirement: Option<StateRetirement>)

  /** A workload as the controller first creates it. */
  predicate IsFresh(s: State) {
    s.executionResults == map[] && s.recoveries == map[] && s.queue == map[] && s.retirement.None?
  }
}
