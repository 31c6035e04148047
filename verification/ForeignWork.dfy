/** cross_repository_workflow.py: the ledger of one Issue of another repository. */
module ForeignWork {
  import opened Prelude
  import opened Records

  const WORK_ID := "github:HyungseonSong-plasma/codeQA:issue:92"
  const TARGET := "HyungseonSong-plasma/codeQA"
  const TARGET_ID := 1424293498
  const EXECUTOR_WORKFLOW := "samuel-codeqa-issue-execute.yml"
  const POLICY_ID := "samuel-codeqa-issue92-execution-v1"
  const ADMITTED_STATUS := "REASONING_REQUIRED_NO_EXECUTABLE_PLAN"

  datatype Phase =
    | ReasoningRequired | ReviewRequired | DispatchReady | WorkDispatched
    | CiPending | RevisionRequired | CiVerified | Blocked

  // ---------- plans and policies ----------

  datatype FileTarget = FileTarget(path: string, branch: string)

  /** The precondition a file proposal carries. */
  datatype Expected = Absent | BlobSha(sha: string) | OtherExpectation

  datatype Content = Content(text: string, utf8Length: nat)

  datatype ForeignPayload = ForeignPayload(
    schemaVersion: int, repository: string, resource: string, action: string, target: Option<FileTarget>,
    expected: Expected, desired: Option<Content>, commitMessage: string, hasUnexpectedFields: bool,
    manifestParses: bool)

  datatype ForeignPlan = ForeignPlan(
    researchId: string, stage: ResearchStage, executor: ExecutorKind, payload: ForeignPayload,
    expectedObservation: string, decisionRisk: Option<DecisionRisk>)

  /** `idempotency_key`: the digest of everything but the risk. */
  datatype PlanKey = PlanKey(
    researchId: string, stage: ResearchStage, executor: ExecutorKind, payload: ForeignPayload, expectedObservation: string)

  function KeyOf(plan: ForeignPlan): PlanKey {
    PlanKey(plan.researchId, plan.stage, plan.executor, plan.payload, plan.expectedObservation)
  }

  /** `_plan_to_dict` drops the risk. */
  function Stored(plan: ForeignPlan): ForeignPlan {
    plan.(decisionRisk := None)
  }

  predicate ForeignPlanParses(plan: ForeignPlan) {
    plan.stage != Escalate && plan.stage != Completed && plan.researchId != "" && plan.expectedObservation != ""
  }

  datatype ForeignPolicy = ForeignPolicy(
    schemaVersion: int, policyId: string, repository: string, repositoryId: int, mergeEnabled: bool, enabled: bool,
    executorWorkflow: string, headBranch: string, pathPrefixes: seq<string>)

  predicate StartsWith(s: string, prefix: string) {
    prefix <= s
  }

  /** `path.split("/")` */
  function Segments(path: string): (segments: seq<string>)
    ensures segments != []
  {
    if path == "" then [""]
    else
      var rest := Segments(path[1..]);
      if path[0] == '/' then [""] + rest else [[path[0]] + rest[0]] + rest[1..]
  }

  predicate PathIsPlain(path: string) {
    path != "" && path[0] != '/' && '\\' !in path
    && forall segment :: segment in Segments(path) ==> segment != "" && segment != "." && segment != ".."
  }

  predicate PolicyPermits(policy: ForeignPolicy, target: FileTarget) {
    && PathIsPlain(target.path)
    && target.branch == policy.headBranch && target.branch != "main" && target.branch != "master"
    && (exists prefix :: prefix in policy.pathPrefixes && StartsWith(target.path, prefix))
    && !StartsWith(target.path, ".github/") && !StartsWith(target.path, "automation/")
    && !StartsWith(target.path, "skills/")
  }

  /** `validate_foreign_plan` */
  predicate PlanAllowed(plan: ForeignPlan, policy: ForeignPolicy) {
    var p := plan.payload;
    && policy.schemaVersion == 1 && policy.policyId == POLICY_ID && policy.repository == TARGET
    && policy.repositoryId == TARGET_ID && !policy.mergeEnabled && policy.enabled
    && policy.executorWorkflow == EXECUTOR_WORKFLOW
    && plan.researchId == WORK_ID && plan.executor == RepositoryMutation
    && p.schemaVersion == 1 && p.repository == TARGET
    && p.resource == "file" && (p.action == "create" || p.action == "update")
    && p.target.Some? && PolicyPermits(policy, p.target.value)
    && !p.hasUnexpectedFields
    && p.desired.Some? && p.desired.value.text != "" && p.desired.value.utf8Length <= 32768
    && p.commitMessage != "" && plan.stage == ResearchStage.Execute && plan.decisionRisk.None?
    && (if p.action == "create" then p.expected == Absent else p.expected.BlobSha? && |p.expected.sha| == 40)
    && p.manifestParses
  }

  // ---------- the ledger ----------

  datatype DispatchReceipt = DispatchReceipt(workflowRunId: int, ref: string)

  datatype TargetPr = TargetPr(number: int, headSha: string, branch: string)

  datatype CiEvidence = CiEvidence(workflow: string, runId: int, headSha: string, status: string, conclusion: string)

  datatype ForeignState = ForeignState(
    workId: string, issueSha: string, baseSha: string, criteriaSha: seq<string>, revision: int, phase: Phase,
    admissionRunId: int, actionPlan: Option<ForeignPlan>, actionId: Option<PlanKey>, receipt: Option<DispatchReceipt>,
    targetPr: Option<TargetPr>, ciEvidence: seq<CiEvidence>, lastFailure: Option<string>)

  predicate IsHex(s: string, length: nat) {
    |s| == length && forall i :: 0 <= i < |s| ==> '0' <= s[i] <= '9' || 'a' <= s[i] <= 'f'
  }

  /** `ForeignWorkState.from_dict` accepts the stored ledger. */
  predicate ValidForeignState(f: ForeignState) {
    && f.workId == WORK_ID && f.revision >= 0 && f.admissionRunId > 0
    && IsHex(f.issueSha, 64) && IsHex(f.baseSha, 40)
    && (f.actionPlan.Some? ==>
          ForeignPlanParses(f.actionPlan.value) && f.actionPlan.value.researchId == WORK_ID
          && f.actionId == Some(KeyOf(f.actionPlan.value)))
    && (f.actionPlan.None? ==> f.actionId.None? && f.receipt.None?)
    && (f.phase in {ReviewRequired, DispatchReady, WorkDispatched, CiPending, CiVerified} ==> f.actionPlan.Some?)
    && (f.phase in {WorkDispatched, CiPending, CiVerified} ==> f.receipt.Some?)
    && (f.phase == CiVerified ==>
          f.targetPr.Some? && f.ciEvidence != []
          && forall e :: e in f.ciEvidence ==> e.conclusion == "success" && e.status == "completed")
  }

  // ---------- admission ----------

  datatype IssueSnapshot = IssueSnapshot(
    workId: string, targetRepository: string, targetRepositoryId: int, targetIssueNumber: int, status: string,
    hasActionPlan: bool, mergeAuthorized: bool, acceptanceCriteria: seq<string>, issueBodySha: string,
    targetBaseSha: string, verifiedSourceRunId: int)

  function FromVerifiedAdmission(snapshot: IssueSnapshot): Result<ForeignState> {
    if !(snapshot.workId == WORK_ID && snapshot.targetRepository == TARGET && snapshot.targetRepositoryId == TARGET_ID
         && snapshot.targetIssueNumber == 92 && snapshot.status == ADMITTED_STATUS && !snapshot.hasActionPlan
         && !snapshot.mergeAuthorized && |snapshot.acceptanceCriteria| >= 1) then
      Err("unverified cross-repository admission")
    else
      Ok(ForeignState(WORK_ID, snapshot.issueBodySha, snapshot.targetBaseSha, snapshot.acceptanceCriteria, 0,
                      ReasoningRequired, snapshot.verifiedSourceRunId, None, None, None, None, [], None))
  }

  const FACTS_CHANGED := "ADMISSION_FACTS_CHANGED"

  function ReconcileAdmission(previous: Option<ForeignState>, snapshot: IssueSnapshot): Result<ForeignState> {
    match FromVerifiedAdmission(snapshot)
    case Err(e) => Err(e)
    case Ok(observed) =>
      if previous.None? then Ok(observed)
      else
        var p := previous.value;
        if p.workId != observed.workId then Err("cross-repository issue substitution")
        else if p.issueSha == observed.issueSha && p.baseSha == observed.baseSha && p.criteriaSha == observed.criteriaSha
        then Ok(p)
        else if p.phase == RevisionRequired && p.lastFailure == Some(FACTS_CHANGED) then Ok(p)
        else Ok(p.(revision := p.revision + 1, phase := RevisionRequired, lastFailure := Some(FACTS_CHANGED)))
  }

  function AdvanceReviewedBase(existing: ForeignState, snapshot: IssueSnapshot): Result<ForeignState> {
    match FromVerifiedAdmission(snapshot)
    case Err(e) => Err(e)
    case Ok(current) =>
      if existing.workId != current.workId || existing.issueSha != current.issueSha
         || existing.criteriaSha != current.criteriaSha || existing.baseSha == current.baseSha
         || existing.phase != RevisionRequired || existing.lastFailure != Some(FACTS_CHANGED)
         || existing.actionPlan.Some? || existing.actionId.Some? || existing.receipt.Some?
         || existing.targetPr.Some? || existing.ciEvidence != [] then
        Err("reviewed base transition preconditions not met")
      else Ok(current.(revision := existing.revision + 1, admissionRunId := snapshot.verifiedSourceRunId))
  }

  // ---------- planning, review, dispatch ----------

  datatype PlanContext = PlanContext(
    workId: string, verified: bool, issueBodySha: string, targetBaseSha: string,
    acceptanceCriteria: seq<string>, completionAllowed: bool)

  /** What the reasoning runner and the decision guard produced. */
  datatype Proposal = NoRunner | NoPlan(guardContinues: bool) | Proposed(plan: ForeignPlan)

  function PlanNextCycle(f: ForeignState, context: PlanContext, proposal: Proposal, policy: ForeignPolicy)
    : Result<ForeignState>
  {
    if f.phase != ReasoningRequired || proposal.NoRunner? then Ok(f)
    else if !(context.workId == WORK_ID && context.verified && context.issueBodySha == f.issueSha
              && context.targetBaseSha == f.baseSha && context.acceptanceCriteria == f.criteriaSha
              && !context.completionAllowed) then Err("reasoning scope no longer verified")
    else
      match proposal
      case NoPlan(continues) =>
        Ok(f.(revision := f.revision + 1, phase := if continues then ReasoningRequired else RevisionRequired,
              lastFailure := if continues then None else Some("NO_APPROVED_ACTION_PLAN")))
      case Proposed(plan) =>
        if !ForeignPlanParses(plan) then Err("invalid action plan")
        else if plan.researchId != WORK_ID then Err("provider returned wrong repository-qualified action")
        else if !PlanAllowed(plan, policy.(enabled := true)) then Err("foreign plan refused")
        else Ok(f.(revision := f.revision + 1, phase := ReviewRequired, actionPlan := Some(Stored(plan)),
                   actionId := Some(KeyOf(plan)), lastFailure := None))
      case NoRunner => Ok(f)
  }

  function ReviewForDispatch(f: ForeignState, policy: ForeignPolicy, approved: PlanKey, expectedRevision: int)
    : Result<ForeignState>
  {
    if f.phase != ReviewRequired || f.revision != expectedRevision || f.actionId != Some(approved)
       || f.actionPlan.None? then Err("stale, absent, or unapproved foreign action")
    else if !(ForeignPlanParses(f.actionPlan.value) && PlanAllowed(f.actionPlan.value, policy)) then
      Err("foreign write policy not separately approved")
    else Ok(f.(revision := f.revision + 1, phase := DispatchReady))
  }

  function RecordDispatch(f: ForeignState, receipt: DispatchReceipt, expectedRevision: int): Result<ForeignState> {
    if f.phase != DispatchReady || f.revision != expectedRevision then Err("stale foreign dispatch attempt")
    else if receipt.workflowRunId < 1 || receipt.ref != "main" then Err("missing real correlated target workflow receipt")
    else Ok(f.(revision := f.revision + 1, phase := WorkDispatched, receipt := Some(receipt)))
  }

  // ---------- CI observation ----------

  datatype PullRequest = PullRequest(
    number: int, draft: bool, merged: bool, state: string, baseRef: string,
    headRepository: string, headSha: string, headRef: string)

  datatype CiRun = CiRun(
    id: int, path: string, headSha: string, headBranch: string, event: string, status: string, conclusion: string)

  predicate PrTrusted(pr: PullRequest) {
    && pr.draft && !pr.merged && pr.state == "open" && pr.baseRef == "main" && pr.headRepository == TARGET
    && |pr.headSha| == 40 && pr.number >= 1 && pr.headRef != "main"
  }

  predicate RunMatches(pr: PullRequest, workflow: string, run: CiRun) {
    && run.path == ".github/workflows/" + workflow && run.headSha == pr.headSha
    && run.headBranch == pr.headRef && run.event == "pull_request"
  }

  function Matches(pr: PullRequest, workflow: string, runs: seq<CiRun>): (found: seq<CiRun>)
    ensures forall r :: r in found <==> r in runs && RunMatches(pr, workflow, r)
  {
    if runs == [] then []
    else (if RunMatches(pr, workflow, runs[0]) then [runs[0]] else []) + Matches(pr, workflow, runs[1..])
  }

  predicate NoRepeats(names: seq<string>) {
    forall i, j :: 0 <= i < j < |names| ==> names[i] != names[j]
  }

  predicate IsRunning(status: string) {
    status == "queued" || status == "in_progress" || status == "waiting" || status == "pending" || status == "requested"
  }

  /** What the runs say about one required workflow. */
  datatype Judgement = Missing | Untrusted | Running(evidence: CiEvidence) | Green(evidence: CiEvidence)
    | Red(evidence: CiEvidence)

  function Judge(pr: PullRequest, runs: seq<CiRun>, workflow: string): Judgement {
    var found := Matches(pr, workflow, runs);
    if |found| != 1 then Missing
    else
      var run := found[0];
      var evidence := CiEvidence(workflow, run.id, pr.headSha, run.status, run.conclusion);
      if run.id < 1 then Untrusted
      else if run.status == "completed" then
        if run.conclusion == "success" then Green(evidence) else Red(evidence)
      else if IsRunning(run.status) then Running(evidence)
      else Untrusted
  }

  /** The evidence of every workflow with one matching run, in inventory order. */
  function Collected(pr: PullRequest, runs: seq<CiRun>, required: seq<string>): seq<CiEvidence> {
    if required == [] then []
    else
      var last := |required| - 1;
      var judgement := Judge(pr, runs, required[last]);
      Collected(pr, runs, required[..last])
      + if judgement.Missing? || judgement.Untrusted? then [] else [judgement.evidence]
  }

  predicate AnyJudged(pr: PullRequest, runs: seq<CiRun>, required: seq<string>, which: Judgement -> bool) {
    exists w :: w in required && which(Judge(pr, runs, w))
  }

  predicate Observable(f: ForeignState, pr: PullRequest, required: seq<string>) {
    (f.phase == WorkDispatched || f.phase == CiPending) && f.receipt.Some?
    && PrTrusted(pr) && required != [] && NoRepeats(required)
  }

  function ObservePrCi(f: ForeignState, pr: PullRequest, runs: seq<CiRun>, required: seq<string>): Result<ForeignState> {
    if !Observable(f, pr, required) then Err("CI observation refused")
    else if AnyJudged(pr, runs, required, (j: Judgement) => j.Untrusted?) then Err("CI run cannot be trusted")
    else
      var failed := AnyJudged(pr, runs, required, (j: Judgement) => j.Red?);
      var pending := AnyJudged(pr, runs, required, (j: Judgement) => j.Missing? || j.Running?);
      Ok(f.(revision := f.revision + 1,
            phase := if failed then RevisionRequired else if pending then CiPending else CiVerified,
            targetPr := Some(TargetPr(pr.number, pr.headSha, pr.headRef)),
            ciEvidence := Collected(pr, runs, required),
            lastFailure := if failed then Some("EXACT_HEAD_CI_FAILURE") else None))
  }

  lemma JudgedOneMore(pr: PullRequest, runs: seq<CiRun>, required: seq<string>, i: nat, which: Judgement -> bool)
    requires i < |required|
    ensures AnyJudged(pr, runs, required[..i + 1], which)
            == (AnyJudged(pr, runs, required[..i], which) || which(Judge(pr, runs, required[i])))
  {
    hide Judge;
    assert required[..i + 1] == required[..i] + [required[i]];
    assert required[i] in required[..i + 1];
  }

  /** One pass over the required workflows. */
  method ObserveRequiredRuns(f: ForeignState, pr: PullRequest, runs: seq<CiRun>, required: seq<string>)
    returns (r: Result<ForeignState>)
    ensures r.Ok? <==> ObservePrCi(f, pr, runs, required).Ok?
    ensures r.Ok? ==> r == ObservePrCi(f, pr, runs, required)
  {
    hide Judge, PrTrusted;
    if !Observable(f, pr, required) {
      return Err("CI observation refused");
    }
    var evidence: seq<CiEvidence>, pending, failed := [], false, false;
    var untrusted, isPending, isFailed :=
      (j: Judgement) => j.Untrusted?, (j: Judgement) => j.Missing? || j.Running?, (j: Judgement) => j.Red?;
    var i := 0;
    while i < |required|
      invariant 0 <= i <= |required|
      invariant evidence == Collected(pr, runs, required[..i])
      invariant !AnyJudged(pr, runs, required[..i], untrusted)
      invariant pending == AnyJudged(pr, runs, required[..i], isPending)
      invariant failed == AnyJudged(pr, runs, required[..i], isFailed)
    {
      JudgedOneMore(pr, runs, required, i, untrusted);
      JudgedOneMore(pr, runs, required, i, isPending);
      JudgedOneMore(pr, runs, required, i, isFailed);
      assert required[..i + 1][..i] == required[..i];
      var judgement := Judge(pr, runs, required[i]);
      match judgement {
        case Missing => pending := true;
        case Untrusted =>
          assert required[i] in required;
          return Err("CI run cannot be trusted");
        case Running(e) => evidence := evidence + [e]; pending := true;
        case Green(e) => evidence := evidence + [e];
        case Red(e) => evidence := evidence + [e]; failed := true;
      }
      i := i + 1;
    }
    assert required[..|required|] == required;
    return Ok(f.(revision := f.revision + 1,
                 phase := if failed then RevisionRequired else if pending then CiPending else CiVerified,
                 targetPr := Some(TargetPr(pr.number, pr.headSha, pr.headRef)), ciEvidence := evidence,
                 lastFailure := if failed then Some("EXACT_HEAD_CI_FAILURE") else None));
  }
}
