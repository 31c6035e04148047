/** Over every run of the foreign-work ledger: validity, one reviewed dispatch, exact CI evidence. */
module ForeignTheorems {
  import opened Prelude
  import opened Records
  import opened ForeignWork

  datatype ForeignStep =
    | AdmissionStep(snapshot: IssueSnapshot)
    | AdvanceStep(snapshot: IssueSnapshot)
    | PlanStep(context: PlanContext, proposal: Proposal, policy: ForeignPolicy)
    | ReviewStep(policy: ForeignPolicy, approved: PlanKey, expectedRevision: int)
    | DispatchStep(receipt: DispatchReceipt, expectedRevision: int)
    | ObserveStep(pr: PullRequest, runs: seq<CiRun>, required: seq<string>)

  /** Only an admission can start a ledger. */
  function ForeignPerform(l: Option<ForeignState>, step: ForeignStep): Result<ForeignState> {
    if step.AdmissionStep? then ReconcileAdmission(l, step.snapshot)
    else if l.None? then Err("no foreign ledger")
    else
      match step
      case AdvanceStep(snapshot) => AdvanceReviewedBase(l.value, snapshot)
      case PlanStep(context, proposal, policy) => PlanNextCycle(l.value, context, proposal, policy)
      case ReviewStep(policy, approved, revision) => ReviewForDispatch(l.value, policy, approved, revision)
      case DispatchStep(receipt, revision) => RecordDispatch(l.value, receipt, revision)
      case ObserveStep(pr, runs, required) => ObservePrCi(l.value, pr, runs, required)
      case AdmissionStep(snapshot) => ReconcileAdmission(l, snapshot)
  }

  function ForeignNext(l: Option<ForeignState>, step: ForeignStep): Option<ForeignState> {
    match ForeignPerform(l, step)
    case Ok(f) => Some(f)
    case Err(_) => l
  }

  /** The ledger after a run that starts without one. */
  function ForeignRun(steps: seq<ForeignStep>): Option<ForeignState> {
    if steps == [] then None
    else ForeignNext(ForeignRun(steps[..|steps| - 1]), steps[|steps| - 1])
  }

  // ---------- validity ----------

  predicate SnapshotWellFormed(snapshot: IssueSnapshot) {
    IsHex(snapshot.issueBodySha, 64) && IsHex(snapshot.targetBaseSha, 40) && snapshot.verifiedSourceRunId > 0
  }

  /** Admission itself checks neither digest: the ledger it creates can be read back exactly when the
      snapshot's digests and run id are well-formed. */
  lemma AdmissionIsReadableExactly(snapshot: IssueSnapshot)
    requires FromVerifiedAdmission(snapshot).Ok?
    ensures ValidForeignState(FromVerifiedAdmission(snapshot).value) <==> SnapshotWellFormed(snapshot)
  {
    hide IsHex;
  }

  /** An admitted snapshot whose ledger cannot be read back. */
  lemma UnreadableAdmission() returns (snapshot: IssueSnapshot)
    ensures FromVerifiedAdmission(snapshot).Ok? && !ValidForeignState(FromVerifiedAdmission(snapshot).value)
    ensures ForeignRun([AdmissionStep(snapshot)]) == Some(FromVerifiedAdmission(snapshot).value)
  {
    snapshot := IssueSnapshot(
      WORK_ID, TARGET, TARGET_ID, 92, ADMITTED_STATUS, false, false, ["criterion"], "not a digest", "", 1);
    assert [AdmissionStep(snapshot)][..0] == [];
    assert ForeignRun([]) == None;
  }

  predicate StepWellFormed(step: ForeignStep) {
    step.AdmissionStep? || step.AdvanceStep? ==> SnapshotWellFormed(step.snapshot)
  }

  /** Nothing is planned before reasoning ends, and nothing is sent before dispatch. */
  predicate PhaseOk(f: ForeignState) {
    && (f.phase == ReasoningRequired ==> f.actionPlan.None?)
    && (f.phase == ReviewRequired || f.phase == DispatchReady ==> f.receipt.None? && f.actionPlan.Some?)
    && (f.actionPlan.None? ==> f.receipt.None? && f.actionId.None?)
    && (f.actionPlan.Some? ==> f.actionId == Some(KeyOf(f.actionPlan.value)))
    && (f.receipt.Some? ==> f.phase in {WorkDispatched, CiPending, CiVerified, RevisionRequired})
  }

  predicate LedgerPhaseOk(l: Option<ForeignState>) {
    l.Some? ==> PhaseOk(l.value)
  }

  lemma StepKeepsPhase(l: Option<ForeignState>, step: ForeignStep)
    requires LedgerPhaseOk(l)
    ensures LedgerPhaseOk(ForeignNext(l, step))
  {
    hide PlanAllowed, AnyJudged, Collected, PrTrusted, NoRepeats, ForeignPlanParses;
  }

  lemma {:induction false} RunKeepsPhase(steps: seq<ForeignStep>)
    ensures LedgerPhaseOk(ForeignRun(steps))
  {
    if steps != [] {
      hide LedgerPhaseOk, ForeignNext;
      RunKeepsPhase(steps[..|steps| - 1]);
      StepKeepsPhase(ForeignRun(steps[..|steps| - 1]), steps[|steps| - 1]);
    }
  }

  lemma StepKeepsValid(l: Option<ForeignState>, step: ForeignStep)
    requires LedgerPhaseOk(l) && StepWellFormed(step)
    requires l.Some? ==> ValidForeignState(l.value)
    ensures ForeignNext(l, step).Some? ==> ValidForeignState(ForeignNext(l, step).value)
  {
    hide IsHex, AnyJudged, Judge, Collected, PrTrusted, NoRepeats, PolicyPermits, ForeignPlanParses, PlanNextCycle;
    hide ObservePrCi;
    match step {
      case ObserveStep(pr, runs, required) =>
        if l.Some? && ObservePrCi(l.value, pr, runs, required).Ok? {
          ObservingKeepsValid(l.value, pr, runs, required);
        }
      case PlanStep(context, proposal, policy) =>
        if l.Some? && PlanNextCycle(l.value, context, proposal, policy).Ok? {
          PlanningKeepsValid(l.value, context, proposal, policy);
        }
      case _ =>
    }
  }

  lemma PlanningKeepsValid(f: ForeignState, context: PlanContext, proposal: Proposal, policy: ForeignPolicy)
    requires ValidForeignState(f) && PhaseOk(f) && PlanNextCycle(f, context, proposal, policy).Ok?
    ensures ValidForeignState(PlanNextCycle(f, context, proposal, policy).value)
  {
    hide IsHex, PolicyPermits;
  }

  lemma ObservingKeepsValid(f: ForeignState, pr: PullRequest, runs: seq<CiRun>, required: seq<string>)
    requires ValidForeignState(f) && ObservePrCi(f, pr, runs, required).Ok?
    ensures ValidForeignState(ObservePrCi(f, pr, runs, required).value)
  {
    hide IsHex, AnyJudged, Judge, Collected, PrTrusted, NoRepeats, ForeignPlanParses;
    if ObservePrCi(f, pr, runs, required).value.phase == CiVerified {
      VerifiedMeansGreen(f, pr, runs, required);
    }
  }

  /** Every ledger any run can write is accepted when it is read back. */
  lemma {:induction false} LedgerIsAlwaysReadable(steps: seq<ForeignStep>)
    requires forall step :: step in steps ==> StepWellFormed(step)
    ensures ForeignRun(steps).Some? ==> ValidForeignState(ForeignRun(steps).value)
  {
    hide LedgerPhaseOk, ForeignNext, ValidForeignState, StepWellFormed;
    if steps != [] {
      LedgerIsAlwaysReadable(steps[..|steps| - 1]);
      RunKeepsPhase(steps[..|steps| - 1]);
      StepKeepsValid(ForeignRun(steps[..|steps| - 1]), steps[|steps| - 1]);
    }
  }

  // ---------- frozen plan, one dispatch ----------

  /** What a step can no longer change. */
  ghost predicate Frozen(l: Option<ForeignState>, t: Option<ForeignState>) {
    l.Some? ==>
      && t.Some?
      && (l.value.actionPlan.Some? ==> t.value.actionPlan == l.value.actionPlan && t.value.actionId == l.value.actionId)
      && (l.value.receipt.Some? ==> t.value.receipt == l.value.receipt)
      && (t == l || t.value.revision == l.value.revision + 1)
  }

  lemma StepFreezes(l: Option<ForeignState>, step: ForeignStep)
    requires LedgerPhaseOk(l)
    ensures Frozen(l, ForeignNext(l, step))
  {
    hide PlanAllowed, AnyJudged, Collected, PrTrusted, NoRepeats, ForeignPlanParses;
  }

  ghost predicate Kept(l: Option<ForeignState>, t: Option<ForeignState>) {
    l.Some? ==>
      && t.Some?
      && (l.value.actionPlan.Some? ==> t.value.actionPlan == l.value.actionPlan && t.value.actionId == l.value.actionId)
      && (l.value.receipt.Some? ==> t.value.receipt == l.value.receipt)
      && t.value.revision >= l.value.revision
  }

  /** From review onward the plan and its id never change; once sent, neither does the receipt. */
  lemma {:induction false} PlanAndReceiptAreFinal(steps: seq<ForeignStep>, n: nat)
    requires n <= |steps|
    ensures Kept(ForeignRun(steps[..n]), ForeignRun(steps))
    decreases |steps| - n
  {
    if n == |steps| {
      assert steps[..n] == steps;
    } else {
      hide ForeignNext, LedgerPhaseOk;
      PlanAndReceiptAreFinal(steps, n + 1);
      RunKeepsPhase(steps[..n]);
      assert steps[..n + 1][..n] == steps[..n];
      StepFreezes(ForeignRun(steps[..n]), steps[n]);
    }
  }

  predicate HasReceipt(l: Option<ForeignState>) {
    l.Some? && l.value.receipt.Some?
  }

  /** Step `i` of the run is a dispatch: the receipt appears. */
  predicate DispatchesAt(steps: seq<ForeignStep>, i: nat)
    requires i < |steps|
  {
    !HasReceipt(ForeignRun(steps[..i])) && HasReceipt(ForeignRun(steps[..i + 1]))
  }

  lemma DispatchedAtMostOnce(steps: seq<ForeignStep>, i: nat, j: nat)
    requires i < j < |steps| && DispatchesAt(steps, i)
    ensures !DispatchesAt(steps, j)
  {
    hide ForeignRun;
    PlanAndReceiptAreFinal(steps[..j], i + 1);
    assert steps[..j][..i + 1] == steps[..i + 1];
  }

  /** Step `i` approved exactly this plan, under an enabled policy. */
  ghost predicate ApprovedAt(steps: seq<ForeignStep>, i: nat, plan: ForeignPlan)
    requires i < |steps|
  {
    steps[i].ReviewStep? && steps[i].policy.enabled && PlanAllowed(plan, steps[i].policy) && steps[i].approved == KeyOf(plan)
  }

  ghost predicate Approved(steps: seq<ForeignStep>, plan: ForeignPlan) {
    exists i :: 0 <= i < |steps| && ApprovedAt(steps, i, plan)
  }

  ghost predicate Sent(steps: seq<ForeignStep>, plan: ForeignPlan, receipt: DispatchReceipt) {
    exists j :: 0 <= j < |steps| && steps[j].DispatchStep? && steps[j].receipt == receipt
      && receipt.workflowRunId >= 1 && Approved(steps[..j], plan)
  }

  ghost predicate Reviewed(steps: seq<ForeignStep>, l: Option<ForeignState>) {
    l.Some? && l.value.actionPlan.Some? ==>
      && (l.value.phase == DispatchReady ==> Approved(steps, l.value.actionPlan.value))
      && (l.value.receipt.Some? ==> Sent(steps, l.value.actionPlan.value, l.value.receipt.value))
  }

  lemma ApprovalStays(steps: seq<ForeignStep>, step: ForeignStep, plan: ForeignPlan)
    ensures Approved(steps, plan) ==> Approved(steps + [step], plan)
    ensures ApprovedAt([step], 0, plan) ==> Approved(steps + [step], plan)
  {
    hide PlanAllowed;
    if Approved(steps, plan) {
      var i :| 0 <= i < |steps| && ApprovedAt(steps, i, plan);
      assert ApprovedAt(steps + [step], i, plan);
    }
    if ApprovedAt([step], 0, plan) {
      assert ApprovedAt(steps + [step], |steps|, plan);
    }
  }

  lemma SendingStays(steps: seq<ForeignStep>, step: ForeignStep, plan: ForeignPlan, receipt: DispatchReceipt)
    ensures Sent(steps, plan, receipt) ==> Sent(steps + [step], plan, receipt)
    ensures step.DispatchStep? && step.receipt == receipt && receipt.workflowRunId >= 1 && Approved(steps, plan) ==>
      Sent(steps + [step], plan, receipt)
  {
    hide Approved;
    if Sent(steps, plan, receipt) {
      var j :| 0 <= j < |steps| && steps[j].DispatchStep? && steps[j].receipt == receipt
        && receipt.workflowRunId >= 1 && Approved(steps[..j], plan);
      assert (steps + [step])[..j] == steps[..j] && (steps + [step])[j] == steps[j];
    }
    assert (steps + [step])[..|steps|] == steps;
  }

  lemma StepReviews(steps: seq<ForeignStep>, l: Option<ForeignState>, step: ForeignStep)
    requires LedgerPhaseOk(l) && Reviewed(steps, l)
    ensures Reviewed(steps + [step], ForeignNext(l, step))
  {
    hide PlanAllowed, AnyJudged, Collected, Observable, ForeignPlanParses, Approved, Sent, FromVerifiedAdmission;
    var t := ForeignNext(l, step);
    if t.Some? && t.value.actionPlan.Some? {
      ApprovalStays(steps, step, t.value.actionPlan.value);
      if t.value.receipt.Some? {
        SendingStays(steps, step, t.value.actionPlan.value, t.value.receipt.value);
      }
    }
    AdmissionPlansNothing(step);
    if step.ReviewStep? && t.Some? && t.value.actionPlan.Some? {
      AllowedIsEnabled(t.value.actionPlan.value, step.policy);
    }
  }

  lemma AllowedIsEnabled(plan: ForeignPlan, policy: ForeignPolicy)
    ensures PlanAllowed(plan, policy) ==> policy.enabled
  {
  }

  lemma AdmissionPlansNothing(step: ForeignStep)
    ensures (step.AdmissionStep? || step.AdvanceStep?) && FromVerifiedAdmission(step.snapshot).Ok? ==>
      FromVerifiedAdmission(step.snapshot).value.actionPlan.None?
  {
  }

  lemma {:induction false} RunReviews(steps: seq<ForeignStep>)
    ensures Reviewed(steps, ForeignRun(steps))
  {
    hide LedgerPhaseOk, ForeignNext, Approved, Sent;
    if steps != [] {
      var earlier, last := steps[..|steps| - 1], steps[|steps| - 1];
      RunReviews(earlier);
      RunKeepsPhase(earlier);
      StepReviews(earlier, ForeignRun(earlier), last);
      assert steps == earlier + [last];
    }
  }

  /** Whatever the provider proposed and however the steps were ordered: a receipt in the ledger was sent
      for exactly the plan the ledger still holds, after a review that approved that plan by its id under
      an enabled policy which permits it. */
  lemma NothingRunsUnreviewed(steps: seq<ForeignStep>)
    requires HasReceipt(ForeignRun(steps))
    ensures var f := ForeignRun(steps).value; f.actionPlan.Some? && Sent(steps, f.actionPlan.value, f.receipt.value)
  {
    hide Sent, ForeignRun;
    RunReviews(steps);
    RunKeepsPhase(steps);
  }

  // ---------- CI evidence is exact ----------

  /** Exactly one run of this workflow matches the pull request's head, and it completed successfully. */
  predicate GreenRun(pr: PullRequest, runs: seq<CiRun>, workflow: string, run: CiRun) {
    && Matches(pr, workflow, runs) == [run]
    && run.id >= 1 && run.status == "completed" && run.conclusion == "success"
  }

  ghost predicate AllGreen(pr: PullRequest, runs: seq<CiRun>, required: seq<string>) {
    forall w :: w in required ==> exists run :: GreenRun(pr, runs, w, run)
  }

  lemma GreenExactly(pr: PullRequest, runs: seq<CiRun>, workflow: string)
    ensures Judge(pr, runs, workflow).Green? <==> exists run :: GreenRun(pr, runs, workflow, run)
    ensures Judge(pr, runs, workflow).Green? ==>
      Matches(pr, workflow, runs) == [Matches(pr, workflow, runs)[0]]
      && Judge(pr, runs, workflow).evidence
         == CiEvidence(workflow, Matches(pr, workflow, runs)[0].id, pr.headSha, "completed", "success")
  {
    var found := Matches(pr, workflow, runs);
    if |found| == 1 {
      assert found == [found[0]];
      if Judge(pr, runs, workflow).Green? {
        assert GreenRun(pr, runs, workflow, found[0]);
      }
    }
  }

  lemma {:induction false} CollectedIsExact(pr: PullRequest, runs: seq<CiRun>, required: seq<string>)
    requires forall w :: w in required ==> Judge(pr, runs, w).Green?
    ensures |Collected(pr, runs, required)| == |required|
    ensures forall i :: 0 <= i < |required| ==> Collected(pr, runs, required)[i] == Judge(pr, runs, required[i]).evidence
  {
    hide Judge;
    if required != [] {
      CollectedIsExact(pr, runs, required[..|required| - 1]);
      assert required[|required| - 1] in required;
    }
  }

  ghost predicate Proves(e: CiEvidence, pr: PullRequest, runs: seq<CiRun>, workflow: string) {
    exists run :: GreenRun(pr, runs, workflow, run)
                  && e == CiEvidence(workflow, run.id, pr.headSha, "completed", "success")
  }

  /** One item per required workflow, in inventory order, each proved by the one run that matches. */
  ghost predicate EvidenceIsExact(evidence: seq<CiEvidence>, pr: PullRequest, runs: seq<CiRun>, required: seq<string>) {
    |evidence| == |required| && forall i :: 0 <= i < |required| ==> Proves(evidence[i], pr, runs, required[i])
  }

  /** One observation reports ci_verified exactly when every required workflow has one matching run and it
      is green; the evidence then lists those runs in inventory order. */
  lemma CiVerifiedExactly(f: ForeignState, pr: PullRequest, runs: seq<CiRun>, required: seq<string>)
    requires Observable(f, pr, required)
    ensures ObservePrCi(f, pr, runs, required).Ok? && ObservePrCi(f, pr, runs, required).value.phase == CiVerified
            <==> AllGreen(pr, runs, required)
    ensures AllGreen(pr, runs, required) ==>
      var t := ObservePrCi(f, pr, runs, required).value;
      t.targetPr == Some(TargetPr(pr.number, pr.headSha, pr.headRef)) && EvidenceIsExact(t.ciEvidence, pr, runs, required)
  {
    forall w | w in required ensures Judge(pr, runs, w).Green? <==> exists run :: GreenRun(pr, runs, w, run) {
      GreenExactly(pr, runs, w);
    }
    hide Judge, GreenRun, Observable;
    if AllGreen(pr, runs, required) {
      CollectedIsExact(pr, runs, required);
      forall i | 0 <= i < |required| ensures Proves(Collected(pr, runs, required)[i], pr, runs, required[i]) {
        GreenExactly(pr, runs, required[i]);
        var run :| GreenRun(pr, runs, required[i], run);
        OnlyMatch(pr, runs, required[i], run);
      }
    }
  }

  lemma OnlyMatch(pr: PullRequest, runs: seq<CiRun>, workflow: string, run: CiRun)
    requires GreenRun(pr, runs, workflow, run)
    ensures Matches(pr, workflow, runs)[0] == run
  {
  }

  lemma VerifiedMeansGreen(f: ForeignState, pr: PullRequest, runs: seq<CiRun>, required: seq<string>)
    requires ObservePrCi(f, pr, runs, required).Ok? && ObservePrCi(f, pr, runs, required).value.phase == CiVerified
    ensures var e := ObservePrCi(f, pr, runs, required).value.ciEvidence;
      e != [] && forall x :: x in e ==> x.conclusion == "success" && x.status == "completed"
  {
    CiVerifiedExactly(f, pr, runs, required);
    hide Judge, GreenRun, AnyJudged, Collected;
  }

  /** The observation that justifies a verified ledger. */
  ghost predicate VerifiedBy(step: ForeignStep, f: ForeignState) {
    && step.ObserveStep? && PrTrusted(step.pr) && step.required != [] && AllGreen(step.pr, step.runs, step.required)
    && f.targetPr == Some(TargetPr(step.pr.number, step.pr.headSha, step.pr.headRef))
    && EvidenceIsExact(f.ciEvidence, step.pr, step.runs, step.required)
  }

  /** A ledger in ci_verified holds exactly one successful matching run per required workflow of a real
      observation, and a verified ledger was dispatched. */
  lemma {:induction false} VerifiedLedgerIsJustified(steps: seq<ForeignStep>)
    requires ForeignRun(steps).Some? && ForeignRun(steps).value.phase == CiVerified
    ensures exists step :: step in steps && VerifiedBy(step, ForeignRun(steps).value)
    ensures ForeignRun(steps).value.receipt.Some?
  {
    hide AllGreen, EvidenceIsExact, AnyJudged, Collected, NoRepeats, ForeignNext, LedgerPhaseOk;
    var earlier, last := steps[..|steps| - 1], steps[|steps| - 1];
    var before := ForeignRun(earlier);
    ReceiptIsThere(steps);
    OnlyObservingVerifies(before, last);
    assert steps == earlier + [last];
    if ForeignRun(steps) != before {
      CiVerifiedExactly(before.value, last.pr, last.runs, last.required);
      assert VerifiedBy(last, ForeignRun(steps).value);
    } else {
      VerifiedLedgerIsJustified(earlier);
      var step :| step in earlier && VerifiedBy(step, before.value);
      assert step in steps;
    }
  }

  lemma ReceiptIsThere(steps: seq<ForeignStep>)
    requires ForeignRun(steps).Some? && ForeignRun(steps).value.phase == CiVerified
    ensures ForeignRun(steps).value.receipt.Some?
  {
    hide ForeignRun;
    RunKeepsReceipts(steps);
  }

  predicate ObservedHasReceipt(l: Option<ForeignState>) {
    l.Some? && l.value.phase in {WorkDispatched, CiPending, CiVerified} ==> l.value.receipt.Some?
  }

  lemma {:induction false} RunKeepsReceipts(steps: seq<ForeignStep>)
    ensures ObservedHasReceipt(ForeignRun(steps))
  {
    if steps != [] {
      hide ForeignNext, ObservedHasReceipt;
      RunKeepsReceipts(steps[..|steps| - 1]);
      StepKeepsReceipts(ForeignRun(steps[..|steps| - 1]), steps[|steps| - 1]);
    }
  }

  lemma StepKeepsReceipts(l: Option<ForeignState>, step: ForeignStep)
    requires ObservedHasReceipt(l)
    ensures ObservedHasReceipt(ForeignNext(l, step))
  {
    hide PlanAllowed, AnyJudged, Collected, PrTrusted, NoRepeats, ForeignPlanParses;
  }

  lemma OnlyObservingVerifies(l: Option<ForeignState>, step: ForeignStep)
    requires ForeignNext(l, step).Some? && ForeignNext(l, step).value.phase == CiVerified
    ensures ForeignNext(l, step) == l
      || (step.ObserveStep? && l.Some? && ObservePrCi(l.value, step.pr, step.runs, step.required)
                                           == Ok(ForeignNext(l, step).value))
  {
    hide PlanAllowed, AnyJudged, Collected, PrTrusted, NoRepeats, ForeignPlanParses;
  }

  // ---------- the same, said on the runs and the plan ----------

  /** The run is of this workflow, on the pull request's own head commit and branch, for a pull request event. */
  predicate IsRunOf(run: CiRun, pr: PullRequest, workflow: string) {
    && run.path == ".github/workflows/" + workflow && run.event == "pull_request"
    && run.headSha == pr.headSha && run.headBranch == pr.headRef
  }

  /** Run `i` is the only one of this workflow. */
  predicate OnlyRunOf(runs: seq<CiRun>, i: nat, pr: PullRequest, workflow: string) {
    && i < |runs| && IsRunOf(runs[i], pr, workflow)
    && forall j :: 0 <= j < |runs| && j != i ==> !IsRunOf(runs[j], pr, workflow)
  }

  lemma {:induction false} MatchedExactly(pr: PullRequest, workflow: string, runs: seq<CiRun>)
    ensures Matches(pr, workflow, runs) == [] <==> forall j :: 0 <= j < |runs| ==> !IsRunOf(runs[j], pr, workflow)
    ensures forall i: nat :: OnlyRunOf(runs, i, pr, workflow) ==> Matches(pr, workflow, runs) == [runs[i]]
    ensures |Matches(pr, workflow, runs)| == 1 ==> exists i: nat :: OnlyRunOf(runs, i, pr, workflow)
  {
    if runs != [] {
      MatchedExactly(pr, workflow, runs[1..]);
      forall j | 0 <= j < |runs| - 1 ensures runs[1..][j] == runs[j + 1] {
      }
      if i: nat :| OnlyRunOf(runs, i, pr, workflow) && i > 0 {
        assert OnlyRunOf(runs[1..], i - 1, pr, workflow);
      }
      if i: nat :| OnlyRunOf(runs[1..], i, pr, workflow) && !IsRunOf(runs[0], pr, workflow) {
        assert OnlyRunOf(runs, i + 1, pr, workflow);
      }
      if IsRunOf(runs[0], pr, workflow) && Matches(pr, workflow, runs[1..]) == [] {
        assert OnlyRunOf(runs, 0, pr, workflow);
      }
    }
  }

  /** An observation of a dispatched plan verifies CI exactly when every required workflow ran once on the pull
      request's exact head, and that run completed successfully. */
  lemma CiVerifiedOnExactHead(f: ForeignState, pr: PullRequest, runs: seq<CiRun>, required: seq<string>)
    requires Observable(f, pr, required)
    ensures ObservePrCi(f, pr, runs, required).Ok? && ObservePrCi(f, pr, runs, required).value.phase == CiVerified <==>
      forall w :: w in required ==> GreenOnHead(pr, runs, w)
  {
    CiVerifiedExactly(f, pr, runs, required);
    forall w | w in required ensures (exists run :: GreenRun(pr, runs, w, run)) <==> GreenOnHead(pr, runs, w) {
      GreenOnExactHead(pr, runs, w);
    }
    hide GreenRun, GreenOnHead, Observable, ObservePrCi;
  }

  /** The workflow ran once on the exact head, and that run completed successfully. */
  ghost predicate GreenOnHead(pr: PullRequest, runs: seq<CiRun>, w: string) {
    exists i: nat :: OnlyRunOf(runs, i, pr, w) && runs[i].id >= 1
                     && runs[i].status == "completed" && runs[i].conclusion == "success"
  }

  predicate StillRuns(status: string) {
    status in {"queued", "in_progress", "waiting", "pending", "requested"}
  }

  /** The one run of the workflow has no identity, or a status that means nothing. */
  ghost predicate Untrustworthy(pr: PullRequest, runs: seq<CiRun>, w: string) {
    exists i: nat :: OnlyRunOf(runs, i, pr, w)
      && (runs[i].id < 1 || (runs[i].status != "completed" && !StillRuns(runs[i].status)))
  }

  /** The one run of the workflow completed, but not successfully. */
  ghost predicate FailedOnHead(pr: PullRequest, runs: seq<CiRun>, w: string) {
    exists i: nat :: OnlyRunOf(runs, i, pr, w) && runs[i].status == "completed" && runs[i].conclusion != "success"
  }

  lemma JudgedExactly(pr: PullRequest, runs: seq<CiRun>, w: string)
    ensures Judge(pr, runs, w).Untrusted? <==> Untrustworthy(pr, runs, w)
    ensures !Untrustworthy(pr, runs, w) ==> (Judge(pr, runs, w).Red? <==> FailedOnHead(pr, runs, w))
  {
    MatchedExactly(pr, w, runs);
    hide Matches, OnlyRunOf;
    if |Matches(pr, w, runs)| == 1 {
      var i: nat :| OnlyRunOf(runs, i, pr, w);
      OnlyIsOne(pr, runs, w, i);
    } else {
      assert forall i: nat :: !OnlyRunOf(runs, i, pr, w);
    }
  }

  lemma OnlyIsOne(pr: PullRequest, runs: seq<CiRun>, w: string, i: nat)
    requires OnlyRunOf(runs, i, pr, w)
    ensures i < |runs| && forall j: nat :: OnlyRunOf(runs, j, pr, w) ==> j == i
  {
  }

  /** An observation is refused exactly when the one run of a required workflow cannot be trusted; otherwise it
      asks for a revision exactly when the one run of a required workflow completed without success. */
  lemma CiFailureExactly(f: ForeignState, pr: PullRequest, runs: seq<CiRun>, required: seq<string>)
    requires Observable(f, pr, required)
    ensures var r := ObservePrCi(f, pr, runs, required);
      && (r.Err? <==> exists w :: w in required && Untrustworthy(pr, runs, w))
      && (r.Ok? ==> (r.value.phase == RevisionRequired <==> exists w :: w in required && FailedOnHead(pr, runs, w)))
  {
    forall w | w in required
      ensures Judge(pr, runs, w).Untrusted? <==> Untrustworthy(pr, runs, w)
      ensures !Untrustworthy(pr, runs, w) ==> (Judge(pr, runs, w).Red? <==> FailedOnHead(pr, runs, w))
    {
      JudgedExactly(pr, runs, w);
    }
    hide Judge, Untrustworthy, FailedOnHead, Observable;
  }

  lemma GreenOnExactHead(pr: PullRequest, runs: seq<CiRun>, w: string)
    ensures (exists run :: GreenRun(pr, runs, w, run)) <==> GreenOnHead(pr, runs, w)
  {
    MatchedExactly(pr, w, runs);
    hide Matches;
    if run :| GreenRun(pr, runs, w, run) {
      var i: nat :| OnlyRunOf(runs, i, pr, w);
      assert Matches(pr, w, runs) == [runs[i]];
    }
    if i: nat :| OnlyRunOf(runs, i, pr, w) && runs[i].id >= 1 && runs[i].status == "completed" && runs[i].conclusion == "success" {
      assert GreenRun(pr, runs, w, runs[i]);
    }
  }

  /** What may be observed: a dispatched plan and an open, unmerged draft of the target's own branch against main. */
  lemma ObservableExactly(f: ForeignState, pr: PullRequest, required: seq<string>)
    ensures Observable(f, pr, required) <==>
      && (f.phase == WorkDispatched || f.phase == CiPending) && f.receipt.Some?
      && pr.draft && !pr.merged && pr.state == "open" && pr.baseRef == "main" && pr.headRef != "main"
      && pr.headRepository == "HyungseonSong-plasma/codeQA" && |pr.headSha| == 40 && pr.number >= 1
      && required != [] && forall i, j :: 0 <= i < j < |required| ==> required[i] != required[j]
  {
  }

  /** The sent plan creates or updates one plain file outside the protected directories, on the policy's own
      branch, with a bounded content and an exact precondition. */
  predicate SafePlan(plan: ForeignPlan, policy: ForeignPolicy) {
    var p := plan.payload;
    && policy.enabled && !policy.mergeEnabled && policy.repository == "HyungseonSong-plasma/codeQA"
    && plan.executor == RepositoryMutation && plan.researchId == "github:HyungseonSong-plasma/codeQA:issue:92"
    && plan.decisionRisk.None? && p.repository == "HyungseonSong-plasma/codeQA"
    && p.resource == "file" && (p.action == "create" || p.action == "update") && p.target.Some?
    && (p.action == "create" ==> p.expected == Absent) && (p.action == "update" ==> p.expected.BlobSha?)
    && p.desired.Some? && 0 < |p.desired.value.text| && p.desired.value.utf8Length <= 32768
    && p.target.value.branch == policy.headBranch && p.target.value.branch != "main" && p.target.value.branch != "master"
    && (exists prefix :: prefix in policy.pathPrefixes && prefix <= p.target.value.path)
    && !(".github/" <= p.target.value.path) && !("automation/" <= p.target.value.path) && !("skills/" <= p.target.value.path)
    && !HasParentSegment(p.target.value.path) && p.target.value.path != "" && p.target.value.path[0] != '/'
  }

  /** From `i` on, between slashes or at an end, the path says "..". */
  predicate IsParentAt(path: string, i: nat) {
    && i + 2 <= |path| && path[i..i + 2] == ".."
    && (i == 0 || path[i - 1] == '/') && (i + 2 == |path| || path[i + 2] == '/')
  }

  predicate HasParentSegment(path: string) {
    exists i: nat :: i <= |path| && IsParentAt(path, i)
  }

  /** What stands between two slashes is a segment, the first one only at the start. */
  lemma {:induction false} SegmentAt(path: string, i: nat, n: nat)
    requires i <= n <= |path| && '/' !in path[i..n]
    requires (i == 0 || path[i - 1] == '/') && (n == |path| || path[n] == '/')
    ensures if i == 0 then Segments(path)[0] == path[..n] else path[i..n] in Segments(path)[1..]
    decreases |path|
  {
    if path != "" {
      var tail := path[1..];
      if i > 0 {
        assert tail[i - 1..n - 1] == path[i..n];
        SegmentAt(tail, i - 1, n - 1);
        assert Segments(tail) == [Segments(tail)[0]] + Segments(tail)[1..];
        assert tail[..n - 1] == path[1..n];
      } else if n > 0 {
        assert path[0] in path[0..n];
        assert tail[0..n - 1] == path[1..n];
        SegmentAt(tail, 0, n - 1);
        assert path[..n] == [path[0]] + tail[..n - 1];
      }
    }
  }

  lemma ParentIsSegment(path: string)
    ensures HasParentSegment(path) ==> ".." in Segments(path)
  {
    if i: nat :| i <= |path| && IsParentAt(path, i) {
      SegmentAt(path, i, i + 2);
      assert Segments(path) == [Segments(path)[0]] + Segments(path)[1..];
      assert i == 0 ==> path[..2] == path[i..i + 2];
    }
  }

  lemma PlainPathHasNoParent(path: string)
    requires PathIsPlain(path)
    ensures !HasParentSegment(path)
  {
    ParentIsSegment(path);
  }

  lemma AllowedIsSafe(plan: ForeignPlan, policy: ForeignPolicy)
    requires PlanAllowed(plan, policy)
    ensures SafePlan(plan, policy)
  {
    PlainPathHasNoParent(plan.payload.target.value.path);
    hide PathIsPlain, HasParentSegment;
  }

  /** Over every run: whatever was sent is a safe plan under some policy it was reviewed with. */
  lemma SentPlansAreSafe(steps: seq<ForeignStep>)
    requires HasReceipt(ForeignRun(steps))
    ensures var f := ForeignRun(steps).value;
      f.actionPlan.Some? && exists policy :: SafePlan(f.actionPlan.value, policy)
  {
    hide ForeignRun, PlanAllowed, SafePlan;
    NothingRunsUnreviewed(steps);
    var plan := ForeignRun(steps).value.actionPlan.value;
    var receipt := ForeignRun(steps).value.receipt.value;
    var j :| 0 <= j < |steps| && steps[j].DispatchStep? && steps[j].receipt == receipt && Approved(steps[..j], plan);
    var i :| 0 <= i < j && ApprovedAt(steps[..j], i, plan);
    AllowedIsSafe(plan, steps[..j][i].policy);
  }

  // ---------- changed facts stop the work ----------

  /** When the Issue, its criteria or the base moved, the next reconciliation asks for a revision, and a plan not
      yet sent is never sent afterwards. */
  lemma ChangedFactsAskForRevision(f: ForeignState, snapshot: IssueSnapshot)
    requires ReconcileAdmission(Some(f), snapshot).Ok?
    ensures var t := ReconcileAdmission(Some(f), snapshot).value;
      var moved := f.issueSha != snapshot.issueBodySha || f.baseSha != snapshot.targetBaseSha
                   || f.criteriaSha != snapshot.acceptanceCriteria;
      if moved then t.phase == RevisionRequired && t.lastFailure == Some("ADMISSION_FACTS_CHANGED")
                    && t.actionPlan == f.actionPlan && t.receipt == f.receipt
      else t == f
  {
  }

  predicate Stopped(l: Option<ForeignState>) {
    l.Some? && l.value.phase == RevisionRequired && l.value.actionPlan.Some?
  }

  lemma StoppedStays(l: Option<ForeignState>, step: ForeignStep)
    requires Stopped(l) && LedgerPhaseOk(l)
    ensures Stopped(ForeignNext(l, step)) && ForeignNext(l, step).value.receipt == l.value.receipt
  {
    hide PlanAllowed, AnyJudged, Collected, PrTrusted, NoRepeats, ForeignPlanParses;
  }

  lemma {:induction false} StoppedPlanIsNeverSent(steps: seq<ForeignStep>, n: nat)
    requires n <= |steps| && Stopped(ForeignRun(steps[..n]))
    ensures Stopped(ForeignRun(steps)) && ForeignRun(steps).value.receipt == ForeignRun(steps[..n]).value.receipt
    decreases |steps| - n
  {
    if n == |steps| {
      assert steps[..n] == steps;
    } else {
      hide ForeignNext, LedgerPhaseOk;
      RunKeepsPhase(steps[..n]);
      StoppedStays(ForeignRun(steps[..n]), steps[n]);
      assert steps[..n + 1][..n] == steps[..n];
      StoppedPlanIsNeverSent(steps, n + 1);
    }
  }
}
