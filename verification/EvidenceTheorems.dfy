/** Acceptance evidence only grows, and what is fully integrated can always be closed. */
module EvidenceTheorems {
  import opened Prelude
  import opened Records
  import opened Diagnosis
  import opened DurableState
  import opened Ingestion
  import opened Selector
  import opened Protocol
  import opened Preservation
  import opened ControllerTheorems
  import opened AtMostOnce
  import opened Preflight

  // ---------- settled actions are final ----------

  /** A completion result is only ever stored together with a settled status, and completion is proven. */
  ghost predicate ResultsSettle(s: State) {
    forall id :: id in s.queue ==>
      && (s.queue[id].completionResult.Some? ==> IsFinal(s.queue[id].status))
      && (s.queue[id].status == ActionLifecycle.Complete ==> ProvenComplete(id, s.queue[id]))
  }

  /** Queued work keeps its plan and progress claim; settled work keeps everything. */
  ghost predicate KeptAt(s: State, t: State, id: ActionId) {
    id in s.queue ==>
      && id in t.queue && t.queue[id].plan == s.queue[id].plan && t.queue[id].progress == s.queue[id].progress
      && (IsFinal(s.queue[id].status) ==>
            t.queue[id] == s.queue[id]
            && (id in s.executionResults ==> id in t.executionResults && t.executionResults[id] == s.executionResults[id]))
  }

  ghost predicate KeepsWork(s: State, t: State) {
    && t.inheritedEvidence == s.inheritedEvidence
    && (ResultsSettle(s) ==> ResultsSettle(t))
    && forall id :: KeptAt(s, t, id)
  }

  lemma FramedKeepsWork(s: State, t: State, id: ActionId)
    requires Framed(s, t, id) && SameWork(s, t, id)
    requires id in t.queue ==> id in s.queue
    requires id in s.queue && IsFinal(s.queue[id].status) ==> KeptAt(s, t, id)
    ensures KeepsWork(s, t)
  {
  }

  lemma LandedKeepsWork(s: State, t: State, id: ActionId, surface: Surface, run: int)
    requires Local(s, id) && Landed(s, t, id, surface, run)
    ensures KeepsWork(s, t)
  {
    hide Framed, ItemOk, RecoveryOk, TerminalFailure, SameWork, KeepsWork;
    FramedKeepsWork(s, t, id);
  }

  lemma SameQueueKeeps(s: State, t: State)
    requires t.queue == s.queue && t.executionResults == s.executionResults && t.inheritedEvidence == s.inheritedEvidence
    ensures KeepsWork(s, t)
  {
  }

  lemma PutItemKeepsWork(s: State, t: State, id: ActionId)
    requires t == s || (id in s.queue && !IsFinal(s.queue[id].status) && id in t.queue && SameWork(s, t, id)
                        && t == PutItem(s, id, t.queue[id]))
    ensures KeepsWork(s, t)
  {
    hide KeepsWork;
    if t == s {
      SameQueueKeeps(s, t);
    } else {
      PutItemFrames(s, id, t.queue[id]);
      FramedKeepsWork(s, t, id);
    }
  }

  lemma IntentKeepsWork(s: State, surface: Surface, id: ActionId, req: DispatchRequest)
    requires RecordIntent(s, surface, id, req).Ok?
    ensures KeepsWork(s, RecordIntent(s, surface, id, req).value)
  {
    hide SaveIntent, EvidenceIdentity, DiagnosticIdentity, CorrectiveIdentity, MakeIntent, PlanParses, SameRequest;
    hide KeepsWork;
    var t := RecordIntent(s, surface, id, req).value;
    if surface == ActionSurface {
      PutItemKeepsWork(s, t, id);
    } else {
      SameQueueKeeps(s, t);
    }
  }

  lemma ReceiptKeepsWork(s: State, surface: Surface, id: ActionId, receipt: Receipt)
    requires ApplyDispatchReceipt(s, surface, id, receipt).Ok?
    ensures KeepsWork(s, ApplyDispatchReceipt(s, surface, id, receipt).value)
  {
    hide BindReceipt, EvidenceIdentity, DiagnosticIdentity, CorrectiveIdentity, RecordActionDispatch, KeepsWork;
    if surface == ActionSurface {
      ActionReceiptKeepsWork(s, id, receipt);
    } else {
      SameQueueKeeps(s, ApplyDispatchReceipt(s, surface, id, receipt).value);
    }
  }

  lemma ActionReceiptKeepsWork(s: State, id: ActionId, receipt: Receipt)
    requires RecordActionDispatch(s, id, receipt).Ok?
    ensures KeepsWork(s, RecordActionDispatch(s, id, receipt).value)
  {
    hide ReceiptMatches, KeepsWork;
    PutItemKeepsWork(s, RecordActionDispatch(s, id, receipt).value, id);
  }

  lemma StaleIntentKeepsWork(s: State, ref: string, head: string)
    requires RetireStaleIntent(s, ref, head).Ok?
    ensures KeepsWork(s, RetireStaleIntent(s, ref, head).value)
  {
    hide Selected, KeepsWork;
    var id := Selected(s).value.value.actionId;
    StaleIntentInFlight(s, id);
    PutItemKeepsWork(s, RetireStaleIntent(s, ref, head).value, id);
  }

  lemma EnqueueKeepsWork(s: State, plan: ActionPlan, progress: Option<string>)
    requires Enqueue(s, plan, progress).Ok?
    ensures KeepsWork(s, Enqueue(s, plan, progress).value)
  {
  }

  lemma StepKeepsWork(s: State, step: Step)
    requires Inv(s)
    ensures KeepsWork(s, Next(s, step))
  {
    hide Inv, Ingest, ApplyDispatchReceipt, RecordIntent, Enqueue, RetireStaleIntent, KeepsWork, ToStart, Local, Landed;
    SameQueueKeeps(s, s);
    if Perform(s, step).Ok? && Next(s, step) != s {
      match step
      case EnqueueStep(plan, progress) => EnqueueKeepsWork(s, plan, progress);
      case IngestStep(surface, runId, artifact, gateway) =>
        IngestLands(s, surface, runId, artifact, gateway);
        InvLocal(s, gateway.actionId);
        LandedKeepsWork(s, Next(s, step), gateway.actionId, surface, ReportedRun(artifact, gateway, runId));
      case PrepareStep(ref, at, head) =>
        var (surface, id) := ToStart(s).value;
        var executor := if surface == ActionSurface then s.queue[id].plan.executor else GithubNative;
        IntentKeepsWork(s, surface, id, DispatchRequest(WorkflowFor(surface, executor).value, ref, at, head));
      case ReceiptStep(surface, id, receipt) => ReceiptKeepsWork(s, surface, id, receipt);
      case StaleIntentStep(ref, head) => StaleIntentKeepsWork(s, ref, head);
      case _ => SameQueueKeeps(s, Next(s, step));
    }
  }

  lemma KeepingComposes(s: State, m: State, t: State)
    requires KeepsWork(s, m) && KeepsWork(m, t)
    ensures KeepsWork(s, t)
  {
    forall id ensures KeptAt(s, t, id) {
      assert KeptAt(s, m, id) && KeptAt(m, t, id);
    }
  }

  lemma {:induction false} RunKeepsWork(s: State, steps: seq<Step>)
    requires Inv(s)
    ensures KeepsWork(s, Run(s, steps))
    decreases |steps|
  {
    hide Inv, Next, KeepsWork;
    if steps == [] {
      SameQueueKeeps(s, s);
    } else {
      StepKeepsWork(s, steps[0]);
      StepKeeps(s, steps[0]);
      RunKeepsWork(Next(s, steps[0]), steps[1..]);
      KeepingComposes(s, Next(s, steps[0]), Run(s, steps));
    }
  }

  lemma ReachableSettles(s: State)
    requires Reachable(s)
    ensures ResultsSettle(s)
  {
    hide Inv, Run;
    var start: State, steps: seq<Step> :| IsFresh(start) && Run(start, steps) == s;
    FreshInv(start);
    RunKeepsWork(start, steps);
  }

  /** In every reachable state a completed action holds PASS/NOOP evidence whose provenance is exactly the
      run bound by its receipt and the source head saved with its intent. */
  lemma CompletedActionsAreProven(s: State, id: ActionId)
    requires Reachable(s) && id in s.queue && s.queue[id].status == ActionLifecycle.Complete
    ensures var item := s.queue[id];
      && item.completionResult.Some? && Succeeded(item.completionResult.value.status)
      && item.completionResult.value.details.provenance.Some? && item.dispatchReceipt.Some? && item.dispatchIntent.Some?
      && var p := item.completionResult.value.details.provenance.value;
         && Some(p.workflowRunId) == item.dispatchReceipt.value.workflowRunId && p.actionId == id
         && (item.dispatchIntent.value.expectedHeadSha.Some? ==> Some(p.headSha) == item.dispatchIntent.value.expectedHeadSha)
  {
    hide Reachable;
    ReachableSettles(s);
    assert ProvenComplete(id, s.queue[id]);
  }

  // ---------- what integrated evidence is, said on the queue ----------

  predicate Good(status: ExecutionStatus) {
    status == PASS || status == NOOP
  }

  /** Completed with a good result, its own or the stored one, or inherited as good from another workload. */
  ghost predicate IsProven(s: State, id: ActionId) {
    || (id in s.queue && s.queue[id].status == ActionLifecycle.Complete
        && ((s.queue[id].completionResult.Some? && Good(s.queue[id].completionResult.value.status))
            || (id in s.executionResults && Good(s.executionResults[id].status))))
    || (id != "" && exists e :: e in s.inheritedEvidence && e.sourceActionId == id
                                && (e.verifiedStatus == "pass" || e.verifiedStatus == "noop"))
  }

  /** What the item's own result read back afterwards. */
  predicate ReadBack(item: Item, after: Readback) {
    item.completionResult.Some? && item.completionResult.value.details.after == Some(after)
  }

  /** A proven merge_pr action on this pull request read back that it is merged. */
  ghost predicate IsMerged(s: State, number: int) {
    exists m, after: Readback :: m in s.queue && IsProven(s, m)
      && s.queue[m].plan.payload.action == Some("merge_pr") && s.queue[m].plan.payload.target.Some?
      && s.queue[m].plan.payload.target.value.number == Some(number)
      && ReadBack(s.queue[m], after) && after.merged == Some(true)
  }

  /** The item opened a pull request that is merged. */
  ghost predicate OpenedMergedPr(s: State, item: Item) {
    exists after: Readback, number: int :: ReadBack(item, after) && after.prNumber == Some(number) && IsMerged(s, number)
  }

  /** A proven create_pr action carried this branch into a pull request that is merged. */
  ghost predicate IsCarried(s: State, branch: string) {
    && branch != ""
    && exists c :: c in s.queue && IsProven(s, c)
         && s.queue[c].plan.payload.action == Some("create_pr") && s.queue[c].plan.payload.target.Some?
         && s.queue[c].plan.payload.target.value.head == Some(branch) && OpenedMergedPr(s, s.queue[c])
  }

  lemma ProvenExactly(s: State, id: ActionId)
    ensures id in VerifiedEvidenceIds(s) <==> IsProven(s, id)
  {
  }

  lemma MergedExactly(s: State, number: int)
    ensures number in MergedPrNumbers(s, VerifiedEvidenceIds(s)) <==> IsMerged(s, number)
  {
    forall id ensures id in VerifiedEvidenceIds(s) <==> IsProven(s, id) {
      ProvenExactly(s, id);
    }
    var verified := VerifiedEvidenceIds(s);
    hide IsProven, VerifiedEvidenceIds;
    if number in MergedPrNumbers(s, verified) {
      var m :| m in s.queue && m in verified && Merges(s.queue[m]) && s.queue[m].plan.payload.target.value.number.value == number;
      assert ReadBack(s.queue[m], AfterOf(s.queue[m]).value);
    }
  }

  lemma OpenedMergedExactly(s: State, item: Item)
    ensures OpenedMerged(item, MergedPrNumbers(s, VerifiedEvidenceIds(s))) <==> OpenedMergedPr(s, item)
  {
    var merged := MergedPrNumbers(s, VerifiedEvidenceIds(s));
    if OpenedMerged(item, merged) {
      MergedExactly(s, AfterOf(item).value.prNumber.value);
      assert ReadBack(item, AfterOf(item).value);
    }
    if OpenedMergedPr(s, item) {
      var after: Readback, number: int :| ReadBack(item, after) && after.prNumber == Some(number) && IsMerged(s, number);
      MergedExactly(s, number);
    }
  }

  lemma CarriedExactly(s: State, branch: string)
    ensures var verified := VerifiedEvidenceIds(s);
      branch in MergedHeads(s, verified, MergedPrNumbers(s, verified)) <==> IsCarried(s, branch)
  {
    var verified := VerifiedEvidenceIds(s);
    forall id ensures id in verified <==> IsProven(s, id) {
      ProvenExactly(s, id);
    }
    forall id | id in s.queue
      ensures OpenedMerged(s.queue[id], MergedPrNumbers(s, verified)) <==> OpenedMergedPr(s, s.queue[id])
    {
      OpenedMergedExactly(s, s.queue[id]);
    }
    hide IsProven, VerifiedEvidenceIds, MergedPrNumbers, OpenedMerged, OpenedMergedPr;
  }

  /** An action is integrated evidence of a criterion exactly when it is proven, claims this criterion, and its
      work reached the main branch: it opened or merged a merged pull request, or changed a file on a branch
      that such a pull request carried.  Creating a branch is never evidence. */
  lemma EvidenceExactly(s: State, id: ActionId, criterion: string)
    ensures id in EvidenceFor(s, criterion) <==>
      && id in s.queue && IsProven(s, id) && criterion != "" && s.queue[id].progress == Some(criterion)
      && s.queue[id].plan.payload.target.Some?
      && var p := s.queue[id].plan.payload; var target := p.target.value;
         if p.action == Some("create_pr") then OpenedMergedPr(s, s.queue[id])
         else if p.action == Some("merge_pr") then target.number.Some? && IsMerged(s, target.number.value)
         else p.resource == Some("file") && target.branch.Some? && IsCarried(s, target.branch.value)
  {
    if id in s.queue {
      ProvenExactly(s, id);
      OpenedMergedExactly(s, s.queue[id]);
      var target := s.queue[id].plan.payload.target;
      if target.Some? && target.value.number.Some? {
        MergedExactly(s, target.value.number.value);
      }
      if target.Some? && target.value.branch.Some? {
        CarriedExactly(s, target.value.branch.value);
      }
    }
    hide IsProven, VerifiedEvidenceIds, MergedPrNumbers, MergedHeads, OpenedMerged, OpenedMergedPr, IsMerged, IsCarried;
  }

  // ---------- which targets a plan may have ----------

  ghost predicate OnlyNumber(prs: seq<OpenPullRequest>, i: int, number: Option<int>) {
    && 0 <= i < |prs| && Some(prs[i].number) == number
    && forall j :: 0 <= j < |prs| && j != i ==> Some(prs[j].number) != number
  }

  /** Exactly one open pull request has this number; it has the expected head and green CI. */
  ghost predicate MayMerge(prs: seq<OpenPullRequest>, number: Option<int>, expectedHead: Option<string>) {
    exists i :: OnlyNumber(prs, i, number) && Some(prs[i].headSha) == expectedHead && prs[i].ciState == "success"
  }

  /** A branch the workload owns and that is not kept as evidence of a rejected merge. */
  predicate MayUse(ctx: RepositoryContext, branch: Option<string>) {
    branch.Some? && branch.value in ctx.branchHeads && branch.value !in ctx.conflictedBranches
  }

  lemma {:induction false} NumberedExactly(prs: seq<OpenPullRequest>, number: Option<int>)
    ensures PrsNumbered(prs, number) == [] <==> forall j :: 0 <= j < |prs| ==> Some(prs[j].number) != number
    ensures forall i :: OnlyNumber(prs, i, number) ==> PrsNumbered(prs, number) == [prs[i]]
    ensures |PrsNumbered(prs, number)| == 1 ==>
      exists i :: OnlyNumber(prs, i, number) && PrsNumbered(prs, number) == [prs[i]]
  {
    if prs != [] {
      var rest := prs[1..];
      NumberedExactly(rest, number);
      assert forall j :: 0 < j < |prs| ==> prs[j] == rest[j - 1];
      assert forall j :: 0 <= j < |rest| ==> rest[j] == prs[j + 1];
    }
  }

  lemma MergesExactly(prs: seq<OpenPullRequest>, number: Option<int>, expectedHead: Option<string>)
    ensures MayMerge(prs, number, expectedHead) <==>
      var found := PrsNumbered(prs, number);
      |found| == 1 && Some(found[0].headSha) == expectedHead && found[0].ciState == "success"
  {
    NumberedExactly(prs, number);
    hide PrsNumbered;
  }

  /** A plan's target passes the preflight exactly when it is there and current: a new branch starts at the
      observed head, files and pull requests use an own branch without conflict, and a merge names the one open
      pull request at its exact green head. */
  lemma TargetsAreCheckedExactly(plan: ActionPlan, ctx: RepositoryContext)
    ensures PreflightRepositoryTarget(plan, ctx).None? && PreflightNativeTarget(plan, ctx).None? <==>
      var p := plan.payload;
      match plan.executor
      case GithubActions => true
      case RepositoryMutation =>
        p.target.Some?
        && (if p.resource == Some("branch") && p.action == Some("create")
            then ctx.observedHeadSha == "" || p.desiredSha == Some(ctx.observedHeadSha)
            else p.resource == Some("file") ==> MayUse(ctx, p.target.value.branch))
      case GithubNative =>
        p.target.Some?
        && (p.action == Some("create_pr") ==> MayUse(ctx, p.target.value.head))
        && (p.action == Some("merge_pr") ==>
              MayMerge(ctx.openPullRequests, p.target.value.number, p.target.value.expectedHeadSha))
  {
    if plan.payload.target.Some? {
      MergesExactly(ctx.openPullRequests, plan.payload.target.value.number, plan.payload.target.value.expectedHeadSha);
    }
    hide PrsNumbered, MayMerge;
  }

  /** Only plans with such targets are ever accepted, each under a new key. */
  lemma AcceptedPlanHasLiveTarget(
    plan: ActionPlan, progress: Option<string>, claim: Option<CompletionClaim>, criteria: seq<string>, s: State,
    ctx: RepositoryContext)
    requires PreflightSemanticPlan(plan, progress, claim, criteria, s, ctx) == None
    ensures plan.idempotencyKey !in s.queue
    ensures PreflightRepositoryTarget(plan, ctx).None? && PreflightNativeTarget(plan, ctx).None?
  {
  }

  // ---------- evidence is monotone ----------

  lemma WorkKeeps(s: State, t: State, id: ActionId)
    requires KeepsWork(s, t) && ResultsSettle(s) && id in s.queue
    ensures id in t.queue && t.queue[id].plan == s.queue[id].plan && t.queue[id].progress == s.queue[id].progress
    ensures s.queue[id].completionResult.Some? ==> t.queue[id].completionResult == s.queue[id].completionResult
    ensures VerifiedItem(s, id) ==> VerifiedItem(t, id)
  {
    assert KeptAt(s, t, id);
  }

  lemma EvidenceGrows(s: State, t: State, criterion: string)
    requires KeepsWork(s, t) && ResultsSettle(s)
    ensures EvidenceFor(s, criterion) <= EvidenceFor(t, criterion)
  {
    forall id | id in s.queue
      ensures id in t.queue && t.queue[id].plan == s.queue[id].plan && t.queue[id].progress == s.queue[id].progress
      ensures s.queue[id].completionResult.Some? ==> t.queue[id].completionResult == s.queue[id].completionResult
      ensures VerifiedItem(s, id) ==> VerifiedItem(t, id)
    {
      WorkKeeps(s, t, id);
    }
    assert t.inheritedEvidence == s.inheritedEvidence;
    hide KeepsWork, ResultsSettle, VerifiedItem;
    var v, w := VerifiedEvidenceIds(s), VerifiedEvidenceIds(t);
    assert v <= w;
    var m, n := MergedPrNumbers(s, v), MergedPrNumbers(t, w);
    assert m <= n;
    assert MergedHeads(s, v, m) <= MergedHeads(t, w, n);
  }

  /** Along every run of one workload, integrated acceptance evidence only grows, so a criterion that
      is no longer eligible never becomes eligible again. */
  lemma EligibleNeverRegains(s: State, steps: seq<Step>, criteria: seq<string>)
    requires Reachable(s)
    ensures forall c :: EvidenceFor(s, c) <= EvidenceFor(Run(s, steps), c)
    ensures forall c :: c in EligibleCriteria(criteria, Run(s, steps)) ==> c in EligibleCriteria(criteria, s)
  {
    hide Inv, Run, Reachable, KeepsWork, ResultsSettle, EvidenceFor;
    ReachableInv(s);
    ReachableSettles(s);
    RunKeepsWork(s, steps);
    forall c ensures EvidenceFor(s, c) <= EvidenceFor(Run(s, steps), c) {
      EvidenceGrows(s, Run(s, steps), c);
    }
  }

  // ---------- closing ----------

  lemma {:induction false} ClaimedIs(claim: CompletionClaim, criterion: string)
    ensures Claimed(claim, criterion).Some? <==> exists i :: 0 <= i < |claim| && claim[i].criterion == criterion
    ensures Claimed(claim, criterion).Some? ==>
      exists i :: 0 <= i < |claim| && claim[i].criterion == criterion && claim[i].evidenceIds == Claimed(claim, criterion).value
  {
    if claim != [] && claim[|claim| - 1].criterion != criterion {
      var rest := claim[..|claim| - 1];
      ClaimedIs(rest, criterion);
      if i :| 0 <= i < |rest| && rest[i].criterion == criterion {
        assert claim[i] == rest[i];
      }
    }
  }

  lemma EvidenceIsVerified(s: State, criterion: string)
    ensures EvidenceFor(s, criterion) <= VerifiedEvidenceIds(s)
  {
  }

  lemma ClaimIsAccepted(criteria: seq<string>, s: State)
    requires DeterministicCompletionClaim(criteria, s).Some?
    ensures PreflightClose(None, DeterministicCompletionClaim(criteria, s), criteria, s) == None
  {
    hide EvidenceFor, VerifiedEvidenceIds, SortedIds;
    var claim := DeterministicCompletionClaim(criteria, s).value;
    forall c | c in criteria
      ensures Claimed(claim, c).Some? && Claimed(claim, c).value != []
      ensures forall id :: id in Claimed(claim, c).value ==> id in VerifiedEvidenceIds(s)
    {
      var i :| 0 <= i < |criteria| && criteria[i] == c;
      assert claim[i].criterion == c;
      ClaimedIs(claim, c);
      EvidenceIsVerified(s, c);
      var k :| 0 <= k < |claim| && claim[k].criterion == c && claim[k].evidenceIds == Claimed(claim, c).value;
      assert claim[k].evidenceIds == SortedIds(EvidenceFor(s, c));
      var id :| id in EvidenceFor(s, c);
      assert id in SortedIds(EvidenceFor(s, c));
    }
  }

  /** Whenever the controller can build a completion claim, closing the Issue with it passes the preflight,
      for every close plan with a target, exactly unless that plan is already queued. */
  lemma DeterministicCloseIsAccepted(criteria: seq<string>, s: State, plan: ActionPlan, ctx: RepositoryContext)
    requires DeterministicCompletionClaim(criteria, s).Some?
    requires IsCloseIssue(plan) && plan.payload.target.Some?
    ensures PreflightSemanticPlan(plan, None, DeterministicCompletionClaim(criteria, s), criteria, s, ctx)
            == if plan.idempotencyKey in s.queue then Some("duplicate_action") else None
  {
    hide DeterministicCompletionClaim, PreflightClose;
    ClaimIsAccepted(criteria, s);
    ClaimHasCriteria(criteria, s);
  }

  lemma ClaimHasCriteria(criteria: seq<string>, s: State)
    ensures DeterministicCompletionClaim(criteria, s).Some?
            <==> criteria != [] && EligibleCriteria(criteria, s) == []
  {
    hide EvidenceFor, SortedIds;
    if EligibleCriteria(criteria, s) != [] {
      assert EligibleCriteria(criteria, s)[0] in EligibleCriteria(criteria, s);
    }
  }

  /** An Issue that can be closed stays closable along every run. */
  lemma ClosableStaysClosable(s: State, steps: seq<Step>, criteria: seq<string>)
    requires Reachable(s) && DeterministicCompletionClaim(criteria, s).Some?
    ensures DeterministicCompletionClaim(criteria, Run(s, steps)).Some?
  {
    hide DeterministicCompletionClaim, Reachable, Run;
    EligibleNeverRegains(s, steps, criteria);
    ClaimHasCriteria(criteria, s);
    ClaimHasCriteria(criteria, Run(s, steps));
    HeadIsListed(EligibleCriteria(criteria, Run(s, steps)));
  }

  lemma HeadIsListed(xs: seq<string>)
    ensures xs != [] ==> xs[0] in xs
  {
  }

  /** An accepted close names, for exactly the criteria of the Issue, verified evidence of each. */
  lemma AcceptedCloseIsBacked(
    plan: ActionPlan, progress: Option<string>, claim: Option<CompletionClaim>, criteria: seq<string>, s: State,
    ctx: RepositoryContext)
    requires IsCloseIssue(plan) && criteria != []
    requires PreflightSemanticPlan(plan, progress, claim, criteria, s, ctx) == None
    ensures claim.Some? && progress.None? && plan.idempotencyKey !in s.queue
    ensures forall entry :: entry in claim.value ==> entry.criterion in criteria
    ensures forall c :: c in criteria ==>
      exists entry :: entry in claim.value && entry.criterion == c && entry.evidenceIds != []
                      && forall id :: id in entry.evidenceIds ==> id in VerifiedEvidenceIds(s)
  {
    hide VerifiedEvidenceIds;
    forall c | c in criteria
      ensures exists entry :: entry in claim.value && entry.criterion == c && entry.evidenceIds != []
                              && forall id :: id in entry.evidenceIds ==> id in VerifiedEvidenceIds(s)
    {
      ClaimedIs(claim.value, c);
      var k :| 0 <= k < |claim.value| && claim.value[k].criterion == c
        && claim.value[k].evidenceIds == Claimed(claim.value, c).value;
      assert claim.value[k] in claim.value;
    }
  }

  /** A plan accepted with a progress claim advances a criterion that was still eligible. */
  lemma AcceptedProgressIsEligible(
    plan: ActionPlan, progress: Option<string>, claim: Option<CompletionClaim>, criteria: seq<string>, s: State,
    ctx: RepositoryContext)
    requires !IsCloseIssue(plan) && criteria != []
    requires PreflightSemanticPlan(plan, progress, claim, criteria, s, ctx) == None
    ensures progress.Some? && progress.value in EligibleCriteria(criteria, s) && claim.None?
    ensures Enqueue(s, plan, progress).Ok? <==> plan.researchId == s.researchId
  {
    hide EvidenceFor;
  }
}
