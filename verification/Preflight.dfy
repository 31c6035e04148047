/** preflight.py: which acceptance criteria are integrated, and which plans may be enqueued. */
module Preflight {
  import opened Prelude
  import opened Records
  import opened Diagnosis
  import opened DurableState
  import opened Selector

  // ---------- verified evidence ----------

  predicate VerifiedItem(s: State, id: ActionId)
    requires id in s.queue
  {
    s.queue[id].status == ActionLifecycle.Complete &&
    ((s.queue[id].completionResult.Some? && Succeeded(s.queue[id].completionResult.value.status))
     || (id in s.executionResults && Succeeded(s.executionResults[id].status)))
  }

  predicate VerifiedInheritance(e: InheritedEvidence) {
    (e.verifiedStatus == "pass" || e.verifiedStatus == "noop") && e.sourceActionId != ""
  }

  function VerifiedEvidenceIds(s: State): set<ActionId> {
    (set id | id in s.queue && VerifiedItem(s, id))
    + (set e | e in s.inheritedEvidence && VerifiedInheritance(e) :: e.sourceActionId)
  }

  // ---------- merged pull requests, merged heads, criteria ----------

  function AfterOf(item: Item): Option<Readback> {
    if item.completionResult.Some? then item.completionResult.value.details.after else None
  }

  predicate Merges(item: Item) {
    && item.plan.payload.action == Some("merge_pr")
    && item.plan.payload.target.Some? && item.plan.payload.target.value.number.Some?
    && AfterOf(item).Some? && AfterOf(item).value.merged == Some(true)
  }

  function MergedPrNumbers(s: State, verified: set<ActionId>): set<int> {
    set id | id in s.queue && id in verified && Merges(s.queue[id]) :: s.queue[id].plan.payload.target.value.number.value
  }

  /** The pull request this item opened is one of `merged`. */
  predicate OpenedMerged(item: Item, merged: set<int>) {
    AfterOf(item).Some? && AfterOf(item).value.prNumber.Some? && AfterOf(item).value.prNumber.value in merged
  }

  predicate CarriesHead(item: Item, merged: set<int>) {
    && item.plan.payload.action == Some("create_pr")
    && item.plan.payload.target.Some? && Truthy(item.plan.payload.target.value.head)
    && OpenedMerged(item, merged)
  }

  function MergedHeads(s: State, verified: set<ActionId>, merged: set<int>): set<string> {
    set id | id in s.queue && id in verified && CarriesHead(s.queue[id], merged) ::
      s.queue[id].plan.payload.target.value.head.value
  }

  /** The item's work reached the main branch through a merged pull request. */
  predicate Integrated(item: Item, merged: set<int>, heads: set<string>) {
    var p := item.plan.payload;
    p.target.Some? &&
    var target := p.target.value;
    if p.action == Some("create_pr") then OpenedMerged(item, merged)
    else if p.action == Some("merge_pr") then target.number.Some? && target.number.value in merged
    else p.resource == Some("file") && target.branch.Some? && target.branch.value in heads
  }

  predicate Supports(s: State, verified: set<ActionId>, merged: set<int>, heads: set<string>, id: ActionId, criterion: string) {
    && id in s.queue && id in verified
    && s.queue[id].progress == Some(criterion) && criterion != ""
    && Integrated(s.queue[id], merged, heads)
  }

  /** The actions whose integrated work supports a criterion. */
  function EvidenceFor(s: State, criterion: string): set<ActionId> {
    var verified := VerifiedEvidenceIds(s);
    var merged := MergedPrNumbers(s, verified);
    var heads := MergedHeads(s, verified, merged);
    set id | id in s.queue && Supports(s, verified, merged, heads, id, criterion)
  }

  /** `integrated_acceptance_evidence`: the criteria with evidence, each with all of its evidence. */
  ghost predicate IsIntegratedEvidence(s: State, m: map<string, set<ActionId>>) {
    forall c :: (c in m <==> EvidenceFor(s, c) != {}) && (c in m ==> m[c] == EvidenceFor(s, c))
  }

  // ---------- the loops ----------

  function QueueEvidence(s: State, without: set<ActionId>): set<ActionId> {
    set id | id in s.queue && id !in without && VerifiedItem(s, id)
  }

  function InheritedIds(inherited: seq<InheritedEvidence>): set<ActionId> {
    set e | e in inherited && VerifiedInheritance(e) :: e.sourceActionId
  }

  method CollectVerifiedEvidence(s: State) returns (result: set<ActionId>)
    ensures result == VerifiedEvidenceIds(s)
  {
    hide VerifiedItem, VerifiedInheritance;
    result := CollectQueueEvidence(s);
    for i := 0 to |s.inheritedEvidence|
      invariant result == QueueEvidence(s, {}) + InheritedIds(s.inheritedEvidence[..i])
    {
      var e := s.inheritedEvidence[i];
      assert s.inheritedEvidence[..i + 1] == s.inheritedEvidence[..i] + [e];
      InheritsOneMore(s.inheritedEvidence[..i], e);
      if VerifiedInheritance(e) {
        result := result + {e.sourceActionId};
      }
    }
    assert s.inheritedEvidence[..|s.inheritedEvidence|] == s.inheritedEvidence;
  }

  lemma InheritsOneMore(inherited: seq<InheritedEvidence>, e: InheritedEvidence)
    ensures InheritedIds(inherited + [e])
            == InheritedIds(inherited) + if VerifiedInheritance(e) then {e.sourceActionId} else {}
  {
    hide VerifiedInheritance;
  }

  method CollectQueueEvidence(s: State) returns (result: set<ActionId>)
    ensures result == QueueEvidence(s, {})
  {
    hide VerifiedItem;
    result := {};
    var rest := s.queue.Keys;
    while rest != {}
      invariant rest <= s.queue.Keys
      invariant result == QueueEvidence(s, rest)
      decreases |rest|
    {
      var id :| id in rest;
      if VerifiedItem(s, id) {
        result := result + {id};
      }
      rest := rest - {id};
    }
  }

  method CollectMergedPrs(s: State, verified: set<ActionId>) returns (merged: set<int>)
    ensures merged == MergedPrNumbers(s, verified)
  {
    merged := {};
    var rest := s.queue.Keys;
    while rest != {}
      invariant rest <= s.queue.Keys
      invariant merged == set id | id in s.queue && id !in rest && id in verified && Merges(s.queue[id]) ::
                            s.queue[id].plan.payload.target.value.number.value
      decreases |rest|
    {
      var id :| id in rest;
      if id in verified && Merges(s.queue[id]) {
        merged := merged + {s.queue[id].plan.payload.target.value.number.value};
      }
      rest := rest - {id};
    }
  }

  method CollectMergedHeads(s: State, verified: set<ActionId>, merged: set<int>) returns (heads: set<string>)
    ensures heads == MergedHeads(s, verified, merged)
  {
    heads := {};
    var rest := s.queue.Keys;
    while rest != {}
      invariant rest <= s.queue.Keys
      invariant heads == set id | id in s.queue && id !in rest && id in verified && CarriesHead(s.queue[id], merged) ::
                           s.queue[id].plan.payload.target.value.head.value
      decreases |rest|
    {
      var id :| id in rest;
      if id in verified && CarriesHead(s.queue[id], merged) {
        heads := heads + {s.queue[id].plan.payload.target.value.head.value};
      }
      rest := rest - {id};
    }
  }

  /** The three passes: merged pull requests, merged heads, then evidence by criterion. */
  method CollectIntegratedEvidence(s: State) returns (m: map<string, set<ActionId>>)
    ensures IsIntegratedEvidence(s, m)
  {
    hide VerifiedEvidenceIds, MergedPrNumbers, MergedHeads, Integrated;
    var verified := CollectVerifiedEvidence(s);
    var merged := CollectMergedPrs(s, verified);
    var heads := CollectMergedHeads(s, verified, merged);
    m := map[];
    var rest := s.queue.Keys;
    while rest != {}
      invariant rest <= s.queue.Keys
      invariant forall c :: c in m ==> m[c] != {}
      invariant forall c, id :: (c in m && id in m[c])
                  <==> (id !in rest && Supports(s, verified, merged, heads, id, c))
      decreases |rest|
    {
      var id :| id in rest;
      if s.queue[id].progress.Some? {
        var c := s.queue[id].progress.value;
        if Supports(s, verified, merged, heads, id, c) {
          m := m[c := (if c in m then m[c] else {}) + {id}];
        }
      }
      rest := rest - {id};
    }
    forall c ensures (c in m <==> EvidenceFor(s, c) != {}) && (c in m ==> m[c] == EvidenceFor(s, c)) {
      assert forall id :: id in EvidenceFor(s, c) <==> Supports(s, verified, merged, heads, id, c);
      assert c in m ==> m[c] == EvidenceFor(s, c);
      assert c !in m ==> EvidenceFor(s, c) == {};
    }
  }

  // ---------- eligibility and the completion claim ----------

  /** The criteria of the Issue body are given, in order and without repetition. */
  function EligibleCriteria(criteria: seq<string>, s: State): (eligible: seq<string>)
    ensures forall c :: c in eligible <==> c in criteria && EvidenceFor(s, c) == {}
  {
    if criteria == [] then []
    else
      (if EvidenceFor(s, criteria[0]) == {} then [criteria[0]] else []) + EligibleCriteria(criteria[1..], s)
  }

  ghost function SortedIds(ids: set<ActionId>): (sorted: seq<ActionId>)
    ensures forall id :: id in sorted <==> id in ids
  {
    if ids == {} then [] else [First(ids)] + SortedIds(ids - {First(ids)})
  }

  datatype CriterionClaim = CriterionClaim(criterion: string, evidenceIds: seq<ActionId>)

  type CompletionClaim = seq<CriterionClaim>

  ghost function DeterministicCompletionClaim(criteria: seq<string>, s: State): Option<CompletionClaim> {
    if criteria == [] || exists c :: c in criteria && EvidenceFor(s, c) == {} then None
    else Some(seq(|criteria|, i requires 0 <= i < |criteria| =>
                    CriterionClaim(criteria[i], SortedIds(EvidenceFor(s, criteria[i])))))
  }

  // ---------- the preflight of a plan ----------

  datatype OpenPullRequest = OpenPullRequest(number: int, headSha: string, ciState: string)

  datatype RepositoryContext = RepositoryContext(
    observedHeadSha: string, branchHeads: map<string, string>, conflictedBranches: set<string>,
    openPullRequests: seq<OpenPullRequest>)

  function PreflightRepositoryTarget(plan: ActionPlan, ctx: RepositoryContext): Option<string> {
    var p := plan.payload;
    if plan.executor != RepositoryMutation then None
    else if p.target.None? then Some("invalid_target")
    else if p.resource == Some("branch") && p.action == Some("create") then
      if ctx.observedHeadSha != "" && p.desiredSha != Some(ctx.observedHeadSha) then Some("stale_branch_base") else None
    else if p.resource == Some("file") then
      var branch := p.target.value.branch;
      if branch.Some? && branch.value in ctx.conflictedBranches then Some("conflicted_workload_branch")
      else if branch.None? || branch.value !in ctx.branchHeads then Some("missing_target_branch")
      else None
    else None
  }

  function PrsNumbered(prs: seq<OpenPullRequest>, number: Option<int>): seq<OpenPullRequest> {
    if prs == [] then []
    else (if Some(prs[0].number) == number then [prs[0]] else []) + PrsNumbered(prs[1..], number)
  }

  function PreflightNativeTarget(plan: ActionPlan, ctx: RepositoryContext): Option<string> {
    var p := plan.payload;
    if plan.executor != GithubNative then None
    else if p.target.None? then Some("invalid_target")
    else if p.action == Some("create_pr") then
      var head := p.target.value.head;
      if head.Some? && head.value in ctx.conflictedBranches then Some("conflicted_pr_head_branch")
      else if head.None? || head.value !in ctx.branchHeads then Some("missing_pr_head_branch")
      else None
    else if p.action == Some("merge_pr") then
      var found := PrsNumbered(ctx.openPullRequests, p.target.value.number);
      if |found| != 1 then Some("missing_merge_target")
      else if Some(found[0].headSha) != p.target.value.expectedHeadSha then Some("stale_pr_head")
      else if found[0].ciState != "success" then Some("pr_not_ready")
      else None
    else None
  }

  predicate IsCloseIssue(plan: ActionPlan) {
    plan.executor == GithubNative && plan.payload.action == Some("close_issue")
  }

  /** `by_criterion`: the last entry of a criterion wins. */
  function Claimed(claim: CompletionClaim, criterion: string): Option<seq<ActionId>> {
    if claim == [] then None
    else if claim[|claim| - 1].criterion == criterion then Some(claim[|claim| - 1].evidenceIds)
    else Claimed(claim[..|claim| - 1], criterion)
  }

  predicate CoversExactly(claim: CompletionClaim, criteria: seq<string>) {
    (forall c :: c in criteria ==> Claimed(claim, c).Some?) && (forall entry :: entry in claim ==> entry.criterion in criteria)
  }

  predicate ClaimVerified(claim: CompletionClaim, criteria: seq<string>, s: State) {
    forall c :: c in criteria && Claimed(claim, c).Some? ==>
      Claimed(claim, c).value != [] && forall id :: id in Claimed(claim, c).value ==> id in VerifiedEvidenceIds(s)
  }

  function PreflightClose(progress: Option<string>, claim: Option<CompletionClaim>, criteria: seq<string>, s: State)
    : Option<string>
  {
    if progress.Some? then Some("close_has_progress_claim")
    else if claim.None? then Some("premature_close")
    else if !CoversExactly(claim.value, criteria) then Some("incomplete_acceptance_coverage")
    else if !ClaimVerified(claim.value, criteria, s) then Some("unverified_completion_evidence")
    else None
  }

  function PreflightProgress(progress: Option<string>, claim: Option<CompletionClaim>, criteria: seq<string>, s: State)
    : Option<string>
  {
    if claim.Some? then Some("completion_claim_before_close")
    else if progress.None? then Some("missing_acceptance_progress")
    else if progress.value !in criteria then Some("unknown_acceptance_criterion")
    else if EvidenceFor(s, progress.value) != {} then Some("acceptance_already_integrated")
    else None
  }

  /** The failure code, or None when the plan may be enqueued. */
  function PreflightSemanticPlan(
    plan: ActionPlan, progress: Option<string>, claim: Option<CompletionClaim>, criteria: seq<string>, s: State,
    ctx: RepositoryContext): Option<string>
  {
    if plan.idempotencyKey in s.queue then Some("duplicate_action")
    else if PreflightRepositoryTarget(plan, ctx).Some? then PreflightRepositoryTarget(plan, ctx)
    else if PreflightNativeTarget(plan, ctx).Some? then PreflightNativeTarget(plan, ctx)
    else if criteria == [] then None
    else if IsCloseIssue(plan) then PreflightClose(progress, claim, criteria, s)
    else PreflightProgress(progress, claim, criteria, s)
  }
}
