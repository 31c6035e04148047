/** Many writers holding old copies never lose an update of the workload they read. */
module LostUpdate {
  import opened Prelude
  import opened Records
  import opened Diagnosis
  import opened DurableState
  import opened Selector
  import opened Protocol
  import opened Preservation
  import opened ControllerTheorems
  import opened StateLedger

  /** A prepared request, the state its writer read, and how many states had been stored by then. */
  datatype Prepared = Prepared(base: Option<State>, seen: nat, request: WriteRequest)

  /** The comments, every request ever prepared, and every state ever stored, oldest first. */
  datatype Ledger = Ledger(comments: seq<Comment>, prepared: seq<Prepared>, stored: seq<State>)

  datatype LedgerStep =
    | PrepareWrite(proposed: State)
    | CommitWrite(which: nat, newId: int)
    | OtherComment(newId: int)

  /** The state every reader finds. */
  function Current(l: Ledger): Option<State> {
    match LoadStateComment(Page(l.comments))
    case Ok(s) => s
    case Err(_) => None
  }

  predicate Fresh(comments: seq<Comment>, id: int) {
    forall c :: c in comments ==> c.id != id
  }

  /** Validation and write are one step; a refused request changes nothing. */
  predicate Commits(l: Ledger, step: LedgerStep) {
    step.CommitWrite? && step.which < |l.prepared| && Fresh(l.comments, step.newId)
    && ValidateStateWritePrecondition(Page(l.comments), l.prepared[step.which].request).Pass?
  }

  function LedgerNext(l: Ledger, step: LedgerStep): Ledger {
    match step
    case PrepareWrite(proposed) =>
      var r := StateWriteRequest(Page(l.comments), proposed);
      if r.Err? then l else l.(prepared := l.prepared + [Prepared(Current(l), |l.stored|, r.value)])
    case CommitWrite(k, newId) =>
      if !Commits(l, step) then l
      else
        var request := l.prepared[k].request;
        l.(comments := Written(l.comments, request, newId), stored := l.stored + [request.body])
    case OtherComment(newId) =>
      if Fresh(l.comments, newId) then l.(comments := l.comments + [Comment(newId, None)]) else l
  }

  const EMPTY := Ledger([], [], [])

  /** The ledger after a run that starts without comments. */
  function LedgerRun(steps: seq<LedgerStep>): Ledger {
    if steps == [] then EMPTY else LedgerNext(LedgerRun(steps[..|steps| - 1]), steps[|steps| - 1])
  }

  // ---------- the invariant ----------

  /** Each stored state is a later revision of the one before, or replaces a finished workload. */
  ghost predicate Follows(before: State, after: State) {
    if before.researchId == after.researchId then after.revision > before.revision
    else CanRolloverState(before)
  }

  ghost predicate Chain(states: seq<State>) {
    forall i :: 0 <= i < |states| - 1 ==> Follows(states[i], states[i + 1])
  }

  function Newest(states: seq<State>): Option<State> {
    if states == [] then None else Some(states[|states| - 1])
  }

  predicate PreparedOk(l: Ledger, p: Prepared) {
    && p.seen <= |l.stored| && p.base == Newest(l.stored[..p.seen])
    && p.request.expectedPreviousRevision == (if p.base.Some? then Some(p.base.value.revision) else None)
  }

  ghost predicate LedgerInv(l: Ledger) {
    && DistinctIds(l.comments)
    && LoadStateComment(Page(l.comments)) == Ok(Newest(l.stored))
    && Chain(l.stored)
    && forall p :: p in l.prepared ==> PreparedOk(l, p)
  }

  /** The step creates the state behind a page that is already full. */
  predicate Buries(l: Ledger, step: LedgerStep) {
    Commits(l, step) && !Visible(l.comments, l.prepared[step.which].request)
  }

  lemma CommitFacts(l: Ledger, step: LedgerStep)
    requires LedgerInv(l) && Commits(l, step)
    ensures var t := LedgerNext(l, step); var request := l.prepared[step.which].request;
      && DistinctIds(t.comments)
      && (LoadStateComment(Page(t.comments)) == Ok(Some(request.body)) <==> !Buries(l, step))
      && (Current(l).Some? <==> request.expectedPreviousRevision.Some?)
      && (Current(l).Some? ==> request.expectedPreviousRevision == Some(Current(l).value.revision)
                               && RequireFreshWrite(Current(l), request.body).Pass?)
  {
    hide CanRolloverState, StateComments, Written, DistinctIds, Chain, Page;
    WrittenIsAuthoritative(l.comments, l.prepared[step.which].request, step.newId);
  }

  lemma ChainGrows(states: seq<State>, next: State)
    requires Chain(states) && RequireFreshWrite(Newest(states), next).Pass?
    ensures Chain(states + [next]) && Newest(states + [next]) == Some(next)
  {
    hide CanRolloverState;
    var all := states + [next];
    forall i | 0 <= i < |all| - 1 ensures Follows(all[i], all[i + 1]) {
      if i < |states| - 1 {
        assert Follows(states[i], states[i + 1]);
      }
    }
  }

  lemma PreparedStaysOk(l: Ledger, next: State, p: Prepared)
    requires PreparedOk(l, p)
    ensures PreparedOk(l.(stored := l.stored + [next]), p)
  {
    assert (l.stored + [next])[..p.seen] == l.stored[..p.seen];
  }

  lemma OtherCommentKeeps(comments: seq<Comment>, newId: int)
    ensures LoadStateComment(Page(comments + [Comment(newId, None)])) == LoadStateComment(Page(comments))
  {
    if |comments| < PAGE {
      AppendedState(comments, Comment(newId, None));
    } else {
      assert Page(comments + [Comment(newId, None)]) == Page(comments);
    }
  }

  lemma LedgerStepKeeps(l: Ledger, step: LedgerStep)
    requires LedgerInv(l) && !Buries(l, step)
    ensures LedgerInv(LedgerNext(l, step))
  {
    hide CanRolloverState, StateComments, Written, ValidateStateWritePrecondition, Chain, Page;
    match step
    case PrepareWrite(proposed) =>
      assert l.stored[..|l.stored|] == l.stored;
    case CommitWrite(k, newId) =>
      if Commits(l, step) {
        CommitFacts(l, step);
        ChainGrows(l.stored, l.prepared[k].request.body);
        forall p | p in l.prepared ensures PreparedOk(LedgerNext(l, step), p) {
          PreparedStaysOk(l, l.prepared[k].request.body, p);
        }
      }
    case OtherComment(newId) =>
      OtherCommentKeeps(l.comments, newId);
  }

  /** No step of the run creates the state behind a full page. */
  ghost predicate CreatedOnPage(steps: seq<LedgerStep>) {
    forall i :: 0 <= i < |steps| ==> !Buries(LedgerRun(steps[..i]), steps[i])
  }

  lemma {:induction false} LedgerRunKeeps(steps: seq<LedgerStep>)
    requires CreatedOnPage(steps)
    ensures LedgerInv(LedgerRun(steps))
  {
    if steps != [] {
      var earlier := steps[..|steps| - 1];
      forall i | 0 <= i < |earlier| ensures !Buries(LedgerRun(earlier[..i]), earlier[i]) {
        assert earlier[..i] == steps[..i] && !Buries(LedgerRun(steps[..i]), steps[i]);
      }
      assert !Buries(LedgerRun(earlier), steps[|steps| - 1]);
      hide LedgerInv, LedgerNext, Buries;
      LedgerRunKeeps(earlier);
      LedgerStepKeeps(LedgerRun(earlier), steps[|steps| - 1]);
    }
  }

  // ---------- a state behind a full page ----------

  /** A state was stored, the page is full, and no reader finds a state on it. */
  predicate Buried(l: Ledger) {
    l.stored != [] && |l.comments| >= PAGE && LoadStateComment(Page(l.comments)) == Ok(None)
  }

  lemma BuryingBuries(l: Ledger, step: LedgerStep)
    requires DistinctIds(l.comments) && Buries(l, step)
    ensures Buried(LedgerNext(l, step))
  {
    hide RequireFreshWrite, StateComments, Patch;
    WrittenIsAuthoritative(l.comments, l.prepared[step.which].request, step.newId);
    ValidatedShape(Page(l.comments), l.prepared[step.which].request);
  }

  lemma BuriedStays(l: Ledger, step: LedgerStep)
    requires DistinctIds(l.comments) && Buried(l)
    ensures Buried(LedgerNext(l, step))
  {
    hide RequireFreshWrite, StateComments, Patch, StateWriteRequest;
    match step
    case PrepareWrite(proposed) =>
    case CommitWrite(k, newId) =>
      if Commits(l, step) {
        ValidatedShape(Page(l.comments), l.prepared[k].request);
        BuryingBuries(l, step);
      }
    case OtherComment(newId) =>
      OtherCommentKeeps(l.comments, newId);
  }

  lemma {:induction false} RunKeepsIds(steps: seq<LedgerStep>)
    ensures DistinctIds(LedgerRun(steps).comments)
  {
    if steps != [] {
      hide StateWriteRequest, ValidateStateWritePrecondition, Written, DistinctIds, LedgerRun;
      var l := LedgerRun(steps[..|steps| - 1]);
      RunKeepsIds(steps[..|steps| - 1]);
      StepKeepsIds(l, steps[|steps| - 1]);
      LastStep(steps);
    } else {
      assert LedgerRun(steps) == EMPTY;
    }
  }

  lemma LastStep(steps: seq<LedgerStep>)
    requires steps != []
    ensures LedgerRun(steps) == LedgerNext(LedgerRun(steps[..|steps| - 1]), steps[|steps| - 1])
  {
    hide LedgerNext;
  }

  lemma StepKeepsIds(l: Ledger, step: LedgerStep)
    requires DistinctIds(l.comments)
    ensures DistinctIds(LedgerNext(l, step).comments)
  {
    hide StateWriteRequest, ValidateStateWritePrecondition, Written;
    if Commits(l, step) {
      WrittenKeepsIds(l.comments, l.prepared[step.which].request, step.newId);
    }
  }

  lemma {:induction false} BuriedForever(steps: seq<LedgerStep>, n: nat)
    requires n <= |steps| && Buried(LedgerRun(steps[..n]))
    ensures Buried(LedgerRun(steps))
    decreases |steps| - n
  {
    if n == |steps| {
      assert steps[..n] == steps;
    } else {
      hide LedgerNext, Buried;
      RunKeepsIds(steps[..n]);
      BuriedStays(LedgerRun(steps[..n]), steps[n]);
      assert steps[..n + 1][..n] == steps[..n];
      BuriedForever(steps, n + 1);
    }
  }

  /** Readers find the newest stored state if and only if the state was created while the page had room.
      A state created behind a full page is never found again, and every writer may create another. */
  lemma StoredStateIsFoundExactly(steps: seq<LedgerStep>)
    ensures LoadStateComment(Page(LedgerRun(steps).comments)) == Ok(Newest(LedgerRun(steps).stored)) <==> CreatedOnPage(steps)
  {
    hide LedgerRun, CreatedOnPage, LoadStateComment, Page;
    if CreatedOnPage(steps) {
      LedgerRunKeeps(steps);
    } else {
      OnceBuried(steps);
    }
  }

  lemma OnceBuried(steps: seq<LedgerStep>)
    requires !CreatedOnPage(steps)
    ensures Buried(LedgerRun(steps))
  {
    hide LedgerRun, LedgerNext, Buries, Buried;
    var i: nat :| i < |steps| && Buries(LedgerRun(steps[..i]), steps[i]);
    BuriedSince(steps, i);
  }

  lemma BuriedSince(steps: seq<LedgerStep>, i: nat)
    requires i < |steps| && Buries(LedgerRun(steps[..i]), steps[i])
    ensures Buried(LedgerRun(steps))
  {
    hide CreatedOnPage, LedgerRun, LedgerNext, Buries, Buried;
    RunKeepsIds(steps[..i]);
    BuryingBuries(LedgerRun(steps[..i]), steps[i]);
    assert steps[..i + 1] == steps[..i] + [steps[i]];
    RunGrows(steps[..i], steps[i]);
    BuriedForever(steps, i + 1);
  }

  // ---------- no lost update ----------

  /** No other workload was stored after the first `seen` states. */
  predicate SameTenure(states: seq<State>, seen: nat)
    requires seen <= |states|
  {
    forall i :: seen <= i < |states| ==> WorkloadOf(Newest(states[..seen])) == Some(states[i].researchId)
  }

  function WorkloadOf(s: Option<State>): Option<string> {
    if s.Some? then Some(s.value.researchId) else None
  }

  function RevisionOf(s: Option<State>): Option<nat> {
    if s.Some? then Some(s.value.revision) else None
  }

  /** A workload that was replaced is never stored again. */
  ghost predicate NoReturn(states: seq<State>) {
    forall i, j, k :: 0 <= i < j < k < |states| && states[i].researchId == states[k].researchId ==>
      states[j].researchId == states[i].researchId
  }

  /** Revisions of one tenure strictly rise. */
  lemma {:induction false} TenureRises(states: seq<State>, i: nat, j: nat)
    requires Chain(states) && i < j < |states|
    requires forall k :: i < k <= j ==> states[k].researchId == states[i].researchId
    ensures states[j].revision > states[i].revision
    decreases j
  {
    assert Follows(states[j - 1], states[j]);
    if i < j - 1 {
      TenureRises(states, i, j - 1);
    }
  }

  /** An equal revision means nothing was stored since, exactly within one tenure; where no workload returns
      it is enough to compare the workloads at both ends. */
  lemma EqualRevisionIsExact(states: seq<State>, seen: nat)
    requires Chain(states) && seen <= |states|
    requires RevisionOf(Newest(states[..seen])) == RevisionOf(Newest(states))
    ensures seen == |states| <==> SameTenure(states, seen)
    ensures NoReturn(states) ==>
      (seen == |states| <==> WorkloadOf(Newest(states[..seen])) == WorkloadOf(Newest(states)))
  {
    hide Follows;
    if seen == |states| {
      assert states[..seen] == states;
    } else if seen > 0 {
      assert states[..seen][seen - 1] == states[seen - 1];
      if forall k :: seen - 1 < k < |states| ==> states[k].researchId == states[seen - 1].researchId {
        TenureRises(states, seen - 1, |states| - 1);
      }
    }
  }

  lemma CommitShape(l: Ledger, step: LedgerStep)
    requires LedgerInv(l) && Commits(l, step)
    ensures var p := l.prepared[step.which];
      && Chain(l.stored) && p.seen <= |l.stored| && p.base == Newest(l.stored[..p.seen])
      && Current(l) == Newest(l.stored) && RevisionOf(p.base) == RevisionOf(Current(l))
  {
    CommitFacts(l, step);
    hide Chain, Fresh, ValidateStateWritePrecondition, DistinctIds, StateComments, Page;
    assert PreparedOk(l, l.prepared[step.which]);
  }

  /** A committed request replaces the very state its writer read, with nothing stored in between, if and
      only if no other workload was stored in between. */
  lemma CommitReplacesWhatItRead(steps: seq<LedgerStep>, step: LedgerStep)
    requires CreatedOnPage(steps) && Commits(LedgerRun(steps), step)
    ensures var l := LedgerRun(steps); var p := l.prepared[step.which];
      && p.seen <= |l.stored|
      && (p.seen == |l.stored| <==> SameTenure(l.stored, p.seen))
      && (p.seen == |l.stored| ==> p.base == Current(l))
  {
    hide LedgerRun, LedgerInv, CreatedOnPage, SameTenure, Chain, ValidateStateWritePrecondition, Fresh, Current;
    var l := LedgerRun(steps);
    LedgerRunKeeps(steps);
    CommitShape(l, step);
    EqualRevisionIsExact(l.stored, l.prepared[step.which].seen);
    assert l.stored[..|l.stored|] == l.stored;
  }

  /** The form a writer can check: where replaced workloads never return, a committed request replaces
      what its writer read exactly when the workload it read is the one stored now.  The precondition
      compares revisions only, so this comparison is the one that is missing. */
  lemma CommitIsSafeExactlyOnTheSameWorkload(steps: seq<LedgerStep>, step: LedgerStep)
    requires CreatedOnPage(steps) && Commits(LedgerRun(steps), step) && NoReturn(LedgerRun(steps).stored)
    ensures var l := LedgerRun(steps); var p := l.prepared[step.which];
      && (p.seen == |l.stored| <==> WorkloadOf(p.base) == WorkloadOf(Current(l)))
      && (p.base == Current(l) <==> WorkloadOf(p.base) == WorkloadOf(Current(l)))
  {
    hide LedgerRun, LedgerInv, CreatedOnPage, SameTenure, Chain, ValidateStateWritePrecondition, Fresh, Current, NoReturn;
    var l := LedgerRun(steps);
    LedgerRunKeeps(steps);
    CommitShape(l, step);
    EqualRevisionIsExact(l.stored, l.prepared[step.which].seen);
    assert l.stored[..|l.stored|] == l.stored;
  }

  /** Over every run of the ledger, with any number of writers, the stored states form a chain:
      revisions of one workload strictly rise, and a workload is replaced only after it finished. */
  lemma StoredStatesFormAChain(steps: seq<LedgerStep>)
    requires CreatedOnPage(steps)
    ensures Chain(LedgerRun(steps).stored)
  {
    hide Chain, LedgerRun, CreatedOnPage;
    LedgerRunKeeps(steps);
  }

  /** The workload is not finished: a failure before dispatch is unresolved, a recovery is live, or, unless it
      was retired, it has no action yet or one that is pending or in flight. */
  predicate Busy(s: State) {
    || (exists key :: key in s.predispatchFailures
          && (s.predispatchFailures[key] == Retryable || s.predispatchFailures[key] == Escalated
              || s.predispatchFailures[key] == PredispatchStatus.Blocked))
    || (exists id :: id in s.recoveries && (s.recoveries[id].status == Open || s.recoveries[id].status == NeedsEvidence))
    || (s.retirement.None?
        && (s.queue == map[]
            || exists id :: id in s.queue && (s.queue[id].status == Pending || s.queue[id].status == IntentSaved
                                              || s.queue[id].status == Dispatched)))
  }

  /** The workload was retired with nothing on record, and not written since. */
  predicate RetiredForGood(s: State) {
    s.retirement.Some? && s.queue == map[] && s.executionResults == map[]
    && s.revision == s.retirement.value.retiredFromRevision + 1
  }

  /** In every reachable state another workload may be written over this one exactly when this one is finished:
      not busy, and if it was retired, retired for good. */
  lemma ReplaceableExactly(s: State, other: State)
    requires Reachable(s) && other.researchId != s.researchId
    ensures RequireFreshWrite(Some(s), other).Pass? <==> !Busy(s) && (s.retirement.None? || RetiredForGood(s))
  {
    hide Reachable, Inv, CanRolloverState, Busy, RetiredForGood, TerminalFailure;
    ReachableInv(s);
    if s.retirement.None? {
      forall id | id in s.queue
        ensures Supported(s.queue[id].status)
        ensures s.queue[id].status == Suspended ==> LiveAt(s, id) || TerminalFailure(s, id)
      {
        InvLocal(s, id);
        SuspendedIsAccounted(s, id);
      }
      UnretiredRollsOver(s);
    } else {
      RetiredRollsOver(s);
    }
  }

  lemma SuspendedIsAccounted(s: State, id: ActionId)
    requires Local(s, id) && id in s.queue
    ensures Supported(s.queue[id].status)
    ensures s.queue[id].status == Suspended ==> LiveAt(s, id) || TerminalFailure(s, id)
  {
  }

  lemma UnretiredRollsOver(s: State)
    requires s.retirement.None? && forall id :: id in s.queue ==> Supported(s.queue[id].status)
    requires forall id :: id in s.queue && s.queue[id].status == Suspended ==> LiveAt(s, id) || TerminalFailure(s, id)
    ensures CanRolloverState(s) <==> !Busy(s)
  {
    PredispatchIsBusy(s);
    hide ActivePredispatchFailure, TerminalFailure;
  }

  lemma RetiredRollsOver(s: State)
    requires s.retirement.Some?
    ensures CanRolloverState(s) <==> !Busy(s) && RetiredForGood(s)
  {
    PredispatchIsBusy(s);
    hide ActivePredispatchFailure;
  }

  lemma PredispatchIsBusy(s: State)
    ensures ActivePredispatchFailure(s) <==>
      exists key :: key in s.predispatchFailures
        && (s.predispatchFailures[key] == Retryable || s.predispatchFailures[key] == Escalated
            || s.predispatchFailures[key] == PredispatchStatus.Blocked)
  {
    if ActivePredispatchFailure(s) {
      var key :| key in s.predispatchFailures && s.predispatchFailures[key] != PredispatchStatus.Settled;
      assert s.predispatchFailures[key] == Retryable || s.predispatchFailures[key] == Escalated
             || s.predispatchFailures[key] == PredispatchStatus.Blocked;
    }
  }

  /** A retirement holds until the next write: it lets another workload in at once, and no more after any step
      that changes the state. */
  lemma RetirementEndsWithTheNextWrite(s: State, issueNumber: int, workloadMode: string, step: Step, other: State)
    requires Reachable(s) && RetireQuiescentState(s, issueNumber, workloadMode).Ok? && other.researchId != s.researchId
    ensures s.queue == map[] && s.executionResults == map[] && s.retirement.None?
    ensures var t := RetireQuiescentState(s, issueNumber, workloadMode).value; var u := Next(t, step);
      && RequireFreshWrite(Some(t), other).Pass?
      && (u != t ==> u.researchId == s.researchId && RequireFreshWrite(Some(u), other).Fail?)
  {
    hide Reachable, Next, CanRolloverState, Busy, RetiredForGood;
    var t := RetireQuiescentState(s, issueNumber, workloadMode).value;
    RetiredIsForGood(s, issueNumber, workloadMode);
    RetiredRollsOver(t);
    StepAdvances(t, step);
    if Next(t, step) != t {
      RetiredRollsOver(Next(t, step));
      LaterIsNotForGood(t, Next(t, step));
    }
  }

  lemma RetiredIsForGood(s: State, issueNumber: int, workloadMode: string)
    requires RetireQuiescentState(s, issueNumber, workloadMode).Ok?
    ensures RetiredForGood(RetireQuiescentState(s, issueNumber, workloadMode).value)
    ensures !Busy(RetireQuiescentState(s, issueNumber, workloadMode).value)
  {
    PredispatchIsBusy(s);
    hide ActivePredispatchFailure;
  }

  lemma LaterIsNotForGood(t: State, u: State)
    requires RetiredForGood(t) && u.retirement == t.retirement && u.revision > t.revision
    ensures !RetiredForGood(u)
  {
  }

  /** A newly created workload cannot be overwritten by another one. */
  lemma NewWorkloadIsKept(s: State, other: State)
    requires IsFresh(s) && other.researchId != s.researchId
    ensures RequireFreshWrite(Some(s), other).Fail?
  {
    hide ActivePredispatchFailure, HasUnresolvedRecovery;
  }

  /** A stored workload without actions and without retirement is followed only by itself. */
  lemma EmptyWorkloadIsNeverReplaced(steps: seq<LedgerStep>, i: nat)
    requires CreatedOnPage(steps) && i + 1 < |LedgerRun(steps).stored|
    requires LedgerRun(steps).stored[i].queue == map[] && LedgerRun(steps).stored[i].retirement.None?
    ensures LedgerRun(steps).stored[i + 1].researchId == LedgerRun(steps).stored[i].researchId
  {
    StoredStatesFormAChain(steps);
    assert Follows(LedgerRun(steps).stored[i], LedgerRun(steps).stored[i + 1]);
    hide LedgerRun, CreatedOnPage, ActivePredispatchFailure, HasUnresolvedRecovery, HasDurableRetirement;
  }

  lemma FollowerIsFresh(before: State, after: State)
    requires Follows(before, after)
    ensures RequireFreshWrite(Some(before), after).Pass?
  {
  }

  /** Unfinished work is never replaced by another workload, whoever writes: no action yet, pending or in-flight
      work, a live recovery, or an unresolved failure before dispatch. */
  lemma BusyStateIsNeverReplaced(steps: seq<LedgerStep>, i: nat)
    requires CreatedOnPage(steps) && i + 1 < |LedgerRun(steps).stored|
    requires Reachable(LedgerRun(steps).stored[i]) && Busy(LedgerRun(steps).stored[i])
    ensures var states := LedgerRun(steps).stored;
      states[i + 1].researchId == states[i].researchId && states[i + 1].revision > states[i].revision
  {
    hide Reachable, Busy, Follows, LedgerRun, CreatedOnPage, RequireFreshWrite;
    StoredStatesFormAChain(steps);
    var before, after := LedgerRun(steps).stored[i], LedgerRun(steps).stored[i + 1];
    assert Follows(before, after);
    FollowsRises(before, after);
    FollowerIsFresh(before, after);
    if before.researchId != after.researchId {
      ReplaceableExactly(before, after);
    }
  }

  lemma FollowsRises(before: State, after: State)
    requires Follows(before, after)
    ensures before.researchId == after.researchId ==> after.revision > before.revision
  {
  }

  // ---------- across tenures only the revision is compared ----------

  /** A new workload, retired at once: two states every workload can reach. */
  function NewWorkload(researchId: string, objective: string): State {
    State(researchId, objective, DefineProblem, [], map[], map[], map[], 0, [], map[], None)
  }

  function Retired(s: State): State {
    s.(retirement := Some(StateRetirement(1, "actionable", s.revision)), revision := s.revision + 1)
  }

  /** Both are made by protocol steps, and so is the successor the stale writer proposes. */
  lemma RetiredIsReachable(researchId: string, objective: string)
    ensures var s := NewWorkload(researchId, objective); var r := Retired(s);
      && Next(s, RetireStep(1, "actionable")) == r && Reachable(r) && CanRolloverState(r)
      && Next(r, PredispatchStep(map[])) == r.(revision := r.revision + 1)
  {
    var s := NewWorkload(researchId, objective);
    hide Select;
    assert IsFresh(s);
    assert !HasUnresolvedRecovery(s) && !ActivePredispatchFailure(s);
    assert Next(s, RetireStep(1, "actionable")) == Retired(s);
    RunSingle(s, RetireStep(1, "actionable"));
  }

  lemma RunSingle(s: State, step: Step)
    ensures Run(s, [step]) == Next(s, step)
  {
    hide Next;
    assert [step][1..] == [];
    assert Run(Next(s, step), []) == Next(s, step);
  }

  function UpdateOf(id: int, current: State, proposed: State): WriteRequest {
    WriteRequest(PATCH, Some(id), proposed, Some(current.revision), proposed.revision, proposed.researchId)
  }

  /** The one state comment of a small ledger. */
  predicate Holds(l: Ledger, id: int, current: State) {
    l.comments == [Comment(id, Some(current))]
  }

  lemma OneComment(l: Ledger, id: int, current: State)
    requires Holds(l, id, current)
    ensures StateComments(l.comments) == l.comments && Current(l) == Some(current) && Page(l.comments) == l.comments
  {
    assert StateComments(l.comments[1..]) == [];
  }

  lemma PrepareOnOne(l: Ledger, id: int, current: State, proposed: State)
    requires Holds(l, id, current) && RequireFreshWrite(Some(current), proposed).Pass?
    ensures LedgerNext(l, PrepareWrite(proposed))
            == l.(prepared := l.prepared + [Prepared(Some(current), |l.stored|, UpdateOf(id, current, proposed))])
  {
    hide RequireFreshWrite;
    OneComment(l, id, current);
  }

  lemma CommitOnOne(l: Ledger, id: int, current: State, k: nat, base: State, newId: int)
    requires Holds(l, id, current) && newId != id && k < |l.prepared|
    requires l.prepared[k].request == UpdateOf(id, base, l.prepared[k].request.body)
    requires base.revision == current.revision && RequireFreshWrite(Some(current), l.prepared[k].request.body).Pass?
    ensures Commits(l, CommitWrite(k, newId))
    ensures var body := l.prepared[k].request.body; var t := LedgerNext(l, CommitWrite(k, newId));
      Holds(t, id, body) && t.prepared == l.prepared && t.stored == l.stored + [body]
  {
    hide RequireFreshWrite;
    OneComment(l, id, current);
    assert Patch(l.comments[1..], id, l.prepared[k].request.body) == [];
  }

  lemma FirstCommit(a: State)
    ensures LedgerRun([PrepareWrite(a), CommitWrite(0, 7)])
            == Ledger([Comment(7, Some(a))],
                      [Prepared(None, 0, WriteRequest(POST, None, a, None, a.revision, a.researchId))], [a])
    ensures CreatedOnPage([PrepareWrite(a), CommitWrite(0, 7)])
  {
    assert StateComments([]) == [];
    assert CreatedOnPage([]);
    RunGrows([], PrepareWrite(a));
    RunGrows([PrepareWrite(a)], CommitWrite(0, 7));
    assert [] + [PrepareWrite(a)] == [PrepareWrite(a)];
    assert [PrepareWrite(a)] + [CommitWrite(0, 7)] == [PrepareWrite(a), CommitWrite(0, 7)];
  }

  lemma RunGrows(steps: seq<LedgerStep>, step: LedgerStep)
    ensures LedgerRun(steps + [step]) == LedgerNext(LedgerRun(steps), step)
    ensures CreatedOnPage(steps) && |LedgerRun(steps).comments| < PAGE ==> CreatedOnPage(steps + [step])
  {
    var all := steps + [step];
    assert all[..|steps|] == steps;
    if CreatedOnPage(steps) && |LedgerRun(steps).comments| < PAGE {
      forall i | 0 <= i < |all| ensures !Buries(LedgerRun(all[..i]), all[i]) {
        if i < |steps| {
          assert all[..i] == steps[..i] && !Buries(LedgerRun(steps[..i]), steps[i]);
        }
      }
    }
  }

  lemma RetiredYields(before: State, after: State)
    requires CanRolloverState(before) && before.researchId != after.researchId
    ensures RequireFreshWrite(Some(before), after).Pass?
  {
  }

  /** Workload `a` is stored at revision 1 and two writers read it.  One installs workload `b` at revision
      1, the other proposes the protocol's next state of `a`. */
  lemma TwoWriters(a: State, b: State) returns (steps: seq<LedgerStep>)
    requires CanRolloverState(a) && CanRolloverState(b)
    requires a.researchId != b.researchId && a.revision == 1 && b.revision == 1
    ensures var l := LedgerRun(steps); var a2 := a.(revision := 2);
      && CreatedOnPage(steps) && Holds(l, 7, b) && l.stored == [a, b] && |l.prepared| == 3
      && l.prepared[1] == Prepared(Some(a), 1, UpdateOf(7, a, a2))
  {
    var a2 := a.(revision := 2);
    RetiredYields(a, b);
    hide LedgerNext, LedgerRun, CanRolloverState, CreatedOnPage, RequireFreshWrite;
    var s2 := FirstReader(a, a2);
    PrepareOnOne(LedgerRun(s2), 7, a, b);
    RunGrows(s2, PrepareWrite(b));
    var s3 := s2 + [PrepareWrite(b)];
    CommitOnOne(LedgerRun(s3), 7, a, 2, a, 8);
    RunGrows(s3, CommitWrite(2, 8));
    steps := s3 + [CommitWrite(2, 8)];
  }

  lemma FirstReader(a: State, a2: State) returns (steps: seq<LedgerStep>)
    requires a2.researchId == a.researchId && a2.revision > a.revision
    ensures var l := LedgerRun(steps);
      && CreatedOnPage(steps) && Holds(l, 7, a) && l.stored == [a] && |l.prepared| == 2
      && l.prepared[1] == Prepared(Some(a), 1, UpdateOf(7, a, a2))
  {
    assert RequireFreshWrite(Some(a), a2).Pass?;
    hide LedgerNext, LedgerRun, CanRolloverState, CreatedOnPage, RequireFreshWrite;
    FirstCommit(a);
    var s1 := [PrepareWrite(a), CommitWrite(0, 7)];
    PrepareOnOne(LedgerRun(s1), 7, a, a2);
    RunGrows(s1, PrepareWrite(a2));
    steps := s1 + [PrepareWrite(a2)];
  }

  const A1 := Retired(NewWorkload("A", ""))
  const B1 := Retired(NewWorkload("B", ""))
  const A1_AGAIN := Retired(NewWorkload("A", "reopened"))

  lemma WitnessStates()
    ensures CanRolloverState(A1) && CanRolloverState(B1) && CanRolloverState(A1_AGAIN)
    ensures A1.revision == 1 && B1.revision == 1 && A1_AGAIN.revision == 1
    ensures A1.researchId == "A" && B1.researchId == "B" && A1_AGAIN.researchId == "A" && A1 != A1_AGAIN
  {
    hide Next, Reachable, CanRolloverState;
    RetiredIsReachable("A", "");
    RetiredIsReachable("B", "");
    RetiredIsReachable("A", "reopened");
    assert A1.objective != A1_AGAIN.objective;
  }

  /** Although no workload ever returned, a request prepared on workload A lands on workload B, a state its
      writer never read. */
  lemma StaleRequestCanCrossTenures() returns (steps: seq<LedgerStep>, step: LedgerStep)
    ensures var l := LedgerRun(steps);
      && CreatedOnPage(steps) && Commits(l, step) && NoReturn(l.stored)
      && l.prepared[step.which].base == Some(A1) && Current(l) == Some(B1)
      && l.prepared[step.which].request.body == Next(A1, PredispatchStep(map[]))
  {
    WitnessStates();
    RetiredIsReachable("A", "");
    hide RequireFreshWrite, LedgerNext, LedgerRun, CanRolloverState, Next, Commits, Current, CreatedOnPage;
    steps := TwoWriters(A1, B1);
    step := CommitWrite(1, 9);
    var l := LedgerRun(steps);
    RetiredYields(B1, A1.(revision := 2));
    CommitOnOne(l, 7, B1, 1, A1, 9);
    OneComment(l, 7, B1);
  }

  /** Where a workload does return, even comparing the workload is not enough. */
  lemma ReturningWorkloadHidesTheGap() returns (steps: seq<LedgerStep>, step: LedgerStep)
    ensures var l := LedgerRun(steps);
      && CreatedOnPage(steps) && Commits(l, step) && !NoReturn(l.stored)
      && l.prepared[step.which].base == Some(A1) && Current(l) == Some(A1_AGAIN)
      && WorkloadOf(Some(A1)) == WorkloadOf(Current(l)) && A1 != A1_AGAIN
  {
    WitnessStates();
    hide Retired, NewWorkload, LedgerNext, LedgerRun, CanRolloverState, Commits, Current, NoReturn, CreatedOnPage;
    assert RequireFreshWrite(Some(A1_AGAIN), A1.(revision := 2)).Pass?;
    RetiredYields(B1, A1_AGAIN);
    hide RequireFreshWrite;
    var s1 := TwoWriters(A1, B1);
    steps := AndBack(s1, A1, B1, A1_AGAIN);
    step := CommitWrite(1, 9);
    CommitOnOne(LedgerRun(steps), 7, A1_AGAIN, 1, A1, 9);
    OneComment(LedgerRun(steps), 7, A1_AGAIN);
    ReturnIsReturn(LedgerRun(steps).stored);
  }

  lemma AndBack(s1: seq<LedgerStep>, a: State, b: State, again: State) returns (steps: seq<LedgerStep>)
    requires Holds(LedgerRun(s1), 7, b) && |LedgerRun(s1).prepared| == 3 && LedgerRun(s1).stored == [a, b]
    requires CreatedOnPage(s1) && RequireFreshWrite(Some(b), again).Pass?
    ensures CreatedOnPage(steps)
    ensures var l := LedgerRun(steps);
      Holds(l, 7, again) && l.stored == [a, b, again] && |l.prepared| == 4 && l.prepared[1] == LedgerRun(s1).prepared[1]
  {
    hide RequireFreshWrite, LedgerNext, LedgerRun, CanRolloverState, Commits, Current, CreatedOnPage;
    PrepareOnOne(LedgerRun(s1), 7, b, again);
    RunGrows(s1, PrepareWrite(again));
    var s2 := s1 + [PrepareWrite(again)];
    CommitOnOne(LedgerRun(s2), 7, b, 3, b, 8);
    RunGrows(s2, CommitWrite(3, 8));
    steps := s2 + [CommitWrite(3, 8)];
  }

  lemma ReturnIsReturn(states: seq<State>)
    requires |states| == 3 && states[0].researchId == states[2].researchId && states[1].researchId != states[0].researchId
    ensures !NoReturn(states)
  {
  }

  // ---------- an issue that is already full of comments ----------

  function Chatter(n: nat): seq<LedgerStep> {
    if n == 0 then [] else Chatter(n - 1) + [OtherComment(n)]
  }

  /** Only `n` ordinary comments so far. */
  predicate OnlyChatter(l: Ledger, n: nat) {
    && |l.comments| == n && l.prepared == [] && l.stored == []
    && forall i :: 0 <= i < n ==> l.comments[i] == Comment(i + 1, None)
  }

  lemma {:induction false} ChatterOnly(n: nat)
    ensures OnlyChatter(LedgerRun(Chatter(n)), n)
  {
    hide LedgerRun, LedgerNext, CreatedOnPage, OnlyChatter;
    if n == 0 {
      NothingYet();
    } else {
      ChatterOnly(n - 1);
      RunGrows(Chatter(n - 1), OtherComment(n));
      ChatterAppends(LedgerRun(Chatter(n - 1)), n);
    }
  }

  lemma NothingYet()
    ensures OnlyChatter(LedgerRun([]), 0)
  {
  }

  lemma ChatterAppends(l: Ledger, n: nat)
    requires n > 0 && OnlyChatter(l, n - 1)
    ensures OnlyChatter(LedgerNext(l, OtherComment(n)), n)
  {
    hide StateWriteRequest, ValidateStateWritePrecondition;
    assert Fresh(l.comments, n);
  }

  lemma NoStateAmong(comments: seq<Comment>)
    requires forall c :: c in comments ==> c.body.None?
    ensures LoadStateComment(comments) == Ok(None)
  {
    assert forall c :: c in StateComments(comments) ==> false;
    HeadIsFound(StateComments(comments));
  }

  lemma HeadIsFound(found: seq<Comment>)
    ensures found != [] ==> found[0] in found
  {
  }

  /** On an issue whose page is full before the first state is created, one request creates the state twice:
      the stored states are no chain, and no reader finds either. */
  lemma FullPageBreaksTheChain(a: State) returns (steps: seq<LedgerStep>)
    ensures !CreatedOnPage(steps) && LedgerRun(steps).stored == [a, a] && !Chain(LedgerRun(steps).stored)
    ensures Current(LedgerRun(steps)) == None
  {
    hide LedgerRun, CreatedOnPage;
    var s0 := Chatter(PAGE);
    ChatterOnly(PAGE);
    NoStateAmong(Page(LedgerRun(s0).comments));
    RunGrows(s0, PrepareWrite(a));
    var s1 := s0 + [PrepareWrite(a)];
    BuriedCreate(LedgerRun(s1), a, 101);
    RunGrows(s1, CommitWrite(0, 101));
    var s2 := s1 + [CommitWrite(0, 101)];
    BuriedCreate(LedgerRun(s2), a, 102);
    RunGrows(s2, CommitWrite(0, 102));
    steps := s2 + [CommitWrite(0, 102)];
    assert LedgerRun(steps).stored == [a, a];
    assert !Follows(LedgerRun(steps).stored[0], LedgerRun(steps).stored[1]);
    StoredStateIsFoundExactly(steps);
  }

  lemma BuriedCreate(l: Ledger, a: State, id: int)
    requires |l.comments| >= PAGE && LoadStateComment(Page(l.comments)) == Ok(None) && l.prepared != []
    requires l.prepared[0].request == WriteRequest(POST, None, a, None, a.revision, a.researchId)
    requires Fresh(l.comments, id)
    ensures var t := LedgerNext(l, CommitWrite(0, id));
      && t.comments == l.comments + [Comment(id, Some(a))] && t.stored == l.stored + [a] && t.prepared == l.prepared
      && LoadStateComment(Page(t.comments)) == Ok(None)
  {
    hide StateComments;
    assert Page(l.comments + [Comment(id, Some(a))]) == Page(l.comments);
  }
}
