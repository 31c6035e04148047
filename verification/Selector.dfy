/** bootstrap.py: `select_controller_work`, the deterministic priority scheduler. */
module Selector {
  import opened Prelude
  import opened Records
  import opened Diagnosis
  import opened DurableState

  datatype Work =
    | InFlightIntent(surface: Surface, actionId: ActionId)
    | InFlightObservation(surface: Surface, actionId: ActionId)
    | Ready(surface: Surface, actionId: ActionId)
    | AdmittedIssue(workId: string)
    | LegacyWork(workId: string)

  datatype Admission = Admission(workId: string, status: string)

  predicate Supported(status: ActionLifecycle) {
    status == Pending || status == IntentSaved || status == Dispatched
    || status == Suspended || status == Complete || status == Rejected
  }

  predicate Flying(status: ActionLifecycle) {
    status == IntentSaved || status == Dispatched
  }

  // ---------- the in-flight records of the four surfaces ----------

  function ActionsFlying(queue: map<ActionId, Item>): set<ActionId> {
    set id | id in queue && Flying(queue[id].status)
  }

  function EvidenceFlying(recoveries: map<ActionId, Recovery>): set<ActionId> {
    set id | id in recoveries && FliesEvidence(recoveries[id])
  }

  function DiagnosticsFlying(recoveries: map<ActionId, Recovery>): set<ActionId> {
    set id | id in recoveries && FliesDiagnostic(recoveries[id])
  }

  function CorrectivesFlying(recoveries: map<ActionId, Recovery>): set<ActionId> {
    set id | id in recoveries && FliesCorrective(recoveries[id])
  }

  predicate DispatchSupported(d: Option<Dispatch>) {
    d.Some? ==> Flying(d.value.status)
  }

  /** Every dispatch the scheduler looks at is in one of the two in-flight stages. */
  predicate RecoverySupported(r: Recovery) {
    && (r.status == NeedsEvidence ==> DispatchSupported(r.evidenceDispatch))
    && (r.status == Open ==> DispatchSupported(r.diagnosticDispatch) && DispatchSupported(r.correctiveDispatch))
  }

  function FlightCount(queue: map<ActionId, Item>, recoveries: map<ActionId, Recovery>): nat {
    |ActionsFlying(queue)| + |EvidenceFlying(recoveries)|
    + |DiagnosticsFlying(recoveries)| + |CorrectivesFlying(recoveries)|
  }

  // ---------- idle work, in priority order ----------

  predicate CorrectiveReady(r: Recovery) {
    r.status == Open && Truthy(r.rootCause) && Truthy(r.correctiveAction) && Truthy(r.correctiveProvider)
    && !Truthy(r.resolutionEvidence) && r.correctiveDispatch.None? && r.diagnosticDispatch.None?
  }

  function CorrectivesReady(recoveries: map<ActionId, Recovery>): set<ActionId> {
    set id | id in recoveries && CorrectiveReady(recoveries[id])
  }

  function OpenRecoveries(recoveries: map<ActionId, Recovery>): set<ActionId> {
    set id | id in recoveries && recoveries[id].status == Open
  }

  function EvidenceReady(recoveries: map<ActionId, Recovery>): set<ActionId> {
    set id | id in recoveries && recoveries[id].status == NeedsEvidence && recoveries[id].evidenceDispatch.None?
  }

  function PendingActions(queue: map<ActionId, Item>): set<ActionId> {
    set id | id in queue && queue[id].status == Pending
  }

  function AdmittedIds(admitted: map<string, Admission>): set<string> {
    set w | w in admitted && admitted[w].status == "admitted"
  }

  /** A single in-flight record: its intent is reconciled, its receipt observed. */
  function Resumed(surface: Surface, id: ActionId, status: ActionLifecycle, intent: bool, receipt: bool)
    : Result<Option<Work>>
  {
    if !(intent || (surface == ActionSurface && status == Dispatched)) then
      Err("in-flight lifecycle has no typed intent")
    else
    if status == IntentSaved then Ok(Some(InFlightIntent(surface, id)))
    else
      :- Need(receipt, "dispatched lifecycle has no typed receipt");
      Ok(Some(InFlightObservation(surface, id)))
  }

  function ResumedDispatch(surface: Surface, id: ActionId, d: Dispatch): Result<Option<Work>> {
    Resumed(surface, id, d.status, true, d.receipt.Some?)
  }

  /** The one in-flight record, if any. */
  ghost function InFlightWork(recoveries: map<ActionId, Recovery>, queue: map<ActionId, Item>): Result<Option<Work>> {
    if ActionsFlying(queue) != {} then
      var id := First(ActionsFlying(queue));
      Resumed(ActionSurface, id, queue[id].status, queue[id].dispatchIntent.Some?, queue[id].dispatchReceipt.Some?)
    else if CorrectivesFlying(recoveries) != {} then
      var id := First(CorrectivesFlying(recoveries));
      ResumedDispatch(CorrectiveSurface, id, recoveries[id].correctiveDispatch.value)
    else if EvidenceFlying(recoveries) != {} then
      var id := First(EvidenceFlying(recoveries));
      ResumedDispatch(EvidenceSurface, id, recoveries[id].evidenceDispatch.value)
    else if DiagnosticsFlying(recoveries) != {} then
      var id := First(DiagnosticsFlying(recoveries));
      ResumedDispatch(DiagnosticSurface, id, recoveries[id].diagnosticDispatch.value)
    else Ok(None)
  }

  /** What to start when nothing is in flight. */
  ghost function IdleWork(
    legacy: seq<string>, recoveries: map<ActionId, Recovery>, queue: map<ActionId, Item>,
    admitted: map<string, Admission>): Result<Option<Work>>
  {
    if CorrectivesReady(recoveries) != {} then
      Ok(Some(Ready(CorrectiveSurface, First(CorrectivesReady(recoveries)))))
    else if OpenRecoveries(recoveries) != {} then
      Ok(Some(Ready(DiagnosticSurface, First(OpenRecoveries(recoveries)))))
    else if EvidenceReady(recoveries) != {} then
      Ok(Some(Ready(EvidenceSurface, First(EvidenceReady(recoveries)))))
    else if PendingActions(queue) != {} then
      Ok(Some(Ready(ActionSurface, First(PendingActions(queue)))))
    else if AdmittedIds(admitted) != {} then
      var work := First(AdmittedIds(admitted));
      :- Need(admitted[work].workId == work, "admitted work identity mismatch");
      Ok(Some(AdmittedIssue(work)))
    else if legacy != [] then Ok(Some(LegacyWork(legacy[0])))
    else Ok(None)
  }

  // ---------- what the choice means, on the records themselves ----------

  /** Every record is in a supported stage and nothing is in flight. */
  ghost predicate NothingInFlight(recoveries: map<ActionId, Recovery>, queue: map<ActionId, Item>) {
    && (forall id :: id in queue ==> queue[id].status in {Pending, Suspended, ActionLifecycle.Complete, ActionLifecycle.Rejected})
    && (forall id :: id in recoveries && recoveries[id].status == Open ==>
          recoveries[id].diagnosticDispatch.None? && recoveries[id].correctiveDispatch.None?)
    && (forall id :: id in recoveries && recoveries[id].status == NeedsEvidence ==> recoveries[id].evidenceDispatch.None?)
  }

  /** The open recovery has a root cause and a correction with its provider, and no resolution yet. */
  ghost predicate HasPlannedCorrection(r: Recovery) {
    && r.status == Open
    && r.rootCause.Some? && r.rootCause.value != "" && r.correctiveAction.Some? && r.correctiveAction.value != ""
    && r.correctiveProvider.Some? && r.correctiveProvider.value != ""
    && (r.resolutionEvidence.Some? ==> r.resolutionEvidence.value == "")
  }

  /** The priority of idle work: a planned correction, any open recovery's diagnosis, a recovery waiting for
      evidence, a pending action, an admitted issue, legacy work; among equals the least id. */
  ghost predicate InPriorityOrder(
    selected: Result<Option<Work>>, legacy: seq<string>, recoveries: map<ActionId, Recovery>,
    queue: map<ActionId, Item>, admitted: map<string, Admission>)
  {
    var corrections := set id | id in recoveries && HasPlannedCorrection(recoveries[id]);
    var unresolved := set id | id in recoveries && recoveries[id].status == Open;
    var waiting := set id | id in recoveries && recoveries[id].status == NeedsEvidence;
    var pending := set id | id in queue && queue[id].status == Pending;
    var issues := set w | w in admitted && admitted[w].status == "admitted";
    && (corrections != {} ==> exists id :: selected == Ok(Some(Ready(CorrectiveSurface, id))) && IsFirst(id, corrections))
    && (corrections == {} && unresolved != {} ==>
          exists id :: selected == Ok(Some(Ready(DiagnosticSurface, id))) && IsFirst(id, unresolved))
    && (unresolved == {} && waiting != {} ==>
          exists id :: selected == Ok(Some(Ready(EvidenceSurface, id))) && IsFirst(id, waiting))
    && (unresolved == {} && waiting == {} && pending != {} ==>
          exists id :: selected == Ok(Some(Ready(ActionSurface, id))) && IsFirst(id, pending))
    && (unresolved == {} && waiting == {} && pending == {} && issues != {} ==>
          exists w :: IsFirst(w, issues)
            && if admitted[w].workId == w then selected == Ok(Some(AdmittedIssue(w))) else selected.Err?)
    && (unresolved == {} && waiting == {} && pending == {} && issues == {} ==>
          selected == if legacy != [] then Ok(Some(LegacyWork(legacy[0]))) else Ok(None))
  }

  lemma NothingFlies(recoveries: map<ActionId, Recovery>, queue: map<ActionId, Item>)
    requires NothingInFlight(recoveries, queue)
    ensures FlightCount(queue, recoveries) == 0 && ActionsSupported(queue) && RecoveriesSupported(recoveries)
    ensures (set id | id in recoveries && HasPlannedCorrection(recoveries[id])) == CorrectivesReady(recoveries)
    ensures (set id | id in recoveries && recoveries[id].status == NeedsEvidence) == EvidenceReady(recoveries)
  {
    assert ActionsFlying(queue) == {} && EvidenceFlying(recoveries) == {};
    assert DiagnosticsFlying(recoveries) == {} && CorrectivesFlying(recoveries) == {};
  }

  lemma IdleWorkIsInOrder(
    legacy: seq<string>, recoveries: map<ActionId, Recovery>, queue: map<ActionId, Item>, admitted: map<string, Admission>)
    ensures NothingInFlight(recoveries, queue) ==>
      && Select(legacy, recoveries, queue, admitted) == IdleWork(legacy, recoveries, queue, admitted)
      && InPriorityOrder(IdleWork(legacy, recoveries, queue, admitted), legacy, recoveries, queue, admitted)
  {
    if NothingInFlight(recoveries, queue) {
      NothingFlies(recoveries, queue);
    }
    CorrectionsAreOpen(recoveries);
    hide FlightCount, ActionsSupported, RecoveriesSupported, CorrectivesReady, EvidenceReady, HasPlannedCorrection;
    hide NothingInFlight, InFlightWork;
  }

  lemma CorrectionsAreOpen(recoveries: map<ActionId, Recovery>)
    ensures CorrectivesReady(recoveries) <= OpenRecoveries(recoveries)
  {
  }

  predicate ActionsSupported(queue: map<ActionId, Item>) {
    forall id :: id in queue ==> Supported(queue[id].status)
  }

  ghost predicate RecoveriesSupported(recoveries: map<ActionId, Recovery>) {
    forall id :: id in recoveries ==> RecoverySupported(recoveries[id])
  }

  ghost function Select(
    legacy: seq<string>, recoveries: map<ActionId, Recovery>, queue: map<ActionId, Item>,
    admitted: map<string, Admission>): Result<Option<Work>>
  {
    if !ActionsSupported(queue) then Err("durable action has unsupported lifecycle status")
    else if !RecoveriesSupported(recoveries) then Err("dispatch has unsupported lifecycle status")
    else if FlightCount(queue, recoveries) > 1 then Err("multiple in-flight durable workflows")
    else if FlightCount(queue, recoveries) == 1 then InFlightWork(recoveries, queue)
    else IdleWork(legacy, recoveries, queue, admitted)
  }

  lemma SingletonFirst(s: set<string>, x: string)
    requires x in s && |s| <= 1
    ensures First(s) == x
  {
    var y := First(s);
    if y != x {
      assert {x, y} <= s;
      assert |{x, y}| <= |s| by { SubsetSize({x, y}, s); }
    }
  }

  lemma {:induction false} SubsetSize<T>(a: set<T>, b: set<T>)
    requires a <= b
    ensures |a| <= |b|
  {
    if a != {} {
      var x :| x in a;
      SubsetSize(a - {x}, b - {x});
    }
  }

  /** `found` lists, without repetition, the in-flight ids met so far. */
  ghost predicate Walked(found: seq<ActionId>, flying: set<ActionId>, done: set<ActionId>) {
    && |found| == |flying * done|
    && forall id :: id in found <==> id in flying * done
  }

  lemma WalkOver(found: seq<ActionId>, flying: set<ActionId>, done: set<ActionId>, id: ActionId)
    requires Walked(found, flying, done) && id !in done
    ensures Walked(Appended(found, id in flying, id), flying, done + {id})
  {
    if id in flying {
      assert flying * (done + {id}) == flying * done + {id};
    } else {
      assert flying * (done + {id}) == flying * done;
    }
  }

  datatype InFlightLists = InFlightLists(evidence: seq<ActionId>, diagnostic: seq<ActionId>, corrective: seq<ActionId>)

  ghost predicate ListsWalked(lists: InFlightLists, recoveries: map<ActionId, Recovery>, done: set<ActionId>) {
    && Walked(lists.evidence, EvidenceFlying(recoveries), done)
    && Walked(lists.diagnostic, DiagnosticsFlying(recoveries), done)
    && Walked(lists.corrective, CorrectivesFlying(recoveries), done)
  }

  /** One turn of the collecting loop. */
  function Appended(found: seq<ActionId>, flies: bool, id: ActionId): seq<ActionId> {
    if flies then found + [id] else found
  }

  predicate FliesEvidence(r: Recovery) {
    r.status == NeedsEvidence && r.evidenceDispatch.Some?
  }

  predicate FliesDiagnostic(r: Recovery) {
    r.status == Open && r.diagnosticDispatch.Some?
  }

  predicate FliesCorrective(r: Recovery) {
    r.status == Open && r.correctiveDispatch.Some?
  }

  function Collect(lists: InFlightLists, id: ActionId, r: Recovery): InFlightLists {
    InFlightLists(Appended(lists.evidence, FliesEvidence(r), id),
                  Appended(lists.diagnostic, FliesDiagnostic(r), id),
                  Appended(lists.corrective, FliesCorrective(r), id))
  }

  lemma CollectWalks(lists: InFlightLists, recoveries: map<ActionId, Recovery>, done: set<ActionId>, id: ActionId)
    requires ListsWalked(lists, recoveries, done) && id !in done && id in recoveries
    ensures ListsWalked(Collect(lists, id, recoveries[id]), recoveries, done + {id})
  {
    WalkOver(lists.evidence, EvidenceFlying(recoveries), done, id);
    WalkOver(lists.diagnostic, DiagnosticsFlying(recoveries), done, id);
    WalkOver(lists.corrective, CorrectivesFlying(recoveries), done, id);
  }

  lemma NothingWalked(recoveries: map<ActionId, Recovery>)
    ensures ListsWalked(InFlightLists([], [], []), recoveries, {})
  {
  }

  /** The collecting loop; it stops at the first dispatch in an unsupported stage. */
  method CollectInFlight(recoveries: map<ActionId, Recovery>) returns (supported: bool, lists: InFlightLists)
    ensures supported == RecoveriesSupported(recoveries)
    ensures supported ==> ListsWalked(lists, recoveries, recoveries.Keys)
  {
    hide ListsWalked, RecoverySupported, Collect;
    NothingWalked(recoveries);
    supported, lists := true, InFlightLists([], [], []);
    var rest := recoveries.Keys;
    ghost var done: set<ActionId> := {};
    while rest != {} && supported
      invariant done <= recoveries.Keys && rest == recoveries.Keys - done
      invariant supported ==> SupportedOn(recoveries, done) && ListsWalked(lists, recoveries, done)
      invariant !supported ==> !RecoveriesSupported(recoveries)
      decreases |rest|
    {
      var id :| id in rest;
      supported := RecoverySupported(recoveries[id]);
      CollectWalks(lists, recoveries, done, id);
      lists := Collect(lists, id, recoveries[id]);
      done := done + {id};
      rest := rest - {id};
    }
    if supported {
      assert done == recoveries.Keys;
    }
  }

  ghost predicate SupportedOn(recoveries: map<ActionId, Recovery>, done: set<ActionId>) {
    forall id :: id in recoveries && id in done ==> RecoverySupported(recoveries[id])
  }

  /** What the three lists tell about the in-flight sets. */
  lemma ListsTell(lists: InFlightLists, recoveries: map<ActionId, Recovery>)
    requires ListsWalked(lists, recoveries, recoveries.Keys)
    ensures |lists.evidence| == |EvidenceFlying(recoveries)|
    ensures |lists.diagnostic| == |DiagnosticsFlying(recoveries)|
    ensures |lists.corrective| == |CorrectivesFlying(recoveries)|
    ensures |lists.evidence| == 1 ==>
      lists.evidence[0] in EvidenceFlying(recoveries) && First(EvidenceFlying(recoveries)) == lists.evidence[0]
    ensures |lists.diagnostic| == 1 ==>
      lists.diagnostic[0] in DiagnosticsFlying(recoveries) && First(DiagnosticsFlying(recoveries)) == lists.diagnostic[0]
    ensures |lists.corrective| == 1 ==>
      lists.corrective[0] in CorrectivesFlying(recoveries) && First(CorrectivesFlying(recoveries)) == lists.corrective[0]
  {
    WalkedAll(lists.evidence, EvidenceFlying(recoveries), recoveries.Keys);
    WalkedAll(lists.diagnostic, DiagnosticsFlying(recoveries), recoveries.Keys);
    WalkedAll(lists.corrective, CorrectivesFlying(recoveries), recoveries.Keys);
  }

  lemma WalkedAll(found: seq<ActionId>, flying: set<ActionId>, all: set<ActionId>)
    requires Walked(found, flying, all) && flying <= all
    ensures |found| == |flying| && (found == [] <==> flying == {})
    ensures |found| == 1 ==> found[0] in flying && First(flying) == found[0]
  {
    assert flying * all == flying;
    if |found| == 1 {
      assert found[0] in found;
      SingletonFirst(flying, found[0]);
    }
  }

  /** The scheduler as the source runs it: one pass over the recoveries collecting three
      in-flight lists, then a cascade of early returns. */
  method SelectControllerWork(
    legacy: seq<string>, recoveries: map<ActionId, Recovery>, queue: map<ActionId, Item>,
    admitted: map<string, Admission>) returns (selected: Result<Option<Work>>)
    ensures selected == Select(legacy, recoveries, queue, admitted)
    ensures NothingInFlight(recoveries, queue) ==> InPriorityOrder(selected, legacy, recoveries, queue, admitted)
  {
    IdleWorkIsInOrder(legacy, recoveries, queue, admitted);
    hide NothingInFlight, InPriorityOrder;
    hide InFlightWork, IdleWork, ActionsSupported, RecoveriesSupported, ListsWalked;
    hide ActionsFlying, EvidenceFlying, DiagnosticsFlying, CorrectivesFlying;
    if !ActionsSupported(queue) {
      return Err("durable action has unsupported lifecycle status");
    }
    var supported, lists := CollectInFlight(recoveries);
    if !supported {
      return Err("dispatch has unsupported lifecycle status");
    }
    ListsTell(lists, recoveries);
    var count := |ActionsFlying(queue)| + |lists.evidence| + |lists.diagnostic| + |lists.corrective|;
    if count > 1 {
      return Err("multiple in-flight durable workflows");
    }
    assert count == FlightCount(queue, recoveries);
    if count == 1 {
      selected := ResumeInFlight(recoveries, queue, lists);
    } else {
      selected := SelectIdleWork(legacy, recoveries, queue, admitted);
    }
  }

  /** The first half of the cascade, for the one in-flight record. */
  method ResumeInFlight(recoveries: map<ActionId, Recovery>, queue: map<ActionId, Item>, lists: InFlightLists)
    returns (selected: Result<Option<Work>>)
    requires ListsWalked(lists, recoveries, recoveries.Keys) && FlightCount(queue, recoveries) == 1
    ensures selected == InFlightWork(recoveries, queue)
  {
    ListsTell(lists, recoveries);
    var actions := ActionsFlying(queue);
    if actions != {} {
      var id := SortedFirst(actions);
      return Resumed(ActionSurface, id, queue[id].status, queue[id].dispatchIntent.Some?, queue[id].dispatchReceipt.Some?);
    }
    if lists.corrective != [] {
      var id := lists.corrective[0];
      return ResumedDispatch(CorrectiveSurface, id, recoveries[id].correctiveDispatch.value);
    }
    if lists.evidence != [] {
      var id := lists.evidence[0];
      return ResumedDispatch(EvidenceSurface, id, recoveries[id].evidenceDispatch.value);
    }
    var id := lists.diagnostic[0];
    return ResumedDispatch(DiagnosticSurface, id, recoveries[id].diagnosticDispatch.value);
  }

  /** The second half of the cascade, when nothing is in flight. */
  method SelectIdleWork(
    legacy: seq<string>, recoveries: map<ActionId, Recovery>, queue: map<ActionId, Item>,
    admitted: map<string, Admission>) returns (selected: Result<Option<Work>>)
    ensures selected == IdleWork(legacy, recoveries, queue, admitted)
    ensures NothingInFlight(recoveries, queue) ==> InPriorityOrder(selected, legacy, recoveries, queue, admitted)
  {
    IdleWorkIsInOrder(legacy, recoveries, queue, admitted);
    hide NothingInFlight, InPriorityOrder, Select;
    var corrective := CorrectivesReady(recoveries);
    if corrective != {} {
      var id := SortedFirst(corrective);
      return Ok(Some(Ready(CorrectiveSurface, id)));
    }
    var open := OpenRecoveries(recoveries);
    if open != {} {
      var id := SortedFirst(open);
      return Ok(Some(Ready(DiagnosticSurface, id)));
    }
    var evidence := EvidenceReady(recoveries);
    if evidence != {} {
      var id := SortedFirst(evidence);
      return Ok(Some(Ready(EvidenceSurface, id)));
    }
    var pending := PendingActions(queue);
    if pending != {} {
      var id := SortedFirst(pending);
      return Ok(Some(Ready(ActionSurface, id)));
    }
    var issues := AdmittedIds(admitted);
    if issues != {} {
      var work := SortedFirst(issues);
      if admitted[work].workId != work {
        return Err("admitted work identity mismatch");
      }
      return Ok(Some(AdmittedIssue(work)));
    }
    if legacy != [] {
      return Ok(Some(LegacyWork(legacy[0])));
    }
    return Ok(None);
  }
}
