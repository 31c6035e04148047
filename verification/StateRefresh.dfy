/** state_refresh.py: which reads a controller owes before it may act on its checkpoint. */
module StateRefresh {
  import opened Prelude

  datatype Checkpoint = Checkpoint(
    present: bool, trustworthy: bool, phaseChanged: bool, ruleRevisionChanged: bool, scopeChanged: bool,
    evidenceContradiction: bool, nextActionKnown: bool)

  datatype Stability = Mutable | PinnedImmutable

  datatype ProbeState = NotRun | ProbeOk | ProbeError

  datatype Surface = Surface(
    id: string, stability: Stability, exactLocator: bool, decisionCritical: bool, pinVerified: bool,
    probeState: ProbeState, checkpointFingerprint: Option<string>, currentFingerprint: Option<string>,
    probeReads: seq<string>, detailReads: seq<string>, prewriteReads: seq<string>)

  datatype Snapshot = Snapshot(checkpoint: Checkpoint, plannedMutations: seq<string>, surfaces: seq<Surface>)

  datatype Status =
    | FullRefreshRequired | ProbeBlocked | ProbeRequired | DeltaRefresh | PrewriteOnly | CheckpointCurrent

  datatype RefreshPlan = RefreshPlan(
    status: Status, canUseCheckpoint: bool, probeReads: seq<string>, expandReads: seq<string>,
    prewriteReads: seq<string>, skippedSurfaces: seq<string>, changedSurfaces: seq<string>)

  predicate NeedsFullRefresh(c: Checkpoint) {
    !c.present || !c.trustworthy || c.phaseChanged || c.ruleRevisionChanged || c.scopeChanged
    || c.evidenceContradiction || !c.nextActionKnown
  }

  // ---------- one surface ----------

  predicate SurfaceOk(surface: Surface, targets: seq<string>) {
    if surface.stability == PinnedImmutable
    then surface.exactLocator && surface.checkpointFingerprint.Some? && surface.id !in targets
    else !surface.pinVerified
  }

  datatype Fate = Skipped | Probe | Changed | Blocked

  function Classify(surface: Surface, targets: seq<string>): Result<Fate> {
    if surface.stability == PinnedImmutable && surface.pinVerified then Ok(Skipped)
    else if !surface.decisionCritical && surface.id !in targets then Ok(Skipped)
    else
      match surface.probeState
      case ProbeError => Ok(Blocked)
      case NotRun => if surface.probeReads == [] then Err("surface needs a probe but probe_reads is empty") else Ok(Probe)
      case ProbeOk =>
        if surface.currentFingerprint.None? then Err("probe_state OK but no current_fingerprint")
        else if surface.currentFingerprint == surface.checkpointFingerprint then Ok(Skipped)
        else if surface.detailReads == [] then Err("changed surface requires non-empty detail_reads")
        else Ok(Changed)
  }

  predicate Meets(s: Snapshot, i: nat, fate: Fate)
    requires i < |s.surfaces|
  {
    Classify(s.surfaces[i], s.plannedMutations) == Ok(fate)
  }

  // ---------- accumulated lists ----------

  function AppendUnique(target: seq<string>, values: seq<string>): (r: seq<string>)
    ensures forall v :: v in r <==> v in target || v in values
    decreases |values|
  {
    if values == [] then target
    else AppendUnique(if values[0] in target then target else target + [values[0]], values[1..])
  }

  /** `_append_unique`, which changes the list it is given. */
  class ReadList {
    var items: seq<string>

    constructor ()
      ensures items == []
    {
      items := [];
    }

    method AppendAll(values: seq<string>)
      modifies this
      ensures items == AppendUnique(old(items), values)
    {
      var i := 0;
      while i < |values|
        invariant i <= |values|
        invariant AppendUnique(items, values[i..]) == AppendUnique(old(items), values)
      {
        if values[i] !in items {
          items := items + [values[i]];
        }
        i := i + 1;
      }
    }
  }

  /** The ids of the first `n` surfaces that meet `fate`, in order. */
  function IdsMeeting(s: Snapshot, n: nat, fate: Fate): (ids: seq<string>)
    requires n <= |s.surfaces|
    ensures forall i :: 0 <= i < n && Meets(s, i, fate) ==> s.surfaces[i].id in ids
    ensures forall id :: id in ids ==> exists i :: 0 <= i < n && Meets(s, i, fate) && s.surfaces[i].id == id
  {
    if n == 0 then []
    else IdsMeeting(s, n - 1, fate) + if Meets(s, n - 1, fate) then [s.surfaces[n - 1].id] else []
  }

  function ReadsIn(surface: Surface, fate: Fate): seq<string> {
    if fate == Probe then surface.probeReads else surface.detailReads
  }

  function ReadsOwed(s: Snapshot, n: nat, fate: Fate): (owed: seq<string>)
    requires n <= |s.surfaces|
    ensures forall i :: 0 <= i < n && Meets(s, i, fate) ==>
      forall r :: r in ReadsIn(s.surfaces[i], fate) ==> r in owed
  {
    if n == 0 then []
    else if Meets(s, n - 1, fate) then AppendUnique(ReadsOwed(s, n - 1, fate), ReadsIn(s.surfaces[n - 1], fate))
    else ReadsOwed(s, n - 1, fate)
  }

  /** `surfaces[surface_id]` */
  function Named(surfaces: seq<Surface>, id: string): Option<Surface> {
    if surfaces == [] then None
    else if surfaces[|surfaces| - 1].id == id then Some(surfaces[|surfaces| - 1])
    else Named(surfaces[..|surfaces| - 1], id)
  }

  function PrewriteOf(s: Snapshot, id: string): seq<string> {
    if Named(s.surfaces, id).Some? then Named(s.surfaces, id).value.prewriteReads else []
  }

  function PrewriteReads(s: Snapshot, n: nat): (owed: seq<string>)
    requires n <= |s.plannedMutations|
    ensures forall k :: 0 <= k < n ==> forall r :: r in PrewriteOf(s, s.plannedMutations[k]) ==> r in owed
  {
    if n == 0 then [] else AppendUnique(PrewriteReads(s, n - 1), PrewriteOf(s, s.plannedMutations[n - 1]))
  }

  // ---------- the whole evaluation ----------

  predicate NoRepeats(names: seq<string>) {
    forall i, j :: 0 <= i < j < |names| ==> names[i] != names[j]
  }

  predicate UniqueIds(surfaces: seq<Surface>) {
    forall i, j :: 0 <= i < j < |surfaces| ==> surfaces[i].id != surfaces[j].id
  }

  predicate WellFormed(s: Snapshot) {
    && NoRepeats(s.plannedMutations) && UniqueIds(s.surfaces)
    && (forall i :: 0 <= i < |s.surfaces| ==> SurfaceOk(s.surfaces[i], s.plannedMutations))
    && (forall k :: 0 <= k < |s.plannedMutations| ==> Named(s.surfaces, s.plannedMutations[k]).Some?)
  }

  predicate Acceptable(s: Snapshot) {
    NeedsFullRefresh(s.checkpoint)
    || (WellFormed(s)
        && (forall i :: 0 <= i < |s.surfaces| ==> Classify(s.surfaces[i], s.plannedMutations).Ok?)
        && (forall k :: 0 <= k < |s.plannedMutations| ==> PrewriteOf(s, s.plannedMutations[k]) != []))
  }

  function PlanOf(s: Snapshot): RefreshPlan {
    if NeedsFullRefresh(s.checkpoint) then RefreshPlan(FullRefreshRequired, false, [], [], [], [], [])
    else
      var n := |s.surfaces|;
      var probe, expand := ReadsOwed(s, n, Probe), ReadsOwed(s, n, Changed);
      var prewrite := PrewriteReads(s, |s.plannedMutations|);
      Chosen(IdsMeeting(s, n, Blocked), probe, expand, prewrite, IdsMeeting(s, n, Skipped), IdsMeeting(s, n, Changed))
  }

  function Chosen(
    blocked: seq<string>, probe: seq<string>, expand: seq<string>, prewrite: seq<string>,
    skipped: seq<string>, changed: seq<string>): RefreshPlan
  {
    if blocked != [] then RefreshPlan(ProbeBlocked, true, probe, expand, prewrite, skipped, changed)
    else if probe != [] then RefreshPlan(ProbeRequired, true, probe, expand, prewrite, skipped, changed)
    else if expand != [] then RefreshPlan(DeltaRefresh, true, [], expand, prewrite, skipped, changed)
    else if prewrite != [] then RefreshPlan(PrewriteOnly, true, [], [], prewrite, skipped, [])
    else RefreshPlan(CheckpointCurrent, true, [], [], [], skipped, [])
  }

  datatype SurfaceLists = SurfaceLists(
    probe: seq<string>, expand: seq<string>, skipped: seq<string>, changed: seq<string>, blocked: seq<string>)

  function ListsOf(s: Snapshot, n: nat): SurfaceLists
    requires n <= |s.surfaces|
  {
    SurfaceLists(ReadsOwed(s, n, Probe), ReadsOwed(s, n, Changed),
                 IdsMeeting(s, n, Skipped), IdsMeeting(s, n, Changed), IdsMeeting(s, n, Blocked))
  }

  method Evaluate(s: Snapshot) returns (r: Result<RefreshPlan>)
    ensures r.Ok? <==> Acceptable(s)
    ensures r.Ok? ==> r.value == PlanOf(s)
  {
    hide Classify, SurfaceOk, WellFormed, PrewriteOf;
    if NeedsFullRefresh(s.checkpoint) {
      return Ok(RefreshPlan(FullRefreshRequired, false, [], [], [], [], []));
    }
    if !WellFormed(s) {
      return Err("malformed surfaces or planned mutations");
    }
    var ok, lists := ClassifySurfaces(s);
    if !ok {
      return Err("malformed surface");
    }
    var guarded, prewrite := CollectPrewriteReads(s);
    if !guarded {
      return Err("planned mutation target requires authoritative prewrite_reads");
    }
    return Ok(Chosen(lists.blocked, lists.probe, lists.expand, prewrite, lists.skipped, lists.changed));
  }

  method ClassifySurfaces(s: Snapshot) returns (ok: bool, lists: SurfaceLists)
    ensures ok <==> forall i :: 0 <= i < |s.surfaces| ==> Classify(s.surfaces[i], s.plannedMutations).Ok?
    ensures ok ==> lists == ListsOf(s, |s.surfaces|)
  {
    hide Classify;
    var probe := new ReadList();
    var expand := new ReadList();
    var skipped, changed, blocked: seq<string> := [], [], [];
    for n := 0 to |s.surfaces|
      invariant forall i :: 0 <= i < n ==> Classify(s.surfaces[i], s.plannedMutations).Ok?
      invariant fresh(probe) && fresh(expand) && probe != expand
      invariant SurfaceLists(probe.items, expand.items, skipped, changed, blocked) == ListsOf(s, n)
    {
      var surface := s.surfaces[n];
      var fate := Classify(surface, s.plannedMutations);
      if fate.Err? {
        return false, SurfaceLists([], [], [], [], []);
      }
      match fate.value {
        case Skipped => skipped := skipped + [surface.id];
        case Blocked => blocked := blocked + [surface.id];
        case Probe => probe.AppendAll(surface.probeReads);
        case Changed =>
          changed := changed + [surface.id];
          expand.AppendAll(surface.detailReads);
      }
    }
    return true, SurfaceLists(probe.items, expand.items, skipped, changed, blocked);
  }

  method CollectPrewriteReads(s: Snapshot) returns (guarded: bool, prewrite: seq<string>)
    ensures guarded <==> forall k :: 0 <= k < |s.plannedMutations| ==> PrewriteOf(s, s.plannedMutations[k]) != []
    ensures guarded ==> prewrite == PrewriteReads(s, |s.plannedMutations|)
  {
    hide PrewriteOf;
    var list := new ReadList();
    for k := 0 to |s.plannedMutations|
      invariant forall j :: 0 <= j < k ==> PrewriteOf(s, s.plannedMutations[j]) != []
      invariant fresh(list) && list.items == PrewriteReads(s, k)
    {
      var owed := PrewriteOf(s, s.plannedMutations[k]);
      if owed == [] {
        return false, [];
      }
      list.AppendAll(owed);
    }
    return true, list.items;
  }
}
