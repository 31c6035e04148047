/** The refresh planner never lets a write go unread, and it converges. */
module RefreshTheorems {
  import opened Prelude
  import opened StateRefresh

  /** Every surface of an accepted snapshot meets exactly one fate, the reported lists say which,
      and the reads that fate owes are reported. */
  lemma SurfaceLandsOnce(s: Snapshot, i: nat)
    requires Acceptable(s) && !NeedsFullRefresh(s.checkpoint) && i < |s.surfaces|
    ensures exists fate :: Meets(s, i, fate)
    ensures var n, id := |s.surfaces|, s.surfaces[i].id;
      forall fate :: Meets(s, i, fate) <==> id in IdsMeeting(s, n, fate)
    ensures var p := PlanOf(s); var id := s.surfaces[i].id;
      && (id in p.skippedSurfaces <==> Meets(s, i, Skipped))
      && (id in p.changedSurfaces <==> Meets(s, i, Changed))
      && (Meets(s, i, Blocked) ==> p.status == ProbeBlocked)
      && (Meets(s, i, Probe) ==> forall r :: r in s.surfaces[i].probeReads ==> r in p.probeReads)
      && (Meets(s, i, Changed) ==> forall r :: r in s.surfaces[i].detailReads ==> r in p.expandReads)
  {
    var n, id := |s.surfaces|, s.surfaces[i].id;
    assert Meets(s, i, Classify(s.surfaces[i], s.plannedMutations).value);
    forall fate ensures Meets(s, i, fate) <==> id in IdsMeeting(s, n, fate) {
      if id in IdsMeeting(s, n, fate) {
        var j :| 0 <= j < n && Meets(s, j, fate) && s.surfaces[j].id == id;
        assert i == j;
      }
    }
    NothingOwedNoReads(s, n, Probe);
    NothingOwedNoReads(s, n, Changed);
    hide Classify;
    if Meets(s, i, Probe) {
      assert s.surfaces[i].probeReads == ReadsIn(s.surfaces[i], Probe);
    }
    if Meets(s, i, Changed) {
      assert s.surfaces[i].detailReads == ReadsIn(s.surfaces[i], Changed);
    }
  }

  /** A fate owes reads exactly when some surface meets it. */
  lemma {:induction false} NothingOwedNoReads(s: Snapshot, n: nat, fate: Fate)
    requires n <= |s.surfaces| && (fate == Probe || fate == Changed)
    ensures ReadsOwed(s, n, fate) == [] <==> forall i :: 0 <= i < n ==> !Meets(s, i, fate)
    ensures IdsMeeting(s, n, fate) == [] <==> forall i :: 0 <= i < n ==> !Meets(s, i, fate)
  {
    if n > 0 {
      NothingOwedNoReads(s, n - 1, fate);
      if Meets(s, n - 1, fate) {
        SomethingIsOwed(s, n - 1, fate);
        hide Meets;
        assert ReadsIn(s.surfaces[n - 1], fate)[0] in ReadsOwed(s, n, fate);
      }
    }
  }

  lemma SomethingIsOwed(s: Snapshot, i: nat, fate: Fate)
    requires i < |s.surfaces| && (fate == Probe || fate == Changed) && Meets(s, i, fate)
    ensures ReadsIn(s.surfaces[i], fate) != []
  {
  }

  lemma {:induction false} NothingBlockedNoIds(s: Snapshot, n: nat)
    requires n <= |s.surfaces|
    ensures IdsMeeting(s, n, Blocked) == [] <==> forall i :: 0 <= i < n ==> !Meets(s, i, Blocked)
  {
    if n > 0 {
      NothingBlockedNoIds(s, n - 1);
    }
  }

  lemma {:induction false} UniqueAppended(target: seq<string>, values: seq<string>)
    requires NoRepeats(target)
    ensures NoRepeats(AppendUnique(target, values))
    ensures target <= AppendUnique(target, values)
    decreases |values|
  {
    if values != [] {
      UniqueAppended(if values[0] in target then target else target + [values[0]], values[1..]);
    }
  }

  lemma {:induction false} PrewriteIsUnique(s: Snapshot, n: nat)
    requires n <= |s.plannedMutations|
    ensures NoRepeats(PrewriteReads(s, n))
    ensures PrewriteReads(s, n) == [] <==> forall k :: 0 <= k < n ==> PrewriteOf(s, s.plannedMutations[k]) == []
  {
    if n > 0 {
      PrewriteIsUnique(s, n - 1);
      UniqueAppended(PrewriteReads(s, n - 1), PrewriteOf(s, s.plannedMutations[n - 1]));
      var owed := PrewriteOf(s, s.plannedMutations[n - 1]);
      if owed != [] {
        assert owed[0] in PrewriteReads(s, n);
      }
    }
  }

  /** Whatever the status: a plan that may use the checkpoint lists, without repetition, every prewrite
      read of every mutation target. */
  lemma EveryWriteIsReadFirst(s: Snapshot, k: nat, read: string)
    requires Acceptable(s) && k < |s.plannedMutations| && PlanOf(s).canUseCheckpoint
    requires read in PrewriteOf(s, s.plannedMutations[k])
    ensures read in PlanOf(s).prewriteReads && NoRepeats(PlanOf(s).prewriteReads)
  {
    PrewriteIsUnique(s, |s.plannedMutations|);
  }

  // ---------- what a plan tells, said on the surfaces ----------

  /** The surface matters: it is critical for the decision or about to be mutated, and not a verified pin. */
  predicate Matters(s: Snapshot, i: nat)
    requires i < |s.surfaces|
  {
    var surface := s.surfaces[i];
    (surface.decisionCritical || surface.id in s.plannedMutations)
    && !(surface.stability == PinnedImmutable && surface.pinVerified)
  }

  predicate IsProbed(s: Snapshot, i: nat)
    requires i < |s.surfaces|
  {
    s.surfaces[i].probeState == ProbeOk && s.surfaces[i].currentFingerprint.Some?
  }

  predicate IsUnchanged(s: Snapshot, i: nat)
    requires i < |s.surfaces|
  {
    s.surfaces[i].currentFingerprint == s.surfaces[i].checkpointFingerprint
  }

  lemma FateExactly(s: Snapshot, i: nat)
    requires i < |s.surfaces| && Classify(s.surfaces[i], s.plannedMutations).Ok?
    ensures Meets(s, i, Blocked) <==> Matters(s, i) && s.surfaces[i].probeState == ProbeError
    ensures Meets(s, i, Probe) <==> Matters(s, i) && s.surfaces[i].probeState == NotRun
    ensures Meets(s, i, Changed) <==> Matters(s, i) && IsProbed(s, i) && !IsUnchanged(s, i)
    ensures Meets(s, i, Skipped) <==> !Matters(s, i) || (IsProbed(s, i) && IsUnchanged(s, i))
  {
  }

  /** The status of an accepted snapshot says exactly what is left to do: a refresh of everything, a failed probe
      of a surface that matters, a probe not yet run, a changed surface, a write, or nothing. */
  lemma StatusIsExact(s: Snapshot)
    requires Acceptable(s)
    ensures var n := |s.surfaces|; var status := PlanOf(s).status;
      var full := NeedsFullRefresh(s.checkpoint);
      var failed := exists i: nat :: i < n && Matters(s, i) && s.surfaces[i].probeState == ProbeError;
      var unknown := exists i: nat :: i < n && Matters(s, i) && s.surfaces[i].probeState == NotRun;
      var changed := exists i: nat :: i < n && Matters(s, i) && IsProbed(s, i) && !IsUnchanged(s, i);
      && (status == FullRefreshRequired <==> full)
      && (status == ProbeBlocked <==> !full && failed)
      && (status == ProbeRequired <==> !full && !failed && unknown)
      && (status == DeltaRefresh <==> !full && !failed && !unknown && changed)
      && (status == PrewriteOnly <==> !full && !failed && !unknown && !changed && s.plannedMutations != [])
      && (status == CheckpointCurrent <==> !full && !failed && !unknown && !changed && s.plannedMutations == [])
      && (PlanOf(s).canUseCheckpoint <==> !full)
  {
    if !NeedsFullRefresh(s.checkpoint) {
      var n := |s.surfaces|;
      forall i: nat | i < n
        ensures Meets(s, i, Blocked) <==> Matters(s, i) && s.surfaces[i].probeState == ProbeError
        ensures Meets(s, i, Probe) <==> Matters(s, i) && s.surfaces[i].probeState == NotRun
        ensures Meets(s, i, Changed) <==> Matters(s, i) && IsProbed(s, i) && !IsUnchanged(s, i)
      {
        FateExactly(s, i);
      }
      NothingOwedNoReads(s, n, Probe);
      NothingOwedNoReads(s, n, Changed);
      NothingBlockedNoIds(s, n);
      PrewriteFound(s);
      hide Acceptable, Meets, Matters, IsProbed, IsUnchanged;
    }
  }

  lemma FullRefreshExactly(c: Checkpoint)
    ensures NeedsFullRefresh(c) <==> c != Checkpoint(true, true, false, false, false, false, true)
  {
  }

  /** Once nothing is left to probe, every surface that matters was probed, and is either unchanged or listed as
      changed with all its details to read. */
  lemma CheckpointUseIsInformed(s: Snapshot, i: nat)
    requires Acceptable(s) && i < |s.surfaces| && Matters(s, i)
    requires PlanOf(s).status in {DeltaRefresh, PrewriteOnly, CheckpointCurrent}
    ensures IsProbed(s, i)
    ensures IsUnchanged(s, i) || (s.surfaces[i].id in PlanOf(s).changedSurfaces && s.surfaces[i].detailReads != []
                                  && forall r :: r in s.surfaces[i].detailReads ==> r in PlanOf(s).expandReads)
  {
    StatusIsExact(s);
    SurfaceLandsOnce(s, i);
    FateExactly(s, i);
    SomethingOwedIfChanged(s, i);
    hide PlanOf, Classify, Acceptable;
  }

  lemma SomethingOwedIfChanged(s: Snapshot, i: nat)
    requires i < |s.surfaces|
    ensures Meets(s, i, Changed) ==> s.surfaces[i].detailReads != []
  {
  }

  // ---------- answering the probes ----------

  /** `t` is `s` after every probe it asked for came back with a fingerprint. */
  predicate AnsweredAt(s: Snapshot, t: Snapshot, i: nat)
    requires i < |s.surfaces| && i < |t.surfaces|
  {
    var before, after := s.surfaces[i], t.surfaces[i];
    if Meets(s, i, Probe)
    then after == before.(probeState := ProbeOk, currentFingerprint := after.currentFingerprint)
         && after.currentFingerprint.Some?
    else after == before
  }

  ghost predicate Answered(s: Snapshot, t: Snapshot) {
    && t.checkpoint == s.checkpoint && t.plannedMutations == s.plannedMutations && |t.surfaces| == |s.surfaces|
    && forall i :: 0 <= i < |s.surfaces| ==> AnsweredAt(s, t, i)
  }

  /** Every probed surface whose fingerprint came back changed has details to read. */
  predicate ChangesAreReadable(s: Snapshot, t: Snapshot)
    requires |t.surfaces| == |s.surfaces|
  {
    forall i :: 0 <= i < |s.surfaces| && Meets(s, i, Probe) ==>
      t.surfaces[i].currentFingerprint == t.surfaces[i].checkpointFingerprint || t.surfaces[i].detailReads != []
  }

  lemma {:induction false} SameShape(s: seq<Surface>, t: seq<Surface>, id: string)
    requires |s| == |t|
    requires forall i :: 0 <= i < |s| ==> t[i].id == s[i].id && t[i].prewriteReads == s[i].prewriteReads
    ensures Named(s, id).Some? == Named(t, id).Some?
    ensures Named(s, id).Some? ==> Named(s, id).value.prewriteReads == Named(t, id).value.prewriteReads
  {
    if s != [] && s[|s| - 1].id != id {
      SameShape(s[..|s| - 1], t[..|t| - 1], id);
    }
  }

  lemma SurfaceAnswered(s: Snapshot, t: Snapshot, i: nat)
    requires Answered(s, t) && i < |s.surfaces| && Classify(s.surfaces[i], s.plannedMutations).Ok?
    ensures Classify(t.surfaces[i], t.plannedMutations).Ok? <==>
      (Meets(s, i, Probe) && t.surfaces[i].currentFingerprint != t.surfaces[i].checkpointFingerprint ==>
         t.surfaces[i].detailReads != [])
    ensures !Meets(t, i, Probe)
    ensures Meets(t, i, Blocked) <==> Meets(s, i, Blocked)
    ensures SurfaceOk(s.surfaces[i], s.plannedMutations) ==> SurfaceOk(t.surfaces[i], t.plannedMutations)
    ensures t.surfaces[i].id == s.surfaces[i].id && t.surfaces[i].prewriteReads == s.surfaces[i].prewriteReads
  {
    assert AnsweredAt(s, t, i);
  }

  lemma {:induction false} SamePrewrite(s: Snapshot, t: Snapshot, n: nat)
    requires t.plannedMutations == s.plannedMutations && |t.surfaces| == |s.surfaces| && n <= |s.plannedMutations|
    requires forall i :: 0 <= i < |s.surfaces| ==>
      t.surfaces[i].id == s.surfaces[i].id && t.surfaces[i].prewriteReads == s.surfaces[i].prewriteReads
    ensures PrewriteReads(s, n) == PrewriteReads(t, n)
    ensures forall k :: 0 <= k < n ==> Named(t.surfaces, s.plannedMutations[k]).Some? == Named(s.surfaces, s.plannedMutations[k]).Some?
    ensures forall k :: 0 <= k < n ==> PrewriteOf(t, s.plannedMutations[k]) == PrewriteOf(s, s.plannedMutations[k])
  {
    if n > 0 {
      SamePrewrite(s, t, n - 1);
      SameShape(s.surfaces, t.surfaces, s.plannedMutations[n - 1]);
    }
  }

  /** Surfaces that keep their ids and prewrite reads, and stay lawful, keep the snapshot acceptable. */
  lemma StaysAcceptable(s: Snapshot, t: Snapshot)
    requires Acceptable(s) && !NeedsFullRefresh(s.checkpoint) && t.checkpoint == s.checkpoint
    requires t.plannedMutations == s.plannedMutations && |t.surfaces| == |s.surfaces|
    requires forall i :: 0 <= i < |s.surfaces| ==>
      t.surfaces[i].id == s.surfaces[i].id && t.surfaces[i].prewriteReads == s.surfaces[i].prewriteReads
    requires forall i :: 0 <= i < |s.surfaces| ==> Classify(t.surfaces[i], t.plannedMutations).Ok?
    requires forall i :: 0 <= i < |s.surfaces| ==> SurfaceOk(t.surfaces[i], t.plannedMutations)
    ensures Acceptable(t) && PrewriteReads(t, |t.plannedMutations|) == PrewriteReads(s, |s.plannedMutations|)
  {
    hide Classify, SurfaceOk;
    SamePrewrite(s, t, |s.plannedMutations|);
  }

  /** Answering all probes is accepted exactly when every surface that turned out changed has details to read;
      then no probe is left to ask for, and nothing new is blocked. */
  lemma ProbesAreAnsweredOnce(s: Snapshot, t: Snapshot)
    requires Acceptable(s) && !NeedsFullRefresh(s.checkpoint) && Answered(s, t)
    ensures Acceptable(t) <==> ChangesAreReadable(s, t)
    ensures Acceptable(t) ==>
      && PlanOf(t).status != ProbeRequired && PlanOf(t).status != FullRefreshRequired
      && (PlanOf(t).status == ProbeBlocked <==> PlanOf(s).status == ProbeBlocked)
      && PlanOf(t).prewriteReads == PrewriteReads(s, |s.plannedMutations|)
      && ReadsOwed(t, |t.surfaces|, Probe) == []
  {
    if Acceptable(t) {
      AcceptedIsReadable(s, t);
    }
    if ChangesAreReadable(s, t) {
      ReadableIsAccepted(s, t);
      NothingNewIsOwed(s, t);
      StatusHasReads(t);
    }
  }

  lemma ReadableIsAccepted(s: Snapshot, t: Snapshot)
    requires Acceptable(s) && !NeedsFullRefresh(s.checkpoint) && Answered(s, t) && ChangesAreReadable(s, t)
    ensures Acceptable(t) && PrewriteReads(t, |t.plannedMutations|) == PrewriteReads(s, |s.plannedMutations|)
  {
    forall i | 0 <= i < |s.surfaces|
      ensures Classify(t.surfaces[i], t.plannedMutations).Ok? && SurfaceOk(t.surfaces[i], t.plannedMutations)
      ensures t.surfaces[i].id == s.surfaces[i].id && t.surfaces[i].prewriteReads == s.surfaces[i].prewriteReads
    {
      SurfaceAnswered(s, t, i);
    }
    hide Classify, SurfaceOk, Meets, AnsweredAt, ChangesAreReadable;
    StaysAcceptable(s, t);
  }

  lemma NothingNewIsOwed(s: Snapshot, t: Snapshot)
    requires Acceptable(s) && !NeedsFullRefresh(s.checkpoint) && Answered(s, t)
    ensures ReadsOwed(t, |t.surfaces|, Probe) == []
    ensures IdsMeeting(t, |t.surfaces|, Blocked) == [] <==> IdsMeeting(s, |s.surfaces|, Blocked) == []
  {
    var n := |s.surfaces|;
    forall i | 0 <= i < n ensures !Meets(t, i, Probe) && (Meets(t, i, Blocked) <==> Meets(s, i, Blocked)) {
      assert Classify(s.surfaces[i], s.plannedMutations).Ok?;
      SurfaceAnswered(s, t, i);
    }
    hide Classify, Acceptable, Meets, AnsweredAt;
    NothingOwedNoReads(t, n, Probe);
    NothingBlockedNoIds(s, n);
    NothingBlockedNoIds(t, n);
  }

  lemma AcceptedIsReadable(s: Snapshot, t: Snapshot)
    requires Answered(s, t) && Acceptable(t) && !NeedsFullRefresh(s.checkpoint)
    ensures ChangesAreReadable(s, t)
  {
    hide SurfaceOk;
    forall i | 0 <= i < |s.surfaces| && Meets(s, i, Probe)
        && t.surfaces[i].currentFingerprint != t.surfaces[i].checkpointFingerprint
      ensures t.surfaces[i].detailReads != []
    {
      assert AnsweredAt(s, t, i);
      assert Classify(t.surfaces[i], t.plannedMutations).Ok?;
    }
  }

  // ---------- adopting the new fingerprints ----------

  function RefreshedSurface(surface: Surface, targets: seq<string>): Surface {
    if Classify(surface, targets) == Ok(Changed)
    then surface.(checkpointFingerprint := surface.currentFingerprint) else surface
  }

  /** The checkpoint after the changed surfaces were read and their fingerprints adopted. */
  function Refreshed(s: Snapshot): Snapshot {
    s.(surfaces := seq(|s.surfaces|, i requires 0 <= i < |s.surfaces| => RefreshedSurface(s.surfaces[i], s.plannedMutations)))
  }

  lemma SurfaceRefreshed(s: Snapshot, i: nat)
    requires i < |s.surfaces| && Classify(s.surfaces[i], s.plannedMutations).Ok?
    ensures var t := Refreshed(s);
      && t.surfaces[i].id == s.surfaces[i].id && t.surfaces[i].prewriteReads == s.surfaces[i].prewriteReads
      && Classify(t.surfaces[i], t.plannedMutations).Ok? && !Meets(t, i, Changed)
      && (Meets(t, i, Probe) <==> Meets(s, i, Probe)) && (Meets(t, i, Blocked) <==> Meets(s, i, Blocked))
      && (SurfaceOk(s.surfaces[i], s.plannedMutations) ==> SurfaceOk(t.surfaces[i], t.plannedMutations))
  {
  }

  /** Probe, then read what changed, then adopt the fingerprints: a failed probe stays blocked; otherwise what
      remains is exactly the prewrite reads of the planned mutations, or nothing. */
  lemma RefreshConverges(s: Snapshot, t: Snapshot)
    requires Acceptable(s) && !NeedsFullRefresh(s.checkpoint) && Answered(s, t) && ChangesAreReadable(s, t)
    ensures Acceptable(Refreshed(t))
    ensures PlanOf(Refreshed(t)).status
            == if PlanOf(s).status == ProbeBlocked then ProbeBlocked
               else if s.plannedMutations == [] then CheckpointCurrent else PrewriteOnly
    ensures PlanOf(Refreshed(t)).prewriteReads == PrewriteReads(s, |s.plannedMutations|)
  {
    hide Acceptable, PlanOf, Answered, Refreshed, ReadsOwed, ChangesAreReadable;
    ProbesAreAnsweredOnce(s, t);
    assert t.plannedMutations == s.plannedMutations && t.checkpoint == s.checkpoint by {
      AnswersChangeSurfaces(s, t);
    }
    RefreshClears(t);
    StatusHasReads(t);
  }

  lemma AnswersChangeSurfaces(s: Snapshot, t: Snapshot)
    requires Answered(s, t)
    ensures t.plannedMutations == s.plannedMutations && t.checkpoint == s.checkpoint
  {
  }

  lemma StatusHasReads(s: Snapshot)
    requires !NeedsFullRefresh(s.checkpoint)
    ensures PlanOf(s).prewriteReads == PrewriteReads(s, |s.plannedMutations|)
  {
  }

  lemma RefreshClears(t: Snapshot)
    requires Acceptable(t) && !NeedsFullRefresh(t.checkpoint)
    requires ReadsOwed(t, |t.surfaces|, Probe) == []
    ensures Acceptable(Refreshed(t))
    ensures PlanOf(Refreshed(t)).status
            == if PlanOf(t).status == ProbeBlocked then ProbeBlocked
               else if t.plannedMutations == [] then CheckpointCurrent else PrewriteOnly
    ensures PlanOf(Refreshed(t)).prewriteReads == PrewriteReads(t, |t.plannedMutations|)
  {
    var u, n := Refreshed(t), |t.surfaces|;
    forall i | 0 <= i < n
      ensures u.surfaces[i].id == t.surfaces[i].id && u.surfaces[i].prewriteReads == t.surfaces[i].prewriteReads
      ensures Classify(u.surfaces[i], u.plannedMutations).Ok? && !Meets(u, i, Changed)
      ensures (Meets(u, i, Probe) <==> Meets(t, i, Probe)) && (Meets(u, i, Blocked) <==> Meets(t, i, Blocked))
      ensures SurfaceOk(u.surfaces[i], u.plannedMutations)
    {
      SurfaceRefreshed(t, i);
    }
    hide Classify, SurfaceOk, Meets, Refreshed;
    StaysAcceptable(t, u);
    PrewriteFound(u);
    hide Acceptable, WellFormed, PrewriteOf;
    NothingOwedNoReads(t, n, Probe);
    NothingOwedNoReads(u, n, Probe);
    NothingOwedNoReads(u, n, Changed);
    NothingBlockedNoIds(t, n);
    NothingBlockedNoIds(u, n);
  }

  lemma PrewriteFound(s: Snapshot)
    requires Acceptable(s) && !NeedsFullRefresh(s.checkpoint)
    ensures PrewriteReads(s, |s.plannedMutations|) == [] <==> s.plannedMutations == []
  {
    PrewriteIsUnique(s, |s.plannedMutations|);
    assert s.plannedMutations != [] ==> PrewriteOf(s, s.plannedMutations[0]) != [];
  }
}
