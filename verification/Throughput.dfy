/** throughput.py: the greedy choice of work lanes. */
module Throughput {
  import opened Prelude

  datatype Task = Task(id: string, ready: bool, needsMutation: bool, resources: set<string>)

  datatype LockScope = NoLock | ScopedLock | GlobalLock

  datatype Validation = Validation(
    required: bool, launchExpected: bool, exactHeadRuns: nat, activeRuns: nat, terminalRuns: nat,
    lockScope: LockScope, lockedResources: set<string>)

  datatype Authority = Authority(desiredActive: bool, durableActive: bool, synchronized: bool)

  datatype Snapshot = Snapshot(authority: Authority, validation: Validation, maxLanes: nat, tasks: seq<Task>)

  datatype Status =
    | Paused | SyncAuthority | MissingValidationRoute | WaitExternal | BurstAdvance | ParallelAdvance | Idle

  datatype WorkPlan = WorkPlan(status: Status, selectedTasks: seq<string>)

  // ---------- compatible selections ----------

  /** May run at all: ready, and not mutating a resource under an active scoped lock. */
  predicate Runnable(t: Task, v: Validation) {
    t.ready && (t.needsMutation && v.activeRuns > 0 && v.lockScope == ScopedLock ==> t.resources !! v.lockedResources)
  }

  predicate Clash(a: Task, b: Task) {
    a.needsMutation && b.needsMutation && !(a.resources !! b.resources)
  }

  /** Task indices in order, each runnable, no two mutating tasks sharing a resource. */
  ghost predicate Compatible(tasks: seq<Task>, v: Validation, at: seq<nat>) {
    && (forall i, j :: 0 <= i < j < |at| ==> at[i] < at[j])
    && (forall i :: 0 <= i < |at| ==> at[i] < |tasks| && Runnable(tasks[at[i]], v))
    && (forall i, j :: 0 <= i < j < |at| ==> at[i] < |tasks| && at[j] < |tasks| && !Clash(tasks[at[i]], tasks[at[j]]))
  }

  predicate FitsAfter(tasks: seq<Task>, v: Validation, at: seq<nat>, n: nat)
    requires n < |tasks|
  {
    Runnable(tasks[n], v) && forall k :: k in at ==> k < |tasks| && !Clash(tasks[k], tasks[n])
  }

  /** The selection after the first `n` tasks were considered. */
  function Greedy(tasks: seq<Task>, v: Validation, lanes: nat, n: nat): (at: seq<nat>)
    requires n <= |tasks|
    ensures |at| <= lanes && forall k :: k in at ==> k < n
  {
    if n == 0 then []
    else
      var before := Greedy(tasks, v, lanes, n - 1);
      if |before| < lanes && FitsAfter(tasks, v, before, n - 1) then before + [n - 1] else before
  }

  lemma {:induction false} GreedyIsCompatible(tasks: seq<Task>, v: Validation, lanes: nat, n: nat)
    requires n <= |tasks|
    ensures Compatible(tasks, v, Greedy(tasks, v, lanes, n))
  {
    if n > 0 {
      GreedyIsCompatible(tasks, v, lanes, n - 1);
      var before := Greedy(tasks, v, lanes, n - 1);
      assert forall i :: 0 <= i < |before| ==> before[i] in before;
    }
  }

  /** Later tasks only append to the selection. */
  lemma {:induction false} GreedyAppends(tasks: seq<Task>, v: Validation, lanes: nat, n: nat, m: nat)
    requires n <= m <= |tasks|
    ensures Greedy(tasks, v, lanes, n) <= Greedy(tasks, v, lanes, m)
    ensures forall i :: |Greedy(tasks, v, lanes, n)| <= i < |Greedy(tasks, v, lanes, m)| ==>
      Greedy(tasks, v, lanes, m)[i] >= n
  {
    hide FitsAfter;
    if n < m {
      GreedyAppends(tasks, v, lanes, n, m - 1);
    }
  }

  /** Where another compatible selection agrees with the greedy one so far, the greedy one goes on at
      least as early. */
  lemma GreedyIsNoLater(tasks: seq<Task>, v: Validation, lanes: nat, other: seq<nat>, k: nat)
    requires Compatible(tasks, v, other) && |other| <= lanes && k < |other|
    requires other[..k] <= Greedy(tasks, v, lanes, |tasks|)
    ensures k < |Greedy(tasks, v, lanes, |tasks|)| && Greedy(tasks, v, lanes, |tasks|)[k] <= other[k]
  {
    var g := Greedy(tasks, v, lanes, |tasks|);
    var j := other[k];
    var before := Greedy(tasks, v, lanes, j);
    GreedyAppends(tasks, v, lanes, j, |tasks|);
    if |before| > k {
      assert before[k] == g[k] && before[k] in before;
    } else {
      if k > 0 {
        assert g[k - 1] == other[..k][k - 1];
      }
      assert before == other[..k];
      forall i | i in before ensures i < |tasks| && !Clash(tasks[i], tasks[j]) {
        var p :| 0 <= p < k && other[p] == i;
      }
      GreedyAppends(tasks, v, lanes, j + 1, |tasks|);
      assert Greedy(tasks, v, lanes, j + 1) == before + [j];
    }
  }

  /** `g` comes first: the two agree up to `k`, and there `other` ends or goes on later. */
  ghost predicate FirstAt(g: seq<nat>, other: seq<nat>, k: nat) {
    k <= |other| && other[..k] <= g && (k == |other| || (k < |g| && g[k] < other[k]))
  }

  lemma {:induction false} FirstDifference(tasks: seq<Task>, v: Validation, lanes: nat, other: seq<nat>, k: nat)
    requires Compatible(tasks, v, other) && |other| <= lanes && k <= |other|
    requires other[..k] <= Greedy(tasks, v, lanes, |tasks|)
    ensures exists d :: FirstAt(Greedy(tasks, v, lanes, |tasks|), other, d)
    decreases |other| - k
  {
    var g := Greedy(tasks, v, lanes, |tasks|);
    if k == |other| {
      assert FirstAt(g, other, k);
    } else {
      GreedyIsNoLater(tasks, v, lanes, other, k);
      if g[k] < other[k] {
        assert FirstAt(g, other, k);
      } else {
        assert other[..k + 1] == other[..k] + [g[k]];
        FirstDifference(tasks, v, lanes, other, k + 1);
      }
    }
  }

  /** Among all compatible selections of at most `lanes` tasks, the greedy one is lexicographically first:
      any other ends early or first differs by taking a later task. */
  lemma GreedyIsFirst(tasks: seq<Task>, v: Validation, lanes: nat, other: seq<nat>)
    requires Compatible(tasks, v, other) && |other| <= lanes
    ensures Compatible(tasks, v, Greedy(tasks, v, lanes, |tasks|))
    ensures exists d :: FirstAt(Greedy(tasks, v, lanes, |tasks|), other, d)
  {
    GreedyIsCompatible(tasks, v, lanes, |tasks|);
    FirstDifference(tasks, v, lanes, other, 0);
  }

  /** More lanes never change what was selected, they only add to it. */
  lemma {:induction false} MoreLanesExtend(tasks: seq<Task>, v: Validation, lanes: nat, more: nat, n: nat)
    requires lanes <= more && n <= |tasks|
    ensures Greedy(tasks, v, lanes, n) <= Greedy(tasks, v, more, n)
    ensures |Greedy(tasks, v, lanes, n)| < lanes ==> Greedy(tasks, v, lanes, n) == Greedy(tasks, v, more, n)
  {
    hide FitsAfter;
    if n > 0 {
      MoreLanesExtend(tasks, v, lanes, more, n - 1);
    }
  }

  // ---------- evaluate ----------

  predicate DistinctIds(tasks: seq<Task>) {
    forall i, j :: 0 <= i < j < |tasks| ==> tasks[i].id != tasks[j].id
  }

  function Names(tasks: seq<Task>, at: seq<nat>): seq<string>
    requires forall k :: k in at ==> k < |tasks|
  {
    seq(|at|, i requires 0 <= i < |at| => assert at[i] in at; tasks[at[i]].id)
  }

  function CountsAgree(v: Validation): bool {
    v.activeRuns + v.terminalRuns <= v.exactHeadRuns
  }

  function Advance(v: Validation, selected: seq<string>): WorkPlan {
    if selected != [] then WorkPlan(if |selected| > 1 then ParallelAdvance else BurstAdvance, selected)
    else if v.activeRuns > 0 then WorkPlan(WaitExternal, [])
    else WorkPlan(Idle, [])
  }

  function Evaluated(s: Snapshot): Result<WorkPlan> {
    var v := s.validation;
    if !s.authority.desiredActive then Ok(WorkPlan(Paused, []))
    else if !s.authority.durableActive || !s.authority.synchronized then Ok(WorkPlan(SyncAuthority, []))
    else if !CountsAgree(v) then Err("active/terminal run counts exceed exact_head_runs")
    else if v.required && v.launchExpected && v.exactHeadRuns == 0 then Ok(WorkPlan(MissingValidationRoute, []))
    else if !(1 <= s.maxLanes <= 4) then Err("max_lanes must be between 1 and 4")
    else if !DistinctIds(s.tasks) then Err("duplicate task id")
    else if v.activeRuns > 0 && v.lockScope == GlobalLock then Ok(WorkPlan(WaitExternal, []))
    else Ok(Advance(v, Names(s.tasks, Greedy(s.tasks, v, s.maxLanes, |s.tasks|))))
  }

  function MutatedResources(tasks: seq<Task>, at: seq<nat>): set<string>
    requires forall k :: k in at ==> k < |tasks|
  {
    set k, r | k in at && tasks[k].needsMutation && r in tasks[k].resources :: r
  }

  method Evaluate(s: Snapshot) returns (r: Result<WorkPlan>)
    ensures r == Evaluated(s)
  {
    var v := s.validation;
    if !s.authority.desiredActive {
      return Ok(WorkPlan(Paused, []));
    }
    if !s.authority.durableActive || !s.authority.synchronized {
      return Ok(WorkPlan(SyncAuthority, []));
    }
    if !CountsAgree(v) {
      return Err("active/terminal run counts exceed exact_head_runs");
    }
    if v.required && v.launchExpected && v.exactHeadRuns == 0 {
      return Ok(WorkPlan(MissingValidationRoute, []));
    }
    if !(1 <= s.maxLanes <= 4) {
      return Err("max_lanes must be between 1 and 4");
    }
    if !DistinctIds(s.tasks) {
      return Err("duplicate task id");
    }
    if v.activeRuns > 0 && v.lockScope == GlobalLock {
      return Ok(WorkPlan(WaitExternal, []));
    }
    var selected := SelectLanes(s.tasks, v, s.maxLanes);
    return Ok(Advance(v, selected));
  }

  method SelectLanes(tasks: seq<Task>, v: Validation, lanes: nat) returns (selected: seq<string>)
    requires lanes >= 1
    ensures selected == Names(tasks, Greedy(tasks, v, lanes, |tasks|))
  {
    selected := [];
    var mutated: set<string> := {};
    var n := 0;
    while n < |tasks|
      invariant n <= |tasks| && |selected| < lanes
      invariant selected == Names(tasks, Greedy(tasks, v, lanes, n))
      invariant mutated == MutatedResources(tasks, Greedy(tasks, v, lanes, n))
    {
      var t := tasks[n];
      ghost var before := Greedy(tasks, v, lanes, n);
      FitsByResources(tasks, v, before, n);
      n := n + 1;
      if !t.ready {
        continue;
      }
      if t.needsMutation && v.activeRuns > 0 && v.lockScope == ScopedLock && !(t.resources !! v.lockedResources) {
        continue;
      }
      if t.needsMutation && !(t.resources !! mutated) {
        continue;
      }
      selected := selected + [t.id];
      if t.needsMutation {
        mutated := mutated + t.resources;
      }
      if |selected| >= lanes {
        FullStays(tasks, v, lanes, n);
        break;
      }
    }
  }

  lemma FitsByResources(tasks: seq<Task>, v: Validation, at: seq<nat>, n: nat)
    requires n < |tasks| && forall k :: k in at ==> k < n
    ensures FitsAfter(tasks, v, at, n)
            <==> Runnable(tasks[n], v) && (tasks[n].needsMutation ==> tasks[n].resources !! MutatedResources(tasks, at))
    ensures MutatedResources(tasks, at + [n])
            == MutatedResources(tasks, at) + if tasks[n].needsMutation then tasks[n].resources else {}
    ensures Names(tasks, at + [n]) == Names(tasks, at) + [tasks[n].id]
  {
    var mutated := MutatedResources(tasks, at);
    forall r | r in tasks[n].resources && tasks[n].needsMutation ensures r in MutatedResources(tasks, at + [n]) {
      assert n in at + [n];
    }
    forall k | k in at && tasks[k].needsMutation ensures tasks[k].resources <= mutated {
      forall r | r in tasks[k].resources ensures r in mutated {
      }
    }
    if tasks[n].needsMutation && FitsAfter(tasks, v, at, n) {
      forall r | r in mutated ensures r !in tasks[n].resources {
        var k :| k in at && tasks[k].needsMutation && r in tasks[k].resources;
        assert !Clash(tasks[k], tasks[n]);
      }
    }
    if Runnable(tasks[n], v) && (tasks[n].needsMutation ==> tasks[n].resources !! mutated) {
      forall k | k in at ensures k < |tasks| && !Clash(tasks[k], tasks[n]) {
        assert tasks[k].needsMutation ==> tasks[k].resources <= mutated;
      }
    }
    assert MutatedResources(tasks, at + [n]) <= mutated + if tasks[n].needsMutation then tasks[n].resources else {};
    forall k, r | k in at && tasks[k].needsMutation && r in tasks[k].resources ensures r in MutatedResources(tasks, at + [n]) {
      assert k in at + [n];
    }
  }

  lemma {:induction false} FullStays(tasks: seq<Task>, v: Validation, lanes: nat, n: nat)
    requires n <= |tasks| && |Greedy(tasks, v, lanes, n)| >= lanes
    ensures Greedy(tasks, v, lanes, |tasks|) == Greedy(tasks, v, lanes, n)
    decreases |tasks| - n
  {
    if n < |tasks| {
      FullStays(tasks, v, lanes, n + 1);
    }
  }

  // ---------- the same, said on the tasks ----------

  /** A selection is compatible exactly when its tasks are ready and in order, no mutating one touches a resource
      under an active scoped lock, and no two mutating ones share a resource. */
  lemma CompatibleExactly(tasks: seq<Task>, v: Validation, at: seq<nat>)
    requires forall i :: 0 <= i < |at| ==> at[i] < |tasks|
    ensures Compatible(tasks, v, at) <==>
      && (forall i, j :: 0 <= i < j < |at| ==> at[i] < at[j])
      && (forall i :: 0 <= i < |at| ==> tasks[at[i]].ready)
      && (forall i, r :: 0 <= i < |at| && tasks[at[i]].needsMutation && r in tasks[at[i]].resources ==>
            !(v.activeRuns > 0 && v.lockScope == ScopedLock && r in v.lockedResources))
      && (forall i, j :: 0 <= i < j < |at| && tasks[at[i]].needsMutation && tasks[at[j]].needsMutation ==>
            forall r :: r in tasks[at[i]].resources ==> r !in tasks[at[j]].resources)
  {
    if Compatible(tasks, v, at) {
      forall i, j, r | 0 <= i < j < |at| && tasks[at[i]].needsMutation && tasks[at[j]].needsMutation
          && r in tasks[at[i]].resources
        ensures r !in tasks[at[j]].resources
      {
        assert !Clash(tasks[at[i]], tasks[at[j]]);
      }
    }
  }

  /** Work is planned exactly when the authority is active and in step, the counts agree, validation is not
      missing, the lanes and task names are lawful, no global lock is held, and some task fits; more than one
      task advances in parallel.  Without a task the plan waits exactly while a validation runs. */
  lemma WorkIsPlannedExactly(s: Snapshot)
    ensures var r := Evaluated(s); var v := s.validation;
      var active := s.authority.desiredActive && s.authority.durableActive && s.authority.synchronized;
      var missing := v.required && v.launchExpected && v.exactHeadRuns == 0;
      var at := Greedy(s.tasks, v, s.maxLanes, |s.tasks|);
      && (r.Err? <==> active && (v.activeRuns + v.terminalRuns > v.exactHeadRuns
                                 || (!missing && (s.maxLanes < 1 || s.maxLanes > 4 || !DistinctIds(s.tasks)))))
      && (r.Ok? ==>
            && (r.value.status == Paused <==> !s.authority.desiredActive)
            && (r.value.status == SyncAuthority <==>
                  s.authority.desiredActive && !(s.authority.durableActive && s.authority.synchronized))
            && (r.value.status == MissingValidationRoute <==> active && missing)
            && (r.value.selectedTasks != [] <==>
                  active && !missing && !(v.activeRuns > 0 && v.lockScope == GlobalLock) && at != [])
            && (r.value.selectedTasks != [] ==>
                  r.value.selectedTasks == Names(s.tasks, at)
                  && r.value.status == if |at| > 1 then ParallelAdvance else BurstAdvance)
            && (active && !missing && r.value.selectedTasks == [] ==>
                  r.value.status == if v.activeRuns > 0 then WaitExternal else Idle))
  {
    hide Greedy, DistinctIds;
  }
}
