/** Whatever crashes, an intent is run at most once, and no run is ever bound to two intents. */
module CrashSafety {
  import opened Prelude
  import opened Records
  import opened Diagnosis
  import opened DurableState
  import opened Ingestion
  import opened Selector
  import opened Protocol
  import opened Preservation
  import opened ControllerTheorems
  import opened AtMostOnce
  import opened Gateway

  /** A receipt an executor wants to save, on the state it loaded. */
  datatype ReceiptWrite = ReceiptWrite(base: State, surface: Surface, actionId: ActionId, receipt: Receipt)

  /** The ledger, GitHub's runs, the issued commands in order, and the receipts not yet saved. */
  datatype World = World(state: State, runs: seq<WorkflowRun>, commands: seq<Command>, writes: seq<ReceiptWrite>)

  datatype WorldStep =
    | Control(step: Step)
    | PrepareAndIssue(ref: string, requestedAt: string, headSha: string)
    | IssueInFlight
    | Execute(sighting: Sighting, launch: Launch, redeliver: bool)
    | LoseCommand(command: nat)
    | SaveReceipt(write: nat)

  predicate IsStart(w: World) {
    IsFresh(w.state) && w.runs == [] && w.commands == [] && w.writes == []
  }

  /** `_command_for_in_flight` */
  ghost function CommandForInFlight(s: State): Option<Command> {
    match Selected(s)
    case Ok(Some(InFlightIntent(surface, id))) =>
      Some(Command(ReconcileCommand, surface, id, s.researchId, s.revision))
    case Ok(Some(InFlightObservation(surface, id))) =>
      Some(Command(ObserveCommand, surface, id, s.researchId, s.revision))
    case _ => None
  }

  /** GitHub answers truthfully about the runs of one intent.  On the evidence surface even a false
      NO_MATCH does no harm. */
  predicate Truthful(runs: seq<WorkflowRun>, run: WorkflowRun, sighting: Sighting) {
    && (sighting.status == NoMatch && run.surface != EvidenceSurface ==> run !in runs)
    && (sighting.status == MatchedActive || sighting.status == MatchedTerminal ==>
          forall id :: id in sighting.matched ==> 1 <= id <= |runs| && runs[id - 1] == run)
  }

  predicate TruthfulTo(w: World, command: Command, sighting: Sighting) {
    var intent := ResumeIntentOn(w.state, command.surface, command.actionId);
    intent.Ok? ==> Truthful(w.runs, WorkflowRun(command.surface, command.actionId, intent.value), sighting)
  }

  /** The head command runs; only a command that is not a DISPATCH can be delivered again. */
  function Executes(w: World, sighting: Sighting, launch: Launch, redeliver: bool): World {
    if w.commands == [] || !TruthfulTo(w, w.commands[0], sighting) then w
    else
      var command := w.commands[0];
      var o := Executed(w.runs, w.state, command, sighting, launch);
      w.(runs := o.runs,
         commands := if redeliver && command.kind != DispatchCommand then w.commands else w.commands[1..],
         writes := if o.reply.Ok? && o.reply.value.ReceiptReply?
                   then w.writes + [ReceiptWrite(w.state, command.surface, command.actionId, o.reply.value.receipt)]
                   else w.writes)
  }

  /** A saved receipt lands only on the very state it was computed from. */
  ghost function Trace(w: World, step: WorldStep): seq<Step> {
    match step
    case Control(step) => if step.PrepareStep? || step.ReceiptStep? then [] else [step]
    case PrepareAndIssue(ref, at, head) => [PrepareStep(ref, at, head)]
    case SaveReceipt(k) =>
      if k < |w.writes| && w.writes[k].base == w.state
      then [ReceiptStep(w.writes[k].surface, w.writes[k].actionId, w.writes[k].receipt)]
      else []
    case _ => []
  }

  ghost function WorldNext(w: World, step: WorldStep): World {
    var moved := w.(state := Run(w.state, Trace(w, step)));
    match step
    case PrepareAndIssue(ref, at, head) =>
      if Prepare(w.state, ref, at, head).Err? then w
      else
        var (surface, id) := ToStart(w.state).value;
        moved.(commands := w.commands + [
          Command(DispatchCommand, surface, id, moved.state.researchId, moved.state.revision)])
    case IssueInFlight =>
      if CommandForInFlight(w.state).Some? then w.(commands := w.commands + [CommandForInFlight(w.state).value]) else w
    case Execute(sighting, launch, redeliver) => Executes(w, sighting, launch, redeliver)
    case LoseCommand(k) => if k < |w.commands| then w.(commands := w.commands[..k] + w.commands[k + 1..]) else w
    case _ => moved
  }

  ghost function WorldRun(w: World, steps: seq<WorldStep>): World
    decreases |steps|
  {
    if steps == [] then w else WorldRun(WorldNext(w, steps[0]), steps[1..])
  }

  /** The controller steps a run of the world makes. */
  ghost function WorldTrace(w: World, steps: seq<WorldStep>): seq<Step>
    decreases |steps|
  {
    if steps == [] then [] else Trace(w, steps[0]) + WorldTrace(WorldNext(w, steps[0]), steps[1..])
  }

  // ---------- intents that wait for a run ----------

  /** The state holds this intent and no receipt for it. */
  predicate Awaits(s: State, run: WorkflowRun) {
    match run.surface
    case ActionSurface =>
      run.actionId in s.queue && s.queue[run.actionId].status == IntentSaved
      && s.queue[run.actionId].dispatchIntent == Some(run.intent)
    case EvidenceSurface =>
      run.actionId in s.recoveries && FliesEvidence(s.recoveries[run.actionId])
      && Unbound(s.recoveries[run.actionId].evidenceDispatch.value, run.intent)
    case DiagnosticSurface =>
      run.actionId in s.recoveries && FliesDiagnostic(s.recoveries[run.actionId])
      && Unbound(s.recoveries[run.actionId].diagnosticDispatch.value, run.intent)
    case CorrectiveSurface =>
      run.actionId in s.recoveries && FliesCorrective(s.recoveries[run.actionId])
      && Unbound(s.recoveries[run.actionId].correctiveDispatch.value, run.intent)
  }

  predicate Unbound(d: Dispatch, intent: DispatchIntent) {
    d.status == IntentSaved && d.intent == intent
  }

  lemma AwaitsFlies(s: State, run: WorkflowRun)
    requires Awaits(s, run)
    ensures Flies(s, Flight(run.surface, run.actionId))
  {
  }

  lemma ResumedAwaits(s: State, surface: Surface, id: ActionId)
    requires ResumeIntentOn(s, surface, id).Ok?
    ensures Awaits(s, WorkflowRun(surface, id, ResumeIntentOn(s, surface, id).value))
  {
    hide EvidenceIdentity, DiagnosticIdentity, CorrectiveIdentity;
  }

  /** An intent that waits after a step waited before, or is newer than the state was. */
  ghost predicate NoOldAwaits(s: State, t: State) {
    forall run :: Awaits(t, run) ==> Awaits(s, run) || s.revision < run.intent.stateRevision <= t.revision
  }

  lemma FramedAwaits(s: State, t: State, id: ActionId, run: WorkflowRun)
    requires Framed(s, t, id) && run.actionId != id && Awaits(t, run)
    ensures Awaits(s, run)
  {
  }

  lemma LandedAwaits(s: State, t: State, id: ActionId, surface: Surface, ran: int)
    requires Landed(s, t, id, surface, ran)
    ensures NoOldAwaits(s, t)
  {
    hide Framed, Awaits, Flies;
    forall run | Awaits(t, run) ensures Awaits(s, run) {
      AwaitsFlies(t, run);
      if run.actionId != id {
        FramedAwaits(s, t, id, run);
      }
    }
  }

  lemma ActionIntentAwaits(s: State, id: ActionId, req: DispatchRequest)
    requires RecordActionDispatchIntent(s, id, req).Ok?
    ensures NoOldAwaits(s, RecordActionDispatchIntent(s, id, req).value)
  {
    hide PlanParses, SameRequest, IsSha40;
  }

  lemma SaveIntentIsFresh(s: State, id: ActionId, existing: Option<Dispatch>, c: Correlation, req: DispatchRequest)
    requires SaveIntent(s, id, existing, c, req).Ok?
    ensures var d := SaveIntent(s, id, existing, c, req).value;
      if existing.Some? then existing == Some(d) else d.intent.stateRevision == s.revision + 1
  {
  }

  lemma EvidenceIntentAwaits(s: State, id: ActionId, req: DispatchRequest)
    requires RecordEvidenceDispatchIntent(s, id, req).Ok?
    ensures NoOldAwaits(s, RecordEvidenceDispatchIntent(s, id, req).value)
  {
    hide SaveIntent;
    SaveIntentIsFresh(s, id, s.recoveries[id].evidenceDispatch, EvidenceIdentity(s, id).value, req);
  }

  lemma DiagnosticIntentAwaits(s: State, id: ActionId, req: DispatchRequest)
    requires RecordDiagnosticDispatchIntent(s, id, req).Ok?
    ensures NoOldAwaits(s, RecordDiagnosticDispatchIntent(s, id, req).value)
  {
    hide SaveIntent;
    SaveIntentIsFresh(s, id, s.recoveries[id].diagnosticDispatch, DiagnosticIdentity(s, id).value, req);
  }

  lemma CorrectiveIntentAwaits(s: State, id: ActionId, req: DispatchRequest)
    requires RecordCorrectiveDispatchIntent(s, id, req).Ok?
    ensures NoOldAwaits(s, RecordCorrectiveDispatchIntent(s, id, req).value)
  {
    hide SaveIntent, CorrectiveIdentity;
    SaveIntentIsFresh(s, id, s.recoveries[id].correctiveDispatch, CorrectiveIdentity(s, id).value, req);
  }

  lemma PrepareAwaits(s: State, ref: string, at: string, head: string)
    requires Prepare(s, ref, at, head).Ok?
    ensures NoOldAwaits(s, Prepare(s, ref, at, head).value)
  {
    hide ToStart, NoOldAwaits, RecordActionDispatchIntent, RecordEvidenceDispatchIntent;
    hide RecordDiagnosticDispatchIntent, RecordCorrectiveDispatchIntent;
    var (surface, id) := ToStart(s).value;
    var executor := if surface == ActionSurface then s.queue[id].plan.executor else GithubNative;
    var req := DispatchRequest(WorkflowFor(surface, executor).value, ref, at, head);
    match surface
    case ActionSurface => ActionIntentAwaits(s, id, req);
    case EvidenceSurface => EvidenceIntentAwaits(s, id, req);
    case DiagnosticSurface => DiagnosticIntentAwaits(s, id, req);
    case CorrectiveSurface => CorrectiveIntentAwaits(s, id, req);
  }

  /** A bound receipt ends the wait of its intent and starts no other. */
  lemma ReceiptAwaits(s: State, surface: Surface, id: ActionId, receipt: Receipt)
    requires ApplyDispatchReceipt(s, surface, id, receipt).Ok?
    ensures EndsWait(s, ApplyDispatchReceipt(s, surface, id, receipt).value, surface, id)
  {
    hide RecordActionDispatch, RecordEvidenceDispatch, RecordDiagnosticDispatch, RecordCorrectiveDispatch;
    hide NoOldAwaits, Awaits;
    match surface
    case ActionSurface => ActionReceiptAwaits(s, id, receipt);
    case EvidenceSurface => EvidenceReceiptAwaits(s, id, receipt);
    case DiagnosticSurface => DiagnosticReceiptAwaits(s, id, receipt);
    case CorrectiveSurface => CorrectiveReceiptAwaits(s, id, receipt);
  }

  ghost predicate EndsWait(s: State, t: State, surface: Surface, id: ActionId) {
    NoOldAwaits(s, t) && forall intent :: !Awaits(t, WorkflowRun(surface, id, intent))
  }

  lemma ActionReceiptAwaits(s: State, id: ActionId, receipt: Receipt)
    requires RecordActionDispatch(s, id, receipt).Ok?
    ensures EndsWait(s, RecordActionDispatch(s, id, receipt).value, ActionSurface, id)
  {
    hide ReceiptMatches;
  }

  lemma EvidenceReceiptAwaits(s: State, id: ActionId, receipt: Receipt)
    requires RecordEvidenceDispatch(s, id, receipt).Ok?
    ensures EndsWait(s, RecordEvidenceDispatch(s, id, receipt).value, EvidenceSurface, id)
  {
    hide EvidenceIdentity, BindReceipt;
    BoundIsDispatched(s.recoveries[id].evidenceDispatch, EvidenceIdentity(s, id), receipt);
  }

  lemma DiagnosticReceiptAwaits(s: State, id: ActionId, receipt: Receipt)
    requires RecordDiagnosticDispatch(s, id, receipt).Ok?
    ensures EndsWait(s, RecordDiagnosticDispatch(s, id, receipt).value, DiagnosticSurface, id)
  {
    hide DiagnosticIdentity, BindReceipt;
    BoundIsDispatched(s.recoveries[id].diagnosticDispatch, DiagnosticIdentity(s, id), receipt);
  }

  lemma CorrectiveReceiptAwaits(s: State, id: ActionId, receipt: Receipt)
    requires RecordCorrectiveDispatch(s, id, receipt).Ok?
    ensures EndsWait(s, RecordCorrectiveDispatch(s, id, receipt).value, CorrectiveSurface, id)
  {
    hide CorrectiveIdentity, BindReceipt;
    BoundIsDispatched(s.recoveries[id].correctiveDispatch, CorrectiveIdentity(s, id), receipt);
  }

  lemma BoundIsDispatched(existing: Option<Dispatch>, identity: Result<Correlation>, receipt: Receipt)
    ensures var d := BindReceipt(existing, identity, receipt); d.Ok? ==> d.value.status == ActionLifecycle.Dispatched
  {
  }

  lemma StepAwaits(s: State, step: Step)
    requires Inv(s)
    ensures NoOldAwaits(s, Next(s, step))
  {
    hide Inv, NoOldAwaits, Prepare, ApplyDispatchReceipt, Ingest, Enqueue, RetireStaleIntent;
    if Perform(s, step).Ok? && Next(s, step) != s {
      match step
      case PrepareStep(ref, at, head) => PrepareAwaits(s, ref, at, head);
      case ReceiptStep(surface, id, receipt) => ReceiptAwaits(s, surface, id, receipt);
      case IngestStep(surface, runId, artifact, gateway) =>
        IngestLands(s, surface, runId, artifact, gateway);
        LandedAwaits(s, Next(s, step), gateway.actionId, surface, ReportedRun(artifact, gateway, runId));
      case _ => QuietStepAwaits(s, step);
    } else {
      NothingAwaits(s);
    }
  }

  lemma NothingAwaits(s: State)
    ensures NoOldAwaits(s, s)
  {
  }

  lemma QuietStepAwaits(s: State, step: Step)
    requires step.EnqueueStep? || step.StaleIntentStep? || step.RetireStep? || step.PredispatchStep?
    ensures NoOldAwaits(s, Next(s, step))
  {
    hide Selected;
  }

  // ---------- the invariant of the world ----------

  /** An undelivered DISPATCH for the current revision comes before every other command of that
      revision, and its intent has no run yet. */
  ghost predicate DispatchesPending(w: World) {
    forall k: nat, run: WorkflowRun ::
      (k < |w.commands| && w.commands[k].kind == DispatchCommand && w.commands[k].stateRevision == w.state.revision
       && Awaits(w.state, run)) ==>
        run !in w.runs && forall j :: 0 <= j < k ==> w.commands[j].stateRevision < w.state.revision
  }

  ghost predicate WriteOk(w: World, write: ReceiptWrite) {
    && write.base.revision <= w.state.revision
    && write.receipt.workflowRunId.Some?
    && var id := write.receipt.workflowRunId.value;
       1 <= id <= |w.runs| && w.runs[id - 1].surface == write.surface && w.runs[id - 1].actionId == write.actionId
       && Awaits(write.base, w.runs[id - 1])
  }

  ghost predicate WorldInv(w: World) {
    && Inv(w.state)
    && (forall i, j :: 0 <= i < j < |w.runs| ==> w.runs[i] != w.runs[j])
    && (forall run :: run in w.runs || Awaits(w.state, run) ==> run.intent.stateRevision <= w.state.revision)
    && (forall c :: c in w.commands ==> c.stateRevision <= w.state.revision)
    && (forall write :: write in w.writes ==> WriteOk(w, write))
    && DispatchesPending(w)
  }

  /** A controller write makes every issued command stale, or changes nothing. */
  lemma TracedKeeps(w: World, step: WorldStep)
    requires WorldInv(w)
    ensures Inv(Run(w.state, Trace(w, step)))
    ensures NoOldAwaits(w.state, Run(w.state, Trace(w, step)))
    ensures var t := Run(w.state, Trace(w, step)); t == w.state || t.revision > w.state.revision
  {
    hide Inv, Next, NoOldAwaits, Awaits;
    var trace := Trace(w, step);
    if trace == [] {
      NothingAwaits(w.state);
    } else {
      assert trace[1..] == [];
      assert Run(w.state, trace) == Next(w.state, trace[0]) by {
        RunOne(w.state, trace);
      }
      StepKeeps(w.state, trace[0]);
      StepAwaits(w.state, trace[0]);
      StepAdvances(w.state, trace[0]);
    }
  }

  lemma RunOne(s: State, trace: seq<Step>)
    requires |trace| == 1
    ensures Run(s, trace) == Next(s, trace[0])
  {
  }

  /** Only the state moved. */
  lemma MovedKeeps(w: World, t: State)
    requires WorldInv(w) && Inv(t) && NoOldAwaits(w.state, t) && (t == w.state || t.revision > w.state.revision)
    ensures WorldInv(w.(state := t))
  {
    hide Inv, Awaits;
  }

  lemma IssueKeeps(w: World, command: Command)
    requires WorldInv(w) && command.stateRevision <= w.state.revision
    requires command.kind == DispatchCommand ==>
      && (forall run :: Awaits(w.state, run) ==> run !in w.runs)
      && (forall run, j :: Awaits(w.state, run) && 0 <= j < |w.commands| ==>
            w.commands[j].stateRevision < w.state.revision)
    ensures WorldInv(w.(commands := w.commands + [command]))
  {
    hide Inv, Awaits;
  }

  lemma PrepareIssueKeeps(w: World, step: WorldStep)
    requires WorldInv(w) && step.PrepareAndIssue? && Prepare(w.state, step.ref, step.requestedAt, step.headSha).Ok?
    ensures WorldInv(WorldNext(w, step))
  {
    hide Inv, Awaits, Run, Idle, Prepare, ToStart;
    var t := Run(w.state, Trace(w, step));
    TracedKeeps(w, step);
    MovedKeeps(w, t);
    PrepareIsIdle(w.state, step.ref, step.requestedAt, step.headSha);
    var (surface, id) := ToStart(w.state).value;
    IssueKeeps(w.(state := t), Command(DispatchCommand, surface, id, t.researchId, t.revision));
  }

  lemma PrepareIsIdle(s: State, ref: string, at: string, head: string)
    requires Prepare(s, ref, at, head).Ok?
    ensures ToStart(s).Some?
    ensures forall run :: !Awaits(s, run)
  {
    hide ToStart, Awaits, RecordIntent;
    StartIsIdle(s);
    forall run ensures !Awaits(s, run) {
      if Awaits(s, run) {
        AwaitsFlies(s, run);
      }
    }
  }

  lemma DropKeeps(w: World, k: nat)
    requires WorldInv(w) && k < |w.commands|
    ensures WorldInv(w.(commands := w.commands[..k] + w.commands[k + 1..]))
  {
    hide Inv, Awaits;
    var v := w.(commands := w.commands[..k] + w.commands[k + 1..]);
    forall n: nat, run: WorkflowRun | n < |v.commands| && v.commands[n].kind == DispatchCommand
        && v.commands[n].stateRevision == v.state.revision && Awaits(v.state, run)
      ensures run !in v.runs && forall j :: 0 <= j < n ==> v.commands[j].stateRevision < v.state.revision
    {
      var m := if n < k then n else n + 1;
      assert v.commands[n] == w.commands[m];
      forall j | 0 <= j < n ensures v.commands[j].stateRevision < v.state.revision {
        assert v.commands[j] == w.commands[if j < k then j else j + 1];
      }
    }
  }

  /** What running the head command can do to the runs. */
  lemma ExecutedStarts(w: World, sighting: Sighting, launch: Launch)
    requires WorldInv(w) && w.commands != [] && TruthfulTo(w, w.commands[0], sighting)
    ensures var o := Executed(w.runs, w.state, w.commands[0], sighting, launch); var c := w.commands[0];
      && (o.runs == w.runs
          || exists run :: o.runs == w.runs + [run] && run !in w.runs && Awaits(w.state, run)
               && c.stateRevision == w.state.revision)
      && (o.reply.Ok? && o.reply.value.ReceiptReply? ==>
            var receipt := o.reply.value.receipt;
            receipt.workflowRunId.Some? && 1 <= receipt.workflowRunId.value <= |o.runs|
            && var run := o.runs[receipt.workflowRunId.value - 1];
               run.surface == c.surface && run.actionId == c.actionId && Awaits(w.state, run))
  {
    hide Inv, Awaits, CorrelationOn, ResumeIntentOn, Observes, ExecutorSupported;
    var c := w.commands[0];
    var o := Executed(w.runs, w.state, c, sighting, launch);
    ObservingReturnsNoReceipt(w.state, c.surface, c.actionId, sighting);
    if c.kind != ObserveCommand && ValidateCommand(c, w.state).Pass? && ResumeIntentOn(w.state, c.surface, c.actionId).Ok? {
      ResumedAwaits(w.state, c.surface, c.actionId);
      var run := WorkflowRun(c.surface, c.actionId, ResumeIntentOn(w.state, c.surface, c.actionId).value);
      assert Truthful(w.runs, run, sighting);
      assert Awaits(w.state, run);
      assert c.kind == DispatchCommand ==> run !in w.runs;
      assert o.runs == w.runs || o.runs == w.runs + [run];
      if o.reply.Ok? && o.reply.value.ReceiptReply? {
        assert o.reply.value.receipt.workflowRunId.Some?;
        if o.runs == w.runs {
          assert sighting.matched[0] in sighting.matched;
        }
        assert o.runs[o.reply.value.receipt.workflowRunId.value - 1] == run;
      }
    }
  }

  lemma ObservingReturnsNoReceipt(s: State, surface: Surface, id: ActionId, sighting: Sighting)
    ensures var o := Observes(s, surface, id, sighting); o.Ok? ==> !o.value.ReceiptReply?
  {
    hide ResumeReceiptOn;
  }

  /** A run was started by a command of the current revision for a waiting intent. */
  lemma StartedKeeps(w: World, run: WorkflowRun)
    requires WorldInv(w) && w.commands != [] && w.commands[0].stateRevision == w.state.revision
    requires run !in w.runs && Awaits(w.state, run)
    ensures WorldInv(w.(runs := w.runs + [run], commands := w.commands[1..]))
    ensures w.commands[0].kind != DispatchCommand ==> WorldInv(w.(runs := w.runs + [run]))
  {
    hide Inv, Awaits;
    forall k: nat | 0 < k < |w.commands| && w.commands[k].kind == DispatchCommand
      ensures w.commands[k].stateRevision < w.state.revision
    {
      assert Awaits(w.state, run) && w.commands[0].stateRevision >= w.state.revision;
    }
  }

  lemma ExecutesKeeps(w: World, sighting: Sighting, launch: Launch, redeliver: bool)
    requires WorldInv(w)
    ensures WorldInv(Executes(w, sighting, launch, redeliver))
  {
    hide Inv, Awaits, Executed, TruthfulTo, DispatchesPending;
    if w.commands != [] && TruthfulTo(w, w.commands[0], sighting) {
      var command := w.commands[0];
      var o := Executed(w.runs, w.state, command, sighting, launch);
      var redelivered := redeliver && command.kind != DispatchCommand;
      ExecutedStarts(w, sighting, launch);
      var v := w.(runs := o.runs, commands := if redelivered then w.commands else w.commands[1..]);
      assert WorldInv(v) by {
        assert w.commands[..0] + w.commands[1..] == w.commands[1..];
        if o.runs == w.runs {
          DropKeeps(w, 0);
        } else {
          StartedKeeps(w, o.runs[|w.runs|]);
        }
      }
      if o.reply.Ok? && o.reply.value.ReceiptReply? {
        WriteKeeps(v, ReceiptWrite(w.state, command.surface, command.actionId, o.reply.value.receipt));
      }
    }
  }

  lemma WriteKeeps(w: World, write: ReceiptWrite)
    requires WorldInv(w) && WriteOk(w, write)
    ensures WorldInv(w.(writes := w.writes + [write]))
  {
    hide Inv, Awaits;
  }

  lemma WorldStepKeeps(w: World, step: WorldStep)
    requires WorldInv(w)
    ensures WorldInv(WorldNext(w, step))
  {
    hide WorldInv, Trace, Run, Prepare, Executes, NoOldAwaits, Inv;
    TracedKeeps(w, step);
    match step
    case PrepareAndIssue(ref, at, head) =>
      if Prepare(w.state, ref, at, head).Ok? {
        PrepareIssueKeeps(w, step);
      }
    case IssueInFlight =>
      if CommandForInFlight(w.state).Some? {
        IssueKeeps(w, CommandForInFlight(w.state).value);
      }
    case Execute(sighting, launch, redeliver) => ExecutesKeeps(w, sighting, launch, redeliver);
    case LoseCommand(k) =>
      if k < |w.commands| {
        DropKeeps(w, k);
      }
    case _ => MovedKeeps(w, Run(w.state, Trace(w, step)));
  }

  lemma {:induction false} WorldRunKeeps(w: World, steps: seq<WorldStep>)
    requires WorldInv(w)
    ensures WorldInv(WorldRun(w, steps))
    decreases |steps|
  {
    hide WorldInv, WorldNext;
    if steps != [] {
      WorldStepKeeps(w, steps[0]);
      WorldRunKeeps(WorldNext(w, steps[0]), steps[1..]);
    }
  }

  lemma StartInv(w: World)
    requires IsStart(w)
    ensures WorldInv(w)
  {
  }

  /** Commands may be lost or redelivered and receipts may never be saved: no intent ever gets two runs. */
  lemma OneRunPerIntent(start: World, steps: seq<WorldStep>, i: nat, j: nat)
    requires IsStart(start)
    requires i < j < |WorldRun(start, steps).runs|
    ensures WorldRun(start, steps).runs[i] != WorldRun(start, steps).runs[j]
  {
    hide Inv, WorldRun, IsStart, DispatchesPending, WriteOk;
    StartInv(start);
    WorldRunKeeps(start, steps);
  }

  /** Once a receipt is saved, every command issued before is refused and starts nothing. */
  lemma SavedReceiptRefusesOlderCommands(
    start: World, steps: seq<WorldStep>, k: nat, command: Command, sighting: Sighting, launch: Launch)
    requires IsStart(start)
    requires var w := WorldRun(start, steps);
      k < |w.writes| && command in w.commands && WorldNext(w, SaveReceipt(k)).state != w.state
    ensures var w := WorldRun(start, steps); var v := WorldNext(w, SaveReceipt(k));
      Executed(v.runs, v.state, command, sighting, launch).reply.Err?
      && Executed(v.runs, v.state, command, sighting, launch).runs == w.runs
  {
    hide Inv, WorldRun, IsStart, DispatchesPending, WriteOk, Trace, Run, NoOldAwaits, Dispatches, Reconciles, Observes;
    StartInv(start);
    WorldRunKeeps(start, steps);
    TracedKeeps(WorldRun(start, steps), SaveReceipt(k));
  }

  /** In every reachable state the command issued is for the one record in flight, at the current revision: a
      saved intent is reconciled, a dispatched run observed, and nothing is issued when nothing is in flight. */
  lemma CommandIsForTheFlight(s: State, f: Flight)
    requires Reachable(s)
    ensures Flies(s, f) ==>
      CommandForInFlight(s) == Some(Command(
        if StageOf(s, f) == IntentSaved then ReconcileCommand else ObserveCommand, f.surface, f.id, s.researchId, s.revision))
    ensures Idle(s) ==> CommandForInFlight(s) == None
  {
    hide Reachable, Select, Idle, Flies;
    if Flies(s, f) {
      FlightIsResumed(s, f, [], map[]);
    }
    if Idle(s) {
      IdleIssuesNothing(s);
    }
  }

  lemma IdleIssuesNothing(s: State)
    requires Idle(s)
    ensures CommandForInFlight(s) == None
  {
    assert forall id :: id in ActionsFlying(s.queue) ==> Flies(s, Flight(ActionSurface, id));
    assert forall id :: id in EvidenceFlying(s.recoveries) ==> Flies(s, Flight(EvidenceSurface, id));
    assert forall id :: id in DiagnosticsFlying(s.recoveries) ==> Flies(s, Flight(DiagnosticSurface, id));
    assert forall id :: id in CorrectivesFlying(s.recoveries) ==> Flies(s, Flight(CorrectiveSurface, id));
    assert FlightCount(s.queue, s.recoveries) == 0;
    IdleChoice(s, [], map[]);
    hide FlightCount, IdleWork, InFlightWork, ActionsSupported, RecoveriesSupported;
  }

  // ---------- no run is bound twice ----------

  ghost predicate BoundOk(w: World, bound: set<int>) {
    forall id :: id in bound ==> 1 <= id <= |w.runs| && !Awaits(w.state, w.runs[id - 1])
  }

  /** The controller steps of a world run end in the world's state. */
  lemma {:induction false} TraceRuns(w: World, steps: seq<WorldStep>)
    ensures Run(w.state, WorldTrace(w, steps)) == WorldRun(w, steps).state
    decreases |steps|
  {
    hide Next, Trace;
    if steps != [] {
      var v := WorldNext(w, steps[0]);
      RunAppends(w.state, Trace(w, steps[0]), WorldTrace(v, steps[1..]));
      NextFollowsTrace(w, steps[0]);
      TraceRuns(v, steps[1..]);
    }
  }

  lemma NextFollowsTrace(w: World, step: WorldStep)
    ensures WorldNext(w, step).state == Run(w.state, Trace(w, step))
  {
    hide Next, Executed, TruthfulTo, CommandForInFlight;
    if step.PrepareAndIssue? && Prepare(w.state, step.ref, step.requestedAt, step.headSha).Err? {
      RunOne(w.state, Trace(w, step));
      RefusedStays(w.state, Trace(w, step)[0]);
    }
  }

  lemma RefusedStays(s: State, step: Step)
    requires Perform(s, step).Err?
    ensures Next(s, step) == s
  {
  }

  lemma {:induction false} RunAppends(s: State, a: seq<Step>, b: seq<Step>)
    ensures Run(s, a + b) == Run(Run(s, a), b)
    ensures Bindings(s, a + b) == Bindings(s, a) + Bindings(Run(s, a), b)
    decreases |a|
  {
    hide Next, Binding;
    if a == [] {
      assert a + b == b;
    } else {
      assert (a + b)[1..] == a[1..] + b && (a + b)[0] == a[0];
      RunAppends(Next(s, a[0]), a[1..], b);
    }
  }

  lemma RunsGrow(w: World, step: WorldStep)
    ensures |WorldNext(w, step).runs| >= |w.runs| && WorldNext(w, step).runs[..|w.runs|] == w.runs
  {
    hide Run, Trace, Prepare, TruthfulTo, CommandForInFlight, ResumeIntentOn, CorrelationOn, Observes, ToStart;
  }

  /** The state moved: no bound run starts to wait again. */
  lemma MovedBound(w: World, t: State, bound: set<int>)
    requires WorldInv(w) && BoundOk(w, bound) && NoOldAwaits(w.state, t)
    ensures BoundOk(w.(state := t), bound)
  {
    hide Awaits, Inv, DispatchesPending, WriteOk;
    forall id | id in bound ensures !Awaits(t, w.runs[id - 1]) {
      assert w.runs[id - 1] in w.runs;
    }
  }

  /** Saving a receipt binds a run that was waiting until then. */
  lemma SaveBinds(w: World, k: nat, bound: set<int>)
    requires WorldInv(w) && BoundOk(w, bound) && k < |w.writes| && w.writes[k].base == w.state
    ensures var step := ReceiptStep(w.writes[k].surface, w.writes[k].actionId, w.writes[k].receipt);
      var b := Binding(w.state, step);
      && (b.Some? ==> b.value !in bound && 1 <= b.value <= |w.runs|
                      && !Awaits(Next(w.state, step), w.runs[b.value - 1]))
  {
    hide Awaits, Inv, DispatchesPending, ApplyDispatchReceipt, NoOldAwaits;
    var write := w.writes[k];
    assert WriteOk(w, write);
    if ApplyDispatchReceipt(w.state, write.surface, write.actionId, write.receipt).Ok? {
      ReceiptAwaits(w.state, write.surface, write.actionId, write.receipt);
      var run := w.runs[write.receipt.workflowRunId.value - 1];
      assert run == WorkflowRun(write.surface, write.actionId, run.intent);
    }
  }

  lemma BindingsOfOne(s: State, trace: seq<Step>)
    requires |trace| <= 1
    ensures Bindings(s, trace) == if trace == [] then [] else Listed(Binding(s, trace[0]))
  {
    hide Binding, Next;
  }

  lemma StepBindsOnce(w: World, step: WorldStep, bound: set<int>)
    requires WorldInv(w) && BoundOk(w, bound)
    ensures var b := Bindings(w.state, Trace(w, step));
      Distinct(b) && Elements(b) !! bound && BoundOk(WorldNext(w, step), bound + Elements(b))
  {
    hide WorldInv, WorldNext, Run, Next, Awaits, Binding, NoOldAwaits, Bindings;
    var trace := Trace(w, step);
    var t := Run(w.state, trace);
    TracedKeeps(w, step);
    NextFollowsTrace(w, step);
    RunsGrow(w, step);
    MovedBound(w, t, bound);
    BindingsOfOne(w.state, trace);
    if trace != [] {
      RunOne(w.state, trace);
      if step.SaveReceipt? {
        SaveBinds(w, step.write, bound);
      } else {
        NoBinding(w.state, trace[0]);
      }
    }
  }

  lemma NoBinding(s: State, step: Step)
    requires !step.ReceiptStep?
    ensures Binding(s, step) == None
  {
  }

  lemma {:induction false} WorldBindsOnce(w: World, steps: seq<WorldStep>, bound: set<int>)
    requires WorldInv(w) && BoundOk(w, bound)
    ensures Distinct(Bindings(w.state, WorldTrace(w, steps)))
    ensures Elements(Bindings(w.state, WorldTrace(w, steps))) !! bound
    decreases |steps|
  {
    hide WorldInv, WorldNext, Trace, Run, Next, BoundOk, Bindings;
    if steps == [] {
      BindingsOfOne(w.state, []);
    } else {
      var v, rest := WorldNext(w, steps[0]), steps[1..];
      var b, c := Bindings(w.state, Trace(w, steps[0])), Bindings(v.state, WorldTrace(v, rest));
      StepBindsOnce(w, steps[0], bound);
      WorldStepKeeps(w, steps[0]);
      NextFollowsTrace(w, steps[0]);
      RunAppends(w.state, Trace(w, steps[0]), WorldTrace(v, rest));
      WorldBindsOnce(v, rest, bound + Elements(b));
      Concatenated(b, c);
    }
  }

  lemma Concatenated(b: seq<int>, c: seq<int>)
    requires Distinct(b) && Distinct(c) && Elements(b) !! Elements(c)
    ensures Distinct(b + c) && Elements(b + c) == Elements(b) + Elements(c)
  {
    forall i, j | 0 <= i < j < |b + c| ensures (b + c)[i] != (b + c)[j] {
      if i < |b| <= j {
        assert (b + c)[i] in Elements(b) && (b + c)[j] in Elements(c);
      }
    }
  }

  /** With truthful lookups, in-order commands and arbitrary crashes, no workflow run is ever bound twice,
      so each run's terminal artifact changes the durable state at most once. */
  lemma CrashesNeverDuplicate(start: World, steps: seq<WorldStep>)
    requires IsStart(start)
    ensures Run(start.state, WorldTrace(start, steps)) == WorldRun(start, steps).state
    ensures Distinct(Bindings(start.state, WorldTrace(start, steps)))
    ensures Distinct(Consumptions(start.state, WorldTrace(start, steps)))
  {
    hide WorldInv, WorldTrace, Run, Bindings, Consumptions, WorldRun;
    TraceRuns(start, steps);
    StartInv(start);
    WorldBindsOnce(start, steps, {});
    ArtifactsApplyAtMostOnce(start.state, WorldTrace(start, steps));
  }
}
