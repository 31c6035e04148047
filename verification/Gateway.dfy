/** execution_gateway.py: the one boundary that starts workflow runs. */
module Gateway {
  import opened Prelude
  import opened Records
  import opened Diagnosis
  import opened DurableState

  datatype CommandKind = DispatchCommand | ReconcileCommand | ObserveCommand

  datatype Command = Command(
    kind: CommandKind, surface: Surface, actionId: ActionId, researchId: string, stateRevision: nat)

  /** A workflow run on GitHub, identified by the intent it was started for.  Its run id is its
      position, counted from one. */
  datatype WorkflowRun = WorkflowRun(surface: Surface, actionId: ActionId, intent: DispatchIntent)

  datatype RunStatus =
    | MatchedActive | MatchedTerminal | PendingVisibility | ObservationIncomplete | NoMatch
    | BoundRunIdentityMismatch | UnknownStatus

  /** What GitHub answers when a dispatch is looked up. */
  datatype Sighting = Sighting(status: RunStatus, matched: seq<int>, completed: bool, conclusion: string)

  /** How GitHub answers a dispatch: refused, or started with or without telling the run id. */
  datatype DispatchAnswer = Refused | Started(acknowledged: bool, workflowPath: Option<string>)

  /** The verdict of the common pre-write gate, when the deployment injected one. */
  datatype GateVerdict = NoGate | Clear | NotClear

  /** What decides a dispatch besides the state: the gate, the canonical branch policy, and GitHub. */
  datatype Launch = Launch(gate: GateVerdict, branchAllowed: bool, answer: DispatchAnswer)

  datatype Reply = ReceiptReply(receipt: Receipt) | WaitReply | TerminalReply(runId: int)

  datatype Outcome = Outcome(runs: seq<WorkflowRun>, reply: Result<Reply>)

  function ValidateCommand(command: Command, state: State): Guard {
    if command.researchId != state.researchId then Fail("controller command belongs to another research state")
    else if command.stateRevision != state.revision then Fail("stale controller command revision")
    else Pass
  }

  /** The saved intent the `resume_*_dispatch_intent` of the surface returns. */
  function ResumeIntentOn(state: State, surface: Surface, id: ActionId): Result<DispatchIntent> {
    match surface
    case ActionSurface => ResumeDispatchIntent(state, id)
    case EvidenceSurface => ResumeEvidenceDispatchIntent(state, id)
    case DiagnosticSurface => ResumeDiagnosticDispatchIntent(state, id)
    case CorrectiveSurface => ResumeCorrectiveDispatchIntent(state, id)
  }

  function ResumeReceiptOn(state: State, surface: Surface, id: ActionId): Result<Receipt> {
    match surface
    case ActionSurface => ResumeDispatchedAction(state, id)
    case EvidenceSurface => ResumeDispatchedEvidence(state, id)
    case DiagnosticSurface => ResumeDispatchedDiagnostic(state, id)
    case CorrectiveSurface => ResumeDispatchedCorrective(state, id)
  }

  function CorrelationOn(state: State, surface: Surface, id: ActionId): Result<Correlation> {
    match surface
    case ActionSurface => Ok(ActionCorrelation(id))
    case EvidenceSurface => EvidenceIdentity(state, id)
    case DiagnosticSurface => DiagnosticIdentity(state, id)
    case CorrectiveSurface => CorrectiveIdentity(state, id)
  }

  /** Actions run on two executors only; the recovery surfaces have a workflow each. */
  predicate ExecutorSupported(state: State, surface: Surface, id: ActionId) {
    surface == ActionSurface ==> id in state.queue && state.queue[id].plan.executor != GithubActions
  }

  /** `dispatch_workflow` */
  function StartRun(runs: seq<WorkflowRun>, run: WorkflowRun, correlation: Correlation, answer: DispatchAnswer): Outcome {
    match answer
    case Refused => Outcome(runs, Err("workflow dispatch failed"))
    case Started(acknowledged, path) =>
      Outcome(runs + [run],
              if acknowledged then Ok(ReceiptReply(Receipt(correlation, Some(|runs| + 1), run.intent.ref, path)))
              else Ok(WaitReply))
  }

  /** Actions pass the gate, and repository mutations the branch policy, before anything is started. */
  predicate Cleared(state: State, surface: Surface, id: ActionId, launch: Launch) {
    surface == ActionSurface ==>
      && launch.gate != NotClear
      && (id in state.queue && state.queue[id].plan.executor == RepositoryMutation ==> launch.branchAllowed)
  }

  function StartCleared(
    runs: seq<WorkflowRun>, state: State, run: WorkflowRun, correlation: Correlation, launch: Launch): Outcome
  {
    if !Cleared(state, run.surface, run.actionId, launch) then Outcome(runs, Err("dispatch blocked before any write"))
    else StartRun(runs, run, correlation, launch.answer)
  }

  function Dispatches(runs: seq<WorkflowRun>, state: State, surface: Surface, id: ActionId, launch: Launch): Outcome {
    var intent := ResumeIntentOn(state, surface, id);
    var correlation := CorrelationOn(state, surface, id);
    if intent.Err? then Outcome(runs, Err(intent.error))
    else if correlation.Err? then Outcome(runs, Err(correlation.error))
    else if !ExecutorSupported(state, surface, id) then Outcome(runs, Err("unsupported production action executor"))
    else StartCleared(runs, state, WorkflowRun(surface, id, intent.value), correlation.value, launch)
  }

  function Reconciles(
    runs: seq<WorkflowRun>, state: State, surface: Surface, id: ActionId, sighting: Sighting, launch: Launch): Outcome
  {
    var intent := ResumeIntentOn(state, surface, id);
    var correlation := CorrelationOn(state, surface, id);
    if intent.Err? then Outcome(runs, Err(intent.error))
    else if correlation.Err? then Outcome(runs, Err(correlation.error))
    else if !ExecutorSupported(state, surface, id) then Outcome(runs, Err("unsupported production action executor"))
    else
      match sighting.status
      case MatchedActive => Recovered(runs, surface, intent.value, correlation.value, sighting)
      case MatchedTerminal => Recovered(runs, surface, intent.value, correlation.value, sighting)
      case PendingVisibility => Outcome(runs, Ok(WaitReply))
      case ObservationIncomplete => Outcome(runs, Ok(WaitReply))
      case NoMatch =>
        if surface == EvidenceSurface then Outcome(runs, Ok(WaitReply))
        else StartCleared(runs, state, WorkflowRun(surface, id, intent.value), correlation.value, launch)
      case _ => Outcome(runs, Err("intent observation cannot continue"))
  }

  /** The receipt recovered from the one run that matches a saved intent. */
  function Recovered(
    runs: seq<WorkflowRun>, surface: Surface, intent: DispatchIntent, correlation: Correlation, sighting: Sighting): Outcome
  {
    if |sighting.matched| != 1 then Outcome(runs, Err("matched dispatch is not unique"))
    else if surface == EvidenceSurface && sighting.status == MatchedTerminal && sighting.conclusion != "success" then
      Outcome(runs, Err("evidence acquisition workflow failed"))
    else Outcome(runs, Ok(ReceiptReply(Receipt(correlation, Some(sighting.matched[0]), intent.ref, None))))
  }

  function Observes(state: State, surface: Surface, id: ActionId, sighting: Sighting): Result<Reply> {
    match ResumeReceiptOn(state, surface, id)
    case Err(e) => Err(e)
    case Ok(receipt) =>
      match surface
      case ActionSurface => ObservedNative(receipt, sighting, true)
      case CorrectiveSurface => ObservedNative(receipt, sighting, false)
      case _ => ObservedGeneric(receipt, sighting, surface == EvidenceSurface)
  }

  function ObservedNative(receipt: Receipt, sighting: Sighting, action: bool): Result<Reply> {
    match sighting.status
    case MatchedTerminal =>
      if receipt.workflowRunId.None? then Err("dispatched surface lost workflow run identity")
      else Ok(TerminalReply(receipt.workflowRunId.value))
    case BoundRunIdentityMismatch =>
      if !action then Err("unsupported corrective observation")
      else if receipt.workflowRunId.None? then Err("bound action mismatch lost workflow run identity")
      else if sighting.completed then Ok(TerminalReply(receipt.workflowRunId.value))
      else Ok(WaitReply)
    case UnknownStatus => Err("unsupported observation")
    case _ => Ok(WaitReply)
  }

  function ObservedGeneric(receipt: Receipt, sighting: Sighting, evidence: bool): Result<Reply> {
    if sighting.status != MatchedTerminal then Ok(WaitReply)
    else
      var matched := if sighting.matched != [] then sighting.matched
                     else if receipt.workflowRunId.Some? then [receipt.workflowRunId.value] else [];
      if |matched| != 1 || receipt.workflowRunId != Some(matched[0]) then Err("terminal workflow identity mismatch")
      else if evidence && sighting.conclusion != "success" then Err("evidence acquisition workflow failed")
      else Ok(TerminalReply(matched[0]))
  }

  function Executed(runs: seq<WorkflowRun>, state: State, command: Command, sighting: Sighting, launch: Launch): Outcome {
    match ValidateCommand(command, state)
    case Fail(e) => Outcome(runs, Err(e))
    case Pass =>
      match command.kind
      case DispatchCommand => Dispatches(runs, state, command.surface, command.actionId, launch)
      case ReconcileCommand => Reconciles(runs, state, command.surface, command.actionId, sighting, launch)
      case ObserveCommand => Outcome(runs, Observes(state, command.surface, command.actionId, sighting))
  }

  // ---------- what a command can start, said on the command and the records ----------

  /** The command is for the state as it is now. */
  predicate IsCurrent(command: Command, state: State) {
    command.researchId == state.researchId && command.stateRevision == state.revision
  }

  /** A dispatch, or a reconcile that found no run on a surface that may be dispatched again. */
  predicate AsksToStart(command: Command, sighting: Sighting) {
    command.kind == DispatchCommand
    || (command.kind == ReconcileCommand && sighting.status == NoMatch && command.surface != EvidenceSurface)
  }

  /** No gate blocks the action, its executor is a supported one, and a mutation may touch its branch. */
  predicate ActionMayStart(state: State, surface: Surface, id: ActionId, launch: Launch) {
    surface == ActionSurface ==>
      && launch.gate != NotClear
      && id in state.queue
      && (match state.queue[id].plan.executor
          case GithubNative => true
          case RepositoryMutation => launch.branchAllowed
          case GithubActions => false)
  }

  lemma ResumedHasIdentity(state: State, surface: Surface, id: ActionId)
    requires ResumeIntentOn(state, surface, id).Ok?
    ensures CorrelationOn(state, surface, id).Ok?
  {
    hide CorrectiveIdentity;
  }

  /** A command starts a run exactly when it is current, asks to start one, its intent is saved and resumes, the
      action may start, and GitHub starts it.  Then it is the run of that intent, and a receipt names it.
      Where only the action's clearance or GitHub is missing, the command fails and starts nothing. */
  lemma StartsExactly(runs: seq<WorkflowRun>, state: State, command: Command, sighting: Sighting, launch: Launch)
    ensures var o := Executed(runs, state, command, sighting, launch);
      var intent := ResumeIntentOn(state, command.surface, command.actionId);
      var asked := IsCurrent(command, state) && AsksToStart(command, sighting) && intent.Ok?;
      && (o.runs != runs <==> asked && ActionMayStart(state, command.surface, command.actionId, launch) && launch.answer.Started?)
      && (o.runs != runs ==>
            && o.runs == runs + [WorkflowRun(command.surface, command.actionId, intent.value)]
            && o.reply.Ok?
            && (o.reply.value.ReceiptReply? <==> launch.answer.acknowledged)
            && (o.reply.value.ReceiptReply? ==>
                  o.reply.value.receipt.workflowRunId == Some(|o.runs|) && o.reply.value.receipt.ref == intent.value.ref))
      && (asked && !(ActionMayStart(state, command.surface, command.actionId, launch) && launch.answer.Started?) ==> o.reply.Err?)
  {
    var intent, correlation := ResumeIntentOn(state, command.surface, command.actionId), CorrelationOn(state, command.surface, command.actionId);
    if intent.Ok? {
      ResumedHasIdentity(state, command.surface, command.actionId);
      var run := WorkflowRun(command.surface, command.actionId, intent.value);
      ClearedStartsExactly(runs, state, run, correlation.value, launch);
    }
    UnsupportedMayNotStart(state, command.surface, command.actionId, launch);
    DispatchesTo(runs, state, command.surface, command.actionId, launch);
    ReconcilesTo(runs, state, command.surface, command.actionId, sighting, launch);
    hide ResumeIntentOn, CorrelationOn, Observes, StartCleared, ActionMayStart, Dispatches, Reconciles, ExecutorSupported;
  }

  /** A dispatch starts the run of the resumed intent, if its executor is supported. */
  lemma DispatchesTo(runs: seq<WorkflowRun>, state: State, surface: Surface, id: ActionId, launch: Launch)
    ensures var o := Dispatches(runs, state, surface, id, launch);
      var intent, correlation := ResumeIntentOn(state, surface, id), CorrelationOn(state, surface, id);
      if intent.Ok? && correlation.Ok? && ExecutorSupported(state, surface, id)
      then o == StartCleared(runs, state, WorkflowRun(surface, id, intent.value), correlation.value, launch)
      else o.runs == runs && o.reply.Err?
  {
    hide ResumeIntentOn, CorrelationOn, StartCleared;
  }

  /** A reconcile that found nothing does the same, except for evidence; otherwise it starts nothing. */
  lemma ReconcilesTo(
    runs: seq<WorkflowRun>, state: State, surface: Surface, id: ActionId, sighting: Sighting, launch: Launch)
    ensures var o := Reconciles(runs, state, surface, id, sighting, launch);
      var intent, correlation := ResumeIntentOn(state, surface, id), CorrelationOn(state, surface, id);
      if !(intent.Ok? && correlation.Ok? && ExecutorSupported(state, surface, id)) then o.runs == runs && o.reply.Err?
      else if sighting.status == NoMatch && surface != EvidenceSurface
      then o == StartCleared(runs, state, WorkflowRun(surface, id, intent.value), correlation.value, launch)
      else o.runs == runs
  {
    hide ResumeIntentOn, CorrelationOn, StartCleared;
  }

  lemma UnsupportedMayNotStart(state: State, surface: Surface, id: ActionId, launch: Launch)
    ensures !ExecutorSupported(state, surface, id) ==> !ActionMayStart(state, surface, id, launch)
  {
  }

  lemma ClearedStartsExactly(
    runs: seq<WorkflowRun>, state: State, run: WorkflowRun, correlation: Correlation, launch: Launch)
    ensures var o := StartCleared(runs, state, run, correlation, launch);
      ExecutorSupported(state, run.surface, run.actionId) ==>
        && (o.runs != runs <==> ActionMayStart(state, run.surface, run.actionId, launch) && launch.answer.Started?)
        && (o.runs != runs ==>
              && o.runs == runs + [run] && o.reply.Ok?
              && (o.reply.value.ReceiptReply? <==> launch.answer.acknowledged)
              && (o.reply.value.ReceiptReply? ==>
                    o.reply.value.receipt.workflowRunId == Some(|o.runs|) && o.reply.value.receipt.ref == run.intent.ref))
        && (o.runs == runs ==> o.reply.Err?)
  {
  }

  /** A reconcile recovers a receipt without starting anything exactly from the one run that matches; evidence
      only if that run has not failed.  Runs that may still appear are waited for, and so is missing evidence. */
  lemma RecoversExactly(runs: seq<WorkflowRun>, state: State, command: Command, sighting: Sighting, launch: Launch)
    requires command.kind == ReconcileCommand && IsCurrent(command, state)
    requires ResumeIntentOn(state, command.surface, command.actionId).Ok?
    requires command.surface == ActionSurface ==>
      command.actionId in state.queue && state.queue[command.actionId].plan.executor != GithubActions
    ensures var o := Executed(runs, state, command, sighting, launch);
      var found := sighting.status == MatchedActive || sighting.status == MatchedTerminal;
      var failed := command.surface == EvidenceSurface && sighting.status == MatchedTerminal && sighting.conclusion != "success";
      && (found ==> o.runs == runs && (o.reply.Ok? <==> |sighting.matched| == 1 && !failed))
      && (found && o.reply.Ok? ==>
            o.reply.value.ReceiptReply? && o.reply.value.receipt.workflowRunId == Some(sighting.matched[0]))
      && (sighting.status == PendingVisibility || sighting.status == ObservationIncomplete
          || (sighting.status == NoMatch && command.surface == EvidenceSurface) ==>
            o == Outcome(runs, Ok(WaitReply)))
      && (sighting.status == BoundRunIdentityMismatch || sighting.status == UnknownStatus ==>
            o.runs == runs && o.reply.Err?)
  {
    ResumedHasIdentity(state, command.surface, command.actionId);
    hide ResumeIntentOn, CorrelationOn, Observes, Dispatches, StartCleared;
  }

  /** An observation ends the run exactly as GitHub reports it: a terminal match of the bound run, successful for
      evidence, or for an action a completed run with another identity.  It never starts anything. */
  lemma ObservesExactly(runs: seq<WorkflowRun>, state: State, command: Command, sighting: Sighting, launch: Launch, run: int)
    requires command.kind == ObserveCommand && IsCurrent(command, state)
    requires ResumeReceiptOn(state, command.surface, command.actionId).Ok?
    requires ResumeReceiptOn(state, command.surface, command.actionId).value.workflowRunId == Some(run)
    ensures var o := Executed(runs, state, command, sighting, launch);
      && o.runs == runs
      && (o.reply.Ok? && o.reply.value.TerminalReply? ==> o.reply.value.runId == run)
      && (o.reply.Ok? && o.reply.value.TerminalReply? <==>
            match command.surface
            case ActionSurface =>
              sighting.status == MatchedTerminal || (sighting.status == BoundRunIdentityMismatch && sighting.completed)
            case CorrectiveSurface => sighting.status == MatchedTerminal
            case DiagnosticSurface =>
              sighting.status == MatchedTerminal && (sighting.matched == [] || sighting.matched == [run])
            case EvidenceSurface =>
              sighting.status == MatchedTerminal && (sighting.matched == [] || sighting.matched == [run])
              && sighting.conclusion == "success")
  {
    hide ResumeReceiptOn;
    if |sighting.matched| == 1 {
      assert sighting.matched == [sighting.matched[0]];
    }
  }

  /** GitHub, as far as the gateway can change it. */
  class ActionsTransport {
    var runs: seq<WorkflowRun>

    constructor ()
      ensures runs == []
    {
      runs := [];
    }

    method DispatchWorkflow(run: WorkflowRun, correlation: Correlation, answer: DispatchAnswer) returns (reply: Result<Reply>)
      modifies this
      ensures Outcome(runs, reply) == StartRun(old(runs), run, correlation, answer)
    {
      match answer
      case Refused => reply := Err("workflow dispatch failed");
      case Started(acknowledged, path) =>
        runs := runs + [run];
        if acknowledged {
          reply := Ok(ReceiptReply(Receipt(correlation, Some(|runs|), run.intent.ref, path)));
        } else {
          reply := Ok(WaitReply);
        }
    }
  }

  class ExecutionGateway {
    const transport: ActionsTransport

    constructor (transport: ActionsTransport)
      ensures this.transport == transport
    {
      this.transport := transport;
    }

    method Execute(command: Command, state: State, sighting: Sighting, launch: Launch) returns (reply: Result<Reply>)
      modifies transport
      ensures Outcome(transport.runs, reply) == Executed(old(transport.runs), state, command, sighting, launch)
      ensures transport.runs != old(transport.runs) ==>
        IsCurrent(command, state) && AsksToStart(command, sighting) && ActionMayStart(state, command.surface, command.actionId, launch)
    {
      StartsExactly(transport.runs, state, command, sighting, launch);
      hide Dispatches, Reconciles, Observes, AsksToStart, ActionMayStart, IsCurrent, ResumeIntentOn;
      var guard := ValidateCommand(command, state);
      if guard.Fail? {
        return Err(guard.error);
      }
      match command.kind
      case DispatchCommand => reply := Dispatch(state, command.surface, command.actionId, launch);
      case ReconcileCommand => reply := Reconcile(state, command.surface, command.actionId, sighting, launch);
      case ObserveCommand => reply := Observes(state, command.surface, command.actionId, sighting);
    }

    method Dispatch(state: State, surface: Surface, id: ActionId, launch: Launch) returns (reply: Result<Reply>)
      modifies transport
      ensures Outcome(transport.runs, reply) == Dispatches(old(transport.runs), state, surface, id, launch)
      ensures transport.runs != old(transport.runs) ==> ActionMayStart(state, surface, id, launch)
    {
      hide ResumeIntentOn, CorrelationOn;
      var intent := ResumeIntentOn(state, surface, id);
      var correlation := CorrelationOn(state, surface, id);
      if intent.Err? {
        return Err(intent.error);
      }
      if correlation.Err? {
        return Err(correlation.error);
      }
      if !ExecutorSupported(state, surface, id) {
        return Err("unsupported production action executor");
      }
      if !Cleared(state, surface, id, launch) {
        return Err("dispatch blocked before any write");
      }
      reply := transport.DispatchWorkflow(WorkflowRun(surface, id, intent.value), correlation.value, launch.answer);
    }

    method Reconcile(state: State, surface: Surface, id: ActionId, sighting: Sighting, launch: Launch)
      returns (reply: Result<Reply>)
      modifies transport
      ensures Outcome(transport.runs, reply) == Reconciles(old(transport.runs), state, surface, id, sighting, launch)
      ensures transport.runs != old(transport.runs) ==> ActionMayStart(state, surface, id, launch)
    {
      hide ResumeIntentOn, CorrelationOn;
      var intent := ResumeIntentOn(state, surface, id);
      var correlation := CorrelationOn(state, surface, id);
      if intent.Err? {
        return Err(intent.error);
      }
      if correlation.Err? {
        return Err(correlation.error);
      }
      if !ExecutorSupported(state, surface, id) {
        return Err("unsupported production action executor");
      }
      var status := sighting.status;
      if status == MatchedActive || status == MatchedTerminal {
        return Recovered(transport.runs, surface, intent.value, correlation.value, sighting).reply;
      }
      if status == PendingVisibility || status == ObservationIncomplete {
        return Ok(WaitReply);
      }
      if status == NoMatch && surface != EvidenceSurface {
        reply := Dispatch(state, surface, id, launch);
        return;
      }
      if status == NoMatch {
        return Ok(WaitReply);
      }
      return Err("intent observation cannot continue");
    }
  }
}
