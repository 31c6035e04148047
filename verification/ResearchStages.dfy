/** research.py and the stage half of execution.py: what a COMPLETE state proves about its run. */
module ResearchStages {
  import opened Prelude
  import opened Records
  import opened Diagnosis
  import opened DurableState
  import opened Ingestion
  import opened Selector
  import opened Protocol
  import opened Preservation

  function AllowedTransitions(stage: ResearchStage): set<ResearchStage> {
    match stage
    case DefineProblem => {AcquireKnowledge}
    case AcquireKnowledge => {GenerateHypothesis}
    case GenerateHypothesis => {AcquireKnowledge, DesignValidation}
    case DesignValidation => {DesignExperiment}
    case DesignExperiment => {Implement}
    case Implement => {ResearchStage.Execute}
    case Execute => {Analyze}
    case Analyze => {AcquireKnowledge, GenerateHypothesis, DesignExperiment, Decide, Escalate}
    case Decide => {AcquireKnowledge, GenerateHypothesis, DesignExperiment, Completed, Escalate}
    case Escalate => {AcquireKnowledge, GenerateHypothesis, DesignExperiment, Decide, Completed}
    case Completed => {}
  }

  function StageName(stage: ResearchStage): string {
    match stage
    case DefineProblem => "define_problem"
    case AcquireKnowledge => "acquire_knowledge"
    case GenerateHypothesis => "generate_hypothesis"
    case DesignValidation => "design_validation"
    case DesignExperiment => "design_experiment"
    case Implement => "implement"
    case Execute => "execute"
    case Analyze => "analyze"
    case Decide => "decide"
    case Escalate => "escalate"
    case Completed => "complete"
  }

  function Transition(s: State, target: ResearchStage, executionEvidence: bool): Result<State> {
    if target !in AllowedTransitions(s.stage) then Err("transition is not allowed")
    else if target == Completed && !executionEvidence then Err("COMPLETE is evidence-gated; use transition_from_execution")
    else Ok(s.(stage := target, revision := s.revision + 1))
  }

  function ApplyOnce(s: State, operationId: string, target: ResearchStage, executionEvidence: bool): Result<State> {
    if operationId in s.completedOperationIds then Ok(s)
    else
      match Transition(s, target, executionEvidence)
      case Err(e) => Err(e)
      case Ok(moved) => Ok(moved.(completedOperationIds := s.completedOperationIds + [operationId]))
  }

  /** A call that may raise after it has already changed the state. */
  datatype Attempt = Attempt(state: State, error: Option<string>)

  function OrRaised(s: State, r: Result<State>): Attempt {
    match r
    case Ok(t) => Attempt(t, None)
    case Err(e) => Attempt(s, Some(e))
  }

  function TransitionFromExecution(s: State, result: ExecutionResult, target: ResearchStage): Attempt {
    match RecordExecutionResult(s, result)
    case Err(e) => Attempt(s, Some(e))
    case Ok(recorded) =>
      if target == Completed && !Succeeded(result.status) then
        Attempt(recorded, Some("COMPLETE requires PASS/NOOP execution evidence"))
      else
        OrRaised(recorded, ApplyOnce(recorded, "execution:" + result.actionId + ":" + StageName(target), target, true))
  }

  // ---------- runs of stage calls ----------

  datatype StageCall =
    | PlainCall(operationId: string, target: ResearchStage)
    | ExecutionCall(result: ExecutionResult, target: ResearchStage)

  function After(s: State, call: StageCall): State {
    match call
    case PlainCall(op, target) => OrRaised(s, ApplyOnce(s, op, target, false)).state
    case ExecutionCall(result, target) => TransitionFromExecution(s, result, target).state
  }

  function AfterAll(s: State, calls: seq<StageCall>): State
    decreases |calls|
  {
    if calls == [] then s else AfterAll(After(s, calls[0]), calls[1..])
  }

  /** The stages the run was in, from the start to now. */
  function Visited(s: State, calls: seq<StageCall>): seq<ResearchStage>
    decreases |calls|
  {
    [s.stage] + if calls == [] then [] else Visited(After(s, calls[0]), calls[1..])
  }

  // ---------- the milestones ----------

  const MILESTONES: seq<ResearchStage> :=
    [DesignValidation, DesignExperiment, Implement, ResearchStage.Execute, Analyze]

  /** How many milestones every run that stands in `stage` has passed. */
  function Passed(stage: ResearchStage): (n: nat)
    ensures n <= |MILESTONES|
  {
    match stage
    case DefineProblem => 0
    case AcquireKnowledge => 0
    case GenerateHypothesis => 0
    case DesignValidation => 1
    case DesignExperiment => 2
    case Implement => 3
    case Execute => 4
    case _ => 5
  }

  /** `visited` passes through the stages `wanted`, in that order. */
  ghost predicate PassesInOrder(visited: seq<ResearchStage>, wanted: seq<ResearchStage>) {
    exists at: seq<nat> :: Positions(at, visited, wanted)
  }

  ghost predicate Positions(at: seq<nat>, visited: seq<ResearchStage>, wanted: seq<ResearchStage>) {
    && |at| == |wanted|
    && (forall i, j :: 0 <= i < j < |at| ==> at[i] < at[j])
    && (forall i :: 0 <= i < |at| ==> at[i] < |visited| && visited[at[i]] == wanted[i])
  }

  lemma PassesMore(visited: seq<ResearchStage>, next: ResearchStage, from: nat, to: nat)
    requires from <= |MILESTONES| && to <= |MILESTONES|
    requires PassesInOrder(visited, MILESTONES[..from])
    requires to <= from || (to == from + 1 && next == MILESTONES[from])
    ensures PassesInOrder(visited + [next], MILESTONES[..to])
  {
    var at: seq<nat> :| Positions(at, visited, MILESTONES[..from]);
    assert |at| == from;
    if to <= from {
      assert Positions(at[..to], visited + [next], MILESTONES[..to]);
    } else {
      assert Positions(at + [|visited|], visited + [next], MILESTONES[..to]);
    }
  }

  /** One call moves along one allowed edge or stays. */
  lemma CallMoves(s: State, call: StageCall)
    ensures After(s, call).stage == s.stage || After(s, call).stage in AllowedTransitions(s.stage)
  {
    hide AllowedTransitions, StageName, RecordExecutionResult;
    if call.ExecutionCall? && RecordExecutionResult(s, call.result).Ok? {
      RecordedStatus(s, call.result);
    }
  }

  lemma EdgePasses(from: ResearchStage, to: ResearchStage)
    requires to == from || to in AllowedTransitions(from)
    ensures Passed(to) <= Passed(from) || (Passed(to) == Passed(from) + 1 && to == MILESTONES[Passed(from)])
  {
  }

  lemma {:induction false} VisitedPasses(before: seq<ResearchStage>, s: State, calls: seq<StageCall>)
    requires PassesInOrder(before + [s.stage], MILESTONES[..Passed(s.stage)])
    ensures PassesInOrder(before + Visited(s, calls), MILESTONES[..Passed(AfterAll(s, calls).stage)])
    decreases |calls|
  {
    hide After, PassesInOrder, AllowedTransitions, Passed;
    if calls != [] {
      var t := After(s, calls[0]);
      CallMoves(s, calls[0]);
      EdgePasses(s.stage, t.stage);
      PassesMore(before + [s.stage], t.stage, Passed(s.stage), Passed(t.stage));
      VisitedPasses(before + [s.stage], t, calls[1..]);
      assert before + Visited(s, calls) == before + [s.stage] + Visited(t, calls[1..]);
    } else {
      assert before + Visited(s, calls) == before + [s.stage];
    }
  }

  ghost predicate HoldsSuccess(s: State) {
    exists id :: id in s.executionResults && Succeeded(s.executionResults[id].status)
  }

  /** A recorded result that is not a retryable failure is never replaced. */
  lemma SettledResultStays(s: State, result: ExecutionResult, id: ActionId)
    requires id in s.executionResults && RecordExecutionResult(s, result).Ok?
    requires !(s.executionResults[id].status == FAILED && s.executionResults[id].retryable)
    ensures var t := RecordExecutionResult(s, result).value;
      id in t.executionResults && t.executionResults[id] == s.executionResults[id]
  {
  }

  lemma RecordedStatus(s: State, result: ExecutionResult)
    requires RecordExecutionResult(s, result).Ok?
    ensures var t := RecordExecutionResult(s, result).value;
      result.actionId in t.executionResults && t.executionResults[result.actionId].status == result.status
      && t.stage == s.stage
  {
  }

  lemma CallKeepsSuccess(s: State, call: StageCall)
    requires s.stage == Completed ==> HoldsSuccess(s)
    ensures After(s, call).stage == Completed ==> HoldsSuccess(After(s, call))
  {
    hide RecordExecutionResult, StageName, AllowedTransitions;
    if call.ExecutionCall? && RecordExecutionResult(s, call.result).Ok? {
      var t := RecordExecutionResult(s, call.result).value;
      RecordedStatus(s, call.result);
      if s.stage == Completed {
        var id :| id in s.executionResults && Succeeded(s.executionResults[id].status);
        SettledResultStays(s, call.result, id);
      }
    }
  }

  lemma {:induction false} RunKeepsSuccess(s: State, calls: seq<StageCall>)
    requires s.stage == Completed ==> HoldsSuccess(s)
    ensures AfterAll(s, calls).stage == Completed ==> HoldsSuccess(AfterAll(s, calls))
    decreases |calls|
  {
    hide After, HoldsSuccess;
    if calls != [] {
      CallKeepsSuccess(s, calls[0]);
      RunKeepsSuccess(After(s, calls[0]), calls[1..]);
    }
  }

  /** Whatever is called on a new workload: if it is COMPLETE now, it still holds PASS or NOOP evidence
      and its run passed validation design, experiment design, implementation, execution and analysis in order. */
  lemma CompletionIsEarned(start: State, calls: seq<StageCall>)
    requires start.stage == DefineProblem && AfterAll(start, calls).stage == Completed
    ensures HoldsSuccess(AfterAll(start, calls))
    ensures PassesInOrder(Visited(start, calls), MILESTONES)
  {
    hide After;
    RunKeepsSuccess(start, calls);
    assert Positions([], [] + [start.stage], MILESTONES[..0]);
    VisitedPasses([], start, calls);
    assert [] + Visited(start, calls) == Visited(start, calls);
    assert MILESTONES[..5] == MILESTONES;
  }

  // ---------- each operation moves the stage once ----------

  lemma OperationsOnlyGrow(s: State, call: StageCall)
    ensures s.completedOperationIds <= After(s, call).completedOperationIds
    ensures After(s, call).stage != s.stage ==>
      |After(s, call).completedOperationIds| == |s.completedOperationIds| + 1
      && After(s, call).completedOperationIds[|s.completedOperationIds|] !in s.completedOperationIds
  {
    hide AllowedTransitions, StageName, RecordExecutionResult;
    if call.ExecutionCall? && RecordExecutionResult(s, call.result).Ok? {
      RecordedStatus(s, call.result);
      RecordedOperations(s, call.result);
    }
  }

  lemma RecordedOperations(s: State, result: ExecutionResult)
    requires RecordExecutionResult(s, result).Ok?
    ensures RecordExecutionResult(s, result).value.completedOperationIds == s.completedOperationIds
  {
  }

  lemma {:induction false} RunOnlyGrows(s: State, calls: seq<StageCall>)
    ensures s.completedOperationIds <= AfterAll(s, calls).completedOperationIds
    decreases |calls|
  {
    hide After;
    if calls != [] {
      OperationsOnlyGrow(s, calls[0]);
      RunOnlyGrows(After(s, calls[0]), calls[1..]);
    }
  }

  /** Once an operation moved the stage, the same operation changes nothing, whatever was called in between. */
  lemma OperationAppliesOnce(s: State, op: string, target: ResearchStage, calls: seq<StageCall>, again: ResearchStage)
    requires ApplyOnce(s, op, target, false).Ok?
    ensures var t := ApplyOnce(s, op, target, false).value; var u := AfterAll(t, calls);
      op in t.completedOperationIds && ApplyOnce(u, op, again, false) == Ok(u)
  {
    hide Transition, AfterAll;
    var t := ApplyOnce(s, op, target, false).value;
    RunOnlyGrows(t, calls);
    var k :| 0 <= k < |t.completedOperationIds| && t.completedOperationIds[k] == op;
    assert AfterAll(t, calls).completedOperationIds[k] == op;
  }

  /** From every stage the table leads on to COMPLETE, and from COMPLETE nowhere. */
  lemma CompletionIsAlwaysPossible(stage: ResearchStage) returns (path: seq<ResearchStage>)
    ensures path != [] && path[0] == stage && path[|path| - 1] == Completed
    ensures forall i :: 0 <= i < |path| - 1 ==> path[i + 1] in AllowedTransitions(path[i])
    ensures AllowedTransitions(Completed) == {}
  {
    var all := [DefineProblem, AcquireKnowledge, GenerateHypothesis, DesignValidation, DesignExperiment, Implement,
                ResearchStage.Execute, Analyze, Decide, Completed];
    match stage
    case Escalate => path := [Escalate, Completed];
    case DefineProblem => path := all;
    case AcquireKnowledge => path := all[1..];
    case GenerateHypothesis => path := all[2..];
    case DesignValidation => path := all[3..];
    case DesignExperiment => path := all[4..];
    case Implement => path := all[5..];
    case Execute => path := all[6..];
    case Analyze => path := all[7..];
    case Decide => path := all[8..];
    case Completed => path := all[9..];
  }

  // ---------- attempts are conserved ----------

  /** The same report, whatever attempts were filed with it. */
  predicate SameReport(a: ExecutionResult, b: ExecutionResult) {
    a.(details := a.details.(attemptHistory := [])) == b.(details := b.details.(attemptHistory := []))
  }

  function RecordAll(s: State, results: seq<ExecutionResult>): Result<State>
    decreases |results|
  {
    if results == [] then Ok(s)
    else
      match RecordAll(s, results[..|results| - 1])
      case Err(e) => Err(e)
      case Ok(t) => RecordExecutionResult(t, results[|results| - 1])
  }

  ghost predicate RetryableFailuresOf(rid: string, id: ActionId, results: seq<ExecutionResult>) {
    forall r :: r in results ==> r.researchId == rid && r.actionId == id && r.status == FAILED && r.retryable
  }

  /** No failure repeats what is stored when it arrives, and the first comes without history. */
  ghost predicate AllNew(s: State, id: ActionId, results: seq<ExecutionResult>) {
    && (results != [] ==> results[0].details.attemptHistory == [])
    && forall k :: 0 < k < |results| ==>
         var t := RecordAll(s, results[..k]);
         t.Ok? && id in t.value.executionResults ==> t.value.executionResults[id] != results[k]
  }

  /** After k successive retryable failures exactly the k - 1 earlier ones are filed, in order,
      under the latest. */
  lemma {:induction false} AttemptsAreConserved(s: State, id: ActionId, results: seq<ExecutionResult>)
    requires id !in s.executionResults && results != []
    requires RetryableFailuresOf(s.researchId, id, results) && AllNew(s, id, results)
    ensures RecordAll(s, results).Ok?
    ensures var t := RecordAll(s, results).value;
      && t.researchId == s.researchId && t.revision == s.revision + |results|
      && id in t.executionResults && SameReport(t.executionResults[id], results[|results| - 1])
      && |t.executionResults[id].details.attemptHistory| == |results| - 1
      && forall i :: 0 <= i < |results| - 1 ==> SameReport(t.executionResults[id].details.attemptHistory[i], results[i])
    decreases |results|
  {
    hide RecordExecutionResult, SameReport;
    var k := |results| - 1;
    var earlier := results[..k];
    assert results[k] in results;
    if k == 0 {
      assert RecordAll(s, earlier) == Ok(s);
      FirstAttempt(s, results[0]);
    } else {
      assert forall j :: 0 < j < k ==> earlier[..j] == results[..j];
      AttemptsAreConserved(s, id, earlier);
      var t := RecordAll(s, earlier).value;
      assert earlier[k - 1] == results[k - 1] && results[k - 1] in results;
      SameReportRetries(t.executionResults[id], results[k - 1]);
      OneMoreAttempt(t, results[k]);
    }
  }

  lemma FirstAttempt(s: State, result: ExecutionResult)
    requires result.researchId == s.researchId && result.actionId !in s.executionResults
    ensures RecordExecutionResult(s, result).Ok?
    ensures var t := RecordExecutionResult(s, result).value;
      t == s.(executionResults := s.executionResults[result.actionId := result], revision := s.revision + 1)
      && SameReport(result, result)
  {
  }

  lemma SameReportRetries(a: ExecutionResult, b: ExecutionResult)
    requires SameReport(a, b)
    ensures a.status == b.status && a.retryable == b.retryable
  {
  }

  /** A retryable failure makes room for the next result and is filed under it. */
  lemma OneMoreAttempt(s: State, result: ExecutionResult)
    requires result.researchId == s.researchId && result.actionId in s.executionResults
    requires var stored := s.executionResults[result.actionId];
      stored != result && stored.status == FAILED && stored.retryable
    ensures RecordExecutionResult(s, result).Ok?
    ensures var t := RecordExecutionResult(s, result).value; var id := result.actionId;
      && t.researchId == s.researchId && t.revision == s.revision + 1 && id in t.executionResults
      && SameReport(t.executionResults[id], result)
      && t.executionResults[id].details.attemptHistory
         == s.executionResults[id].details.attemptHistory + [s.executionResults[id]]
  {
  }

  // ---------- and the durable protocol only ever adds to them ----------

  ghost predicate KeepsAttempts(s: State, t: State) {
    forall id :: id in s.executionResults ==>
      id in t.executionResults
      && s.executionResults[id].details.attemptHistory <= t.executionResults[id].details.attemptHistory
  }

  lemma RecordKeepsAttempts(s: State, result: ExecutionResult)
    requires RecordExecutionResult(s, result).Ok?
    ensures KeepsAttempts(s, RecordExecutionResult(s, result).value)
  {
    var t := RecordExecutionResult(s, result).value;
    RecordPutsOne(s, result);
    hide RecordExecutionResult;
  }

  lemma RecordPutsOne(s: State, result: ExecutionResult)
    requires RecordExecutionResult(s, result).Ok?
    ensures var t := RecordExecutionResult(s, result).value; var id := result.actionId;
      && id in t.executionResults
      && t.executionResults == s.executionResults[id := t.executionResults[id]]
      && (id in s.executionResults ==>
            s.executionResults[id].details.attemptHistory <= t.executionResults[id].details.attemptHistory)
  {
  }

  lemma SameResultsKeep(s: State, t: State)
    requires t.executionResults == s.executionResults
    ensures KeepsAttempts(s, t)
  {
  }

  lemma FailureKeepsAttempts(s: State, result: ExecutionResult)
    requires ApplyActionFailure(s, result).Ok?
    ensures KeepsAttempts(s, ApplyActionFailure(s, result).value)
  {
    hide RecordExecutionResult, HasProvenance, EffectivelyRetryable, FingerprintOf, KeepsAttempts;
    var recorded := RecordExecutionResult(s, result).value;
    var governed := RecordFailure(s, result).value;
    RecordKeepsAttempts(s, result);
    GovernedKeepsAttempts(s, recorded, governed, result.actionId);
    assert ApplyActionFailure(s, result).value.executionResults == governed.executionResults;
    SameAttempts(s, governed, ApplyActionFailure(s, result).value);
  }

  lemma GovernedKeepsAttempts(s: State, recorded: State, governed: State, id: ActionId)
    requires KeepsAttempts(s, recorded) && id in recorded.executionResults && id in governed.executionResults
    requires governed.executionResults[id].details.attemptHistory == recorded.executionResults[id].details.attemptHistory
    requires governed.executionResults == recorded.executionResults[id := governed.executionResults[id]]
    ensures KeepsAttempts(s, governed)
  {
  }

  lemma SameAttempts(s: State, g: State, t: State)
    requires KeepsAttempts(s, g) && t.executionResults == g.executionResults
    ensures KeepsAttempts(s, t)
  {
  }

  lemma ActionArtifactKeepsAttempts(s: State, id: ActionId, runId: int, artifact: Artifact, gateway: GatewayTerminal)
    requires IngestActionArtifact(s, id, runId, artifact, gateway).Ok?
    ensures var p := IngestActionArtifact(s, id, runId, artifact, gateway).value; p.Some? ==> KeepsAttempts(s, p.value)
  {
    hide ApplyActionFailure, ApplyActionCompletion, ApplyActionRejection, RecordNativeDispatchEvidenceFailure;
    hide KeepsAttempts, ResultParses;
    var p := IngestActionArtifact(s, id, runId, artifact, gateway).value;
    if p.Some? {
      if artifact.ResultArtifact? && !IdentityMismatch(gateway) {
        match artifact.result.status
        case FAILED => FailureKeepsAttempts(s, artifact.result);
        case REJECTED => RejectionKeepsResults(s, artifact.result); SameResultsKeep(s, p.value);
        case _ => CompletionKeepsResults(s, artifact.result); SameResultsKeep(s, p.value);
      } else {
        EvidenceFailureKeepsResults(s, p.value, id, runId, Conclusion(gateway),
          if IdentityMismatch(gateway) then "bound_executor_identity_mismatch"
          else if artifact.missing then "missing_execution_result_artifact" else "invalid_execution_result_json");
        SameResultsKeep(s, p.value);
      }
    }
  }

  lemma CompletionKeepsResults(s: State, result: ExecutionResult)
    requires ApplyActionCompletion(s, result).Ok?
    ensures ApplyActionCompletion(s, result).value.executionResults == s.executionResults
  {
    hide HasProvenance, BoundRun;
  }

  lemma RejectionKeepsResults(s: State, result: ExecutionResult)
    requires ApplyActionRejection(s, result).Ok?
    ensures ApplyActionRejection(s, result).value.executionResults == s.executionResults
  {
    hide HasProvenance, BoundRun;
  }

  lemma EvidenceFailureKeepsResults(s: State, t: State, id: ActionId, runId: int, conclusion: string, kind: string)
    requires RecordNativeDispatchEvidenceFailure(s, id, runId, conclusion, kind) == Ok(t)
    ensures t.executionResults == s.executionResults
  {
    hide PlanParses;
  }

  lemma EvidenceKeepsResults(s: State, id: ActionId, evidence: Details, p: ArtifactProvenance)
    requires ApplyEvidencePatch(s, id, evidence, p).Ok?
    ensures ApplyEvidencePatch(s, id, evidence, p).value.executionResults == s.executionResults
  {
    hide ResumeDispatchedEvidence, EvidenceIdentity, ProvenanceBinds, Update;
  }

  lemma DiagnosticKeepsResults(s: State, id: ActionId, patched: Recovery, p: Option<ArtifactProvenance>)
    requires ApplyDiagnosticPatch(s, id, patched, p).Ok?
    ensures ApplyDiagnosticPatch(s, id, patched, p).value.executionResults == s.executionResults
  {
    hide ResumeDispatchedDiagnostic, DiagnosticIdentity, ProvenanceBinds;
  }

  lemma IngestKeepsAttempts(s: State, surface: Surface, runId: int, artifact: Artifact, gateway: GatewayTerminal)
    requires Ingest(s, surface, runId, artifact, gateway).Ok?
    ensures KeepsAttempts(s, Ingest(s, surface, runId, artifact, gateway).value)
  {
    hide HonestDiagnosis, IngestActionArtifact, ApplyCorrectiveExecutionResult, ApplyEvidencePatch, ApplyDiagnosticPatch;
    hide KeepsAttempts, ResultParses;
    var id := gateway.actionId;
    var t := Ingest(s, surface, runId, artifact, gateway).value;
    SameResultsKeep(s, s);
    match surface
    case ActionSurface =>
      ActionArtifactKeepsAttempts(s, id, runId, artifact, gateway);
    case CorrectiveSurface =>
      CorrectiveKeepsResults(s, id, artifact.result);
      SameResultsKeep(s, t);
    case EvidenceSurface =>
      EvidenceKeepsResults(s, id, artifact.evidence, artifact.evidenceProvenance);
      SameResultsKeep(s, t);
    case DiagnosticSurface =>
      DiagnosticKeepsResults(s, id, artifact.recovery, Some(artifact.diagnosticProvenance));
      SameResultsKeep(s, t);
  }

  lemma CorrectiveKeepsResults(s: State, id: ActionId, result: ExecutionResult)
    requires ApplyCorrectiveExecutionResult(s, id, result).Ok?
    ensures ApplyCorrectiveExecutionResult(s, id, result).value.executionResults == s.executionResults
  {
    hide ApplyCorrectiveExecutionResult, BlameProvider;
    CorrectiveCases(s, id, result);
  }

  lemma IntentKeepsResults(s: State, surface: Surface, id: ActionId, req: DispatchRequest)
    requires RecordIntent(s, surface, id, req).Ok?
    ensures RecordIntent(s, surface, id, req).value.executionResults == s.executionResults
  {
    hide SaveIntent, EvidenceIdentity, DiagnosticIdentity, CorrectiveIdentity, MakeIntent, PlanParses;
  }

  lemma ReceiptKeepsResults(s: State, surface: Surface, id: ActionId, receipt: Receipt)
    requires ApplyDispatchReceipt(s, surface, id, receipt).Ok?
    ensures ApplyDispatchReceipt(s, surface, id, receipt).value.executionResults == s.executionResults
  {
    hide BindReceipt, EvidenceIdentity, DiagnosticIdentity, CorrectiveIdentity, ReceiptMatches;
  }

  lemma StepKeepsAttempts(s: State, step: Step)
    ensures KeepsAttempts(s, Next(s, step))
  {
    hide Ingest, ApplyDispatchReceipt, RecordIntent, Selected, KeepsAttempts, ToStart;
    SameResultsKeep(s, s);
    if Perform(s, step).Ok? {
      match step
      case IngestStep(surface, runId, artifact, gateway) => IngestKeepsAttempts(s, surface, runId, artifact, gateway);
      case PrepareStep(ref, at, head) =>
        var (surface, id) := ToStart(s).value;
        var executor := if surface == ActionSurface then s.queue[id].plan.executor else GithubNative;
        IntentKeepsResults(s, surface, id, DispatchRequest(WorkflowFor(surface, executor).value, ref, at, head));
        SameResultsKeep(s, Next(s, step));
      case ReceiptStep(surface, id, receipt) =>
        ReceiptKeepsResults(s, surface, id, receipt);
        SameResultsKeep(s, Next(s, step));
      case _ => SameResultsKeep(s, Next(s, step));
    }
  }

  /** Over any run of the durable protocol no recorded attempt is ever dropped or reordered. */
  lemma {:induction false} AttemptsOnlyGrow(s: State, steps: seq<Step>)
    ensures KeepsAttempts(s, Run(s, steps))
    decreases |steps|
  {
    hide Next;
    if steps != [] {
      StepKeepsAttempts(s, steps[0]);
      AttemptsOnlyGrow(Next(s, steps[0]), steps[1..]);
    }
  }
}
