/** terminal_ingestion.py: one terminal artifact, bound to its run, becomes at most one state change. */
module Ingestion {
  import opened Prelude
  import opened Records
  import opened Diagnosis
  import opened DurableState

  datatype Observation = Observation(status: string, conclusion: string)

  datatype GatewayTerminal = GatewayTerminal(
    isTerminal: bool, surface: Surface, terminalRunId: int, actionId: ActionId, observation: Option<Observation>)

  /** What the artifact text parses to. */
  datatype Artifact =
    | InvalidJson(missing: bool)
    | Malformed
    | ResultArtifact(result: ExecutionResult)
    | EvidenceArtifact(evidenceAction: ActionId, evidence: Details, evidenceProvenance: ArtifactProvenance)
    | DiagnosticArtifact(diagnosticAction: ActionId, advanced: bool, recovery: Recovery,
                         diagnosticProvenance: ArtifactProvenance)

  /** None is a replay that changes nothing. */
  type Proposal = Result<Option<State>>

  function GatewayIdentity(gateway: GatewayTerminal, surface: Surface, runId: int): Result<ActionId> {
    if !gateway.isTerminal then Err("gateway result is not terminal") else
    :- Need(gateway.surface == surface, "terminal surface does not match gateway result");
    :- Need(gateway.terminalRunId == runId, "terminal run_id does not match gateway result");
    :- Need(gateway.actionId != "", "gateway terminal action_id is missing");
    Ok(gateway.actionId)
  }

  function Changed(proposed: Result<State>): Proposal {
    match proposed
    case Ok(s) => Ok(Some(s))
    case Err(e) => Err(e)
  }

  function Conclusion(gateway: GatewayTerminal): string {
    if gateway.observation.Some? && gateway.observation.value.conclusion != ""
    then gateway.observation.value.conclusion else "unknown"
  }

  function IngestActionArtifact(s: State, id: ActionId, runId: int, artifact: Artifact, gateway: GatewayTerminal)
    : Proposal
  {
    if IdentityMismatch(gateway) then
      Changed(RecordNativeDispatchEvidenceFailure(s, id, runId, Conclusion(gateway), "bound_executor_identity_mismatch"))
    else match artifact
      case InvalidJson(missing) =>
        Changed(RecordNativeDispatchEvidenceFailure(s, id, runId, Conclusion(gateway),
          if missing then "missing_execution_result_artifact" else "invalid_execution_result_json"))
      case ResultArtifact(result) =>
        if !ResultParses(result) then Err("execution result violates its contract")
        else if result.actionId != id then Err("action artifact identity does not match gateway terminal")
        else if id in s.queue && s.queue[id].status == Complete then
          if s.queue[id].completionResult != Some(result) then Err("conflicting action completion replay") else Ok(None)
        else
          (match result.status
           case FAILED => Changed(ApplyActionFailure(s, result))
           case REJECTED => Changed(ApplyActionRejection(s, result))
           case _ => Changed(ApplyActionCompletion(s, result)))
      case _ => Err("action terminal artifact must be an execution result")
  }

  function IngestTerminalArtifact(
    s: State, surface: Surface, runId: int, artifact: Artifact, gateway: GatewayTerminal): Proposal
  {
    if runId < 1 then Err("terminal run_id must be positive")
    else if GatewayIdentity(gateway, surface, runId).Err? then Err(GatewayIdentity(gateway, surface, runId).error)
    else
      var id := gateway.actionId;
      match surface
      case ActionSurface => IngestActionArtifact(s, id, runId, artifact, gateway)
      case CorrectiveSurface =>
        if !artifact.ResultArtifact? || !ResultParses(artifact.result) then Err("corrective artifact is invalid")
        else if artifact.result.actionId != id then Err("corrective artifact identity does not match")
        else Changed(ApplyCorrectiveExecutionResult(s, id, artifact.result))
      case EvidenceSurface =>
        if !artifact.EvidenceArtifact? then Err("evidence terminal artifact is invalid")
        else if artifact.evidenceAction != id then Err("evidence artifact identity does not match")
        else if artifact.evidenceProvenance.workflowRunId != runId then Err("evidence artifact run identity mismatch")
        else Changed(ApplyEvidencePatch(s, id, artifact.evidence, artifact.evidenceProvenance))
      case DiagnosticSurface =>
        if !artifact.DiagnosticArtifact? then Err("diagnostic terminal artifact is invalid")
        else if artifact.diagnosticAction != id then Err("diagnostic artifact identity does not match")
        else if artifact.diagnosticProvenance.workflowRunId != runId then Err("diagnostic artifact run identity mismatch")
        else if !artifact.advanced then Err("diagnostic artifact did not advance")
        else Changed(ApplyDiagnosticPatch(s, id, artifact.recovery, Some(artifact.diagnosticProvenance)))
  }

  predicate IdentityMismatch(gateway: GatewayTerminal) {
    gateway.observation.Some? && gateway.observation.value.status == "BOUND_RUN_IDENTITY_MISMATCH"
  }

  /** The run a terminal artifact speaks for: the run its result names, else the run it was fetched from. */
  function ReportedRun(artifact: Artifact, gateway: GatewayTerminal, runId: int): int {
    if artifact.ResultArtifact? && artifact.result.details.provenance.Some?
       && !(gateway.surface == ActionSurface && IdentityMismatch(gateway))
    then artifact.result.details.provenance.value.workflowRunId
    else runId
  }
}
