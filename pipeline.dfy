/**
 * The initial in-memory state of one workflow run (src/lib/workflow/pipeline.ts).
 */
module Pipeline {
  import opened Optional
  import opened Types

  /** `PipelineStepState`. */
  datatype PipelineStepState = PipelineStepState(role: AgentRole, status: StepStatus, retryCount: nat)

  /**
   * `PipelineState`. The engine also stores a `currentStageIndex` property
   * that the declared shape does not have; it is the last field here and is
   * absent (None) until the engine first writes it.
   */
  datatype PipelineState = PipelineState(
    workflowId: string,
    status: WorkflowStatus,
    currentStepIndex: int,
    steps: seq<PipelineStepState>,
    currentStageIndex: Option<nat>)

  /** `createPipelineState(workflowId)`. */
  function CreatePipelineState(workflowId: string): (p: PipelineState)
    ensures p.workflowId == workflowId
    ensures p.status == Pending && p.currentStepIndex == 0 && p.currentStageIndex == None
    ensures |p.steps| == |AgentOrder|
  {
    PipelineState(
      workflowId, Pending, 0,
      seq(|AgentOrder|, i requires 0 <= i < |AgentOrder| => PipelineStepState(AgentOrder[i], StepPending, 0)),
      None)
  }

  /**
   * The steps follow AGENT_ORDER: exactly one step per role, at the role's
   * position, every step pending with no retries, and none skipped.
   */
  lemma CreatedStepsOnePerRole(workflowId: string)
    ensures var steps := CreatePipelineState(workflowId).steps;
      && (forall i :: 0 <= i < |steps| ==> steps[i].role == AgentOrder[i])
      && (forall r: AgentRole :: steps[IndexOf(r)].role == r)
      && (forall i, j :: 0 <= i < j < |steps| ==> steps[i].role != steps[j].role)
      && (forall i :: 0 <= i < |steps| ==> steps[i].status == StepPending && steps[i].retryCount == 0)
      && (forall i :: 0 <= i < |steps| ==> steps[i].status != Skipped)
  {
    AgentOrderIsEnumeration();
  }
}
