/**
 * The client-side workflow store (src/stores/workflowStore.ts): the
 * workflow on screen, its status and stage, and its start and completion
 * times. `Date.now()` is the parameter `now`.
 */
module WorkflowStore {
  import opened Optional
  import opened Types

  datatype WorkflowView = WorkflowView(
    workflowId: Option<string>,
    status: WorkflowStatus,
    title: string,
    currentStageIndex: int,
    startedAt: Option<int>,
    completedAt: Option<int>)

  /** The store's initial values, which `reset` restores. */
  const InitialWorkflow := WorkflowView(None, Pending, "", 0, None, None)

  /** `setWorkflow`: a new workflow starts running at stage 0 with no completion time. */
  function SetWorkflow(v: WorkflowView, id: string, title: string, now: int): (r: WorkflowView)
    ensures r.workflowId == Some(id) && r.title == title && r.status == Running
    ensures r.currentStageIndex == 0 && r.startedAt == Some(now) && r.completedAt == None
  {
    v.(workflowId := Some(id), title := title, status := Running, startedAt := Some(now),
       completedAt := None, currentStageIndex := 0)
  }

  /** `setStatus`: completed, failed and cancelled stamp the completion time; other statuses keep it. */
  function SetStatus(v: WorkflowView, status: WorkflowStatus, now: int): (r: WorkflowView)
    ensures r.status == status
    ensures IsTerminal(status) ==> r.completedAt == Some(now)
    ensures !IsTerminal(status) ==> r.completedAt == v.completedAt
    ensures r.(status := v.status, completedAt := v.completedAt) == v
  {
    var isTerminal := status == Completed || status == Failed || status == Cancelled;
    if isTerminal then v.(status := status, completedAt := Some(now)) else v.(status := status)
  }

  /** `setCurrentStage`: only the stage index changes. */
  function SetCurrentStage(v: WorkflowView, index: int): (r: WorkflowView)
    ensures r.currentStageIndex == index && r.(currentStageIndex := v.currentStageIndex) == v
  {
    v.(currentStageIndex := index)
  }

  /** `setCompleted`. */
  function SetCompleted(v: WorkflowView, now: int): (r: WorkflowView)
    ensures r.status == Completed && r.completedAt == Some(now)
    ensures r.(status := v.status, completedAt := v.completedAt) == v
  {
    v.(status := Completed, completedAt := Some(now))
  }

  /** `setCompleted` is `setStatus("completed")`. */
  lemma CompletedIsTerminalStatus(v: WorkflowView, now: int)
    ensures SetCompleted(v, now) == SetStatus(v, Completed, now)
  {
  }

  /** `reset`. */
  function Reset(v: WorkflowView): (r: WorkflowView)
    ensures r == InitialWorkflow
  {
    v.(workflowId := None, status := Pending, title := "", currentStageIndex := 0, startedAt := None, completedAt := None)
  }

  /** A reset forgets everything: whatever came before, the store looks as it did at first. */
  lemma ResetForgets(v: WorkflowView, w: WorkflowView)
    ensures Reset(v) == Reset(w) == InitialWorkflow
    ensures Reset(v).workflowId == None && Reset(v).status == Pending && Reset(v).completedAt == None
  {
  }
}
