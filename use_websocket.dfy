/**
 * The browser side of the WebSocket connection (src/hooks/useWebSocket.ts):
 * `handleMessage` feeds server messages into the agent, workflow and event
 * stores and into one output buffer per role, and the socket callbacks
 * reconnect with a capped exponential backoff.
 *
 * The buffers are kept as `OutputBuffers.BufferState` values in a map; a
 * flush that hands over chunks is followed by the `appendChunks` its
 * callback performs. The calls to `addEvent` are recorded as drafts in
 * `logged`; what each call does to the event list is `EventStore.EventLog`.
 * `Date.now()` is the parameter `now`.
 */
module ClientSocket {
  import opened Optional
  import opened Strings
  import opened Types
  import opened Stages
  import opened OutputBuffers
  import opened AgentStore
  import opened WorkflowStore
  import opened EventStore

  /** A message from the server, as `handleMessage` reads it. */
  datatype ServerMessage =
    | Pong
    | WorkflowCreated(workflowId: string, title: string, executionPlan: Option<seq<AgentRole>>)
    | WorkflowCompleted
    | WorkflowFailed(error: string)
    | WorkflowPaused
    | WorkflowCancelled
    | StepStarted(role: AgentRole)
    | StepStream(role: AgentRole, chunk: string)
    | StepCompleted(role: AgentRole, output: string, durationMs: int, tokensIn: Option<int>, tokensOut: Option<int>)
    | StepFailed(role: AgentRole, error: string)
    | StepActivity(role: AgentRole, activity: AgentActivity)
    | StepRetry(role: AgentRole, attempt: int, maxRetries: int, reason: string)
    | TerminalCreated(terminalId: string)
    | TerminalOutput
    | TerminalError
    | TerminalClosed
    | Unknown

  /** The argument of one `addEvent` call. */
  datatype Draft = Draft(kind: EventKind, role: Option<AgentRole>, message: string)

  /** What `handleMessage` changes: the two stores, the buffer map and the terminal id. */
  datatype View = View(
    agents: Agents,
    workflow: WorkflowView,
    buffers: map<AgentRole, BufferState>,
    terminalId: Option<string>)

  // ---------------------------------------------------------------------
  // Buffers
  // ---------------------------------------------------------------------

  /** `buffer.flush()` on the role's buffer, if it has one; delivered chunks are appended to the role's output. */
  function FlushRoleS(v: View, role: AgentRole): (r: View)
    requires Complete(v.agents)
    ensures Complete(r.agents)
    ensures r.buffers.Keys == v.buffers.Keys && r.workflow == v.workflow && r.terminalId == v.terminalId
    ensures role in v.buffers ==> r.buffers[role] == EmptyBuffer
    ensures role in v.buffers ==> r.agents == AppendChunks(v.agents, role, v.buffers[role].buffer)
    ensures role !in v.buffers ==> r == v
    ensures forall q :: q in v.buffers && q != role ==> r.buffers[q] == v.buffers[q]
  {
    if role !in v.buffers then v
    else
      var (b, out) := FlushState(v.buffers[role]);
      var v1 := v.(buffers := v.buffers[role := b]);
      if out.Some? then v1.(agents := AppendChunks(v.agents, role, out.value))
      else
        assert v.buffers[role].buffer == [];
        assert v.agents[role].outputChunks + [] == v.agents[role].outputChunks;
        assert AppendChunks(v.agents, role, []) == v.agents;
        v1
  }

  /** Flushing the buffers of the first n roles of AGENT_ORDER, in that order. */
  function FlushAllS(v: View, n: nat): (r: View)
    requires Complete(v.agents) && n <= |AgentOrder|
    ensures Complete(r.agents)
    ensures r.buffers.Keys == v.buffers.Keys && r.workflow == v.workflow && r.terminalId == v.terminalId
  {
    if n == 0 then v else FlushRoleS(FlushAllS(v, n - 1), AgentOrder[n - 1])
  }

  /** After every buffer is flushed, no buffer holds a chunk. */
  lemma {:induction false} FlushAllEmpties(v: View, n: nat)
    requires Complete(v.agents) && n <= |AgentOrder|
    ensures forall j :: 0 <= j < n && AgentOrder[j] in v.buffers ==> FlushAllS(v, n).buffers[AgentOrder[j]] == EmptyBuffer
  {
    if n > 0 {
      FlushAllEmpties(v, n - 1);
    }
  }

  /** `getOrCreateBuffer(role).push(chunk)`. */
  function PushS(v: View, role: AgentRole, chunk: string): (r: View)
    ensures r.buffers.Keys == v.buffers.Keys + {role}
    ensures r.buffers[role] == PushState(if role in v.buffers then v.buffers[role] else EmptyBuffer, chunk)
    ensures forall q :: q in v.buffers && q != role ==> r.buffers[q] == v.buffers[q]
    ensures r.agents == v.agents && r.workflow == v.workflow && r.terminalId == v.terminalId
  {
    var b := if role in v.buffers then v.buffers[role] else EmptyBuffer;
    v.(buffers := v.buffers[role := PushState(b, chunk)])
  }

  // ---------------------------------------------------------------------
  // Event texts
  // ---------------------------------------------------------------------

  /** `(durationMs / 1000).toFixed(1)` on the exact quotient, halves rounded away from zero. */
  function SecondsText(durationMs: int): string
  {
    if durationMs < 0 then "-" + TenthsText((-durationMs + 50) / 100)
    else TenthsText((durationMs + 50) / 100)
  }

  function TenthsText(tenths: nat): string
  {
    NatToString(tenths / 10) + "." + NatToString(tenths % 10)
  }

  function RetryLabel(retryCount: int): string
  {
    if retryCount > 0 then " (retry " + IntToString(retryCount) + ")" else ""
  }

  // ---------------------------------------------------------------------
  // handleMessage
  // ---------------------------------------------------------------------

  /** The roles of AGENT_ORDER among the first n whose agent is still running are marked failed with "Cancelled". */
  function FailRunningS(agents: Agents, n: nat, now: int): (r: Agents)
    requires Complete(agents) && n <= |AgentOrder|
    ensures Complete(r)
  {
    if n == 0 then agents
    else
      var a := FailRunningS(agents, n - 1, now);
      var role := AgentOrder[n - 1];
      if a[role].status == StepRunning then SetAgentFailed(a, role, "Cancelled", now) else a
  }

  /** After a cancel no agent is left running, and agents that were not running are untouched. */
  lemma {:induction false} FailRunningEffect(agents: Agents, n: nat, now: int)
    requires Complete(agents) && n <= |AgentOrder|
    ensures forall j :: 0 <= j < n ==> FailRunningS(agents, n, now)[AgentOrder[j]].status != StepRunning
    ensures forall j :: 0 <= j < n && agents[AgentOrder[j]].status != StepRunning
              ==> FailRunningS(agents, n, now)[AgentOrder[j]] == agents[AgentOrder[j]]
    ensures forall j :: 0 <= j < n && agents[AgentOrder[j]].status == StepRunning
              ==> FailRunningS(agents, n, now)[AgentOrder[j]]
                  == agents[AgentOrder[j]].(status := StepStatus.StepFailed, error := Some("Cancelled"), completedAt := Some(now))
  {
    if n > 0 {
      FailRunningEffect(agents, n - 1, now);
      var a := FailRunningS(agents, n - 1, now);
      var role := AgentOrder[n - 1];
      assert forall j :: 0 <= j < n - 1 ==> AgentOrder[j] != role;
      assert a[role] == agents[role] by {
        assert forall j :: 0 <= j < n - 1 ==> AgentOrder[j] != role;
        FailRunningOthers(agents, n - 1, now, role);
      }
    }
  }

  /** Marking the first n roles leaves every later role alone. */
  lemma {:induction false} FailRunningOthers(agents: Agents, n: nat, now: int, role: AgentRole)
    requires Complete(agents) && n <= |AgentOrder|
    requires forall j :: 0 <= j < n ==> AgentOrder[j] != role
    ensures FailRunningS(agents, n, now)[role] == agents[role]
  {
    if n > 0 {
      FailRunningOthers(agents, n - 1, now, role);
    }
  }

  /** The plan `workflow:created` applies: the payload's, or AGENT_ORDER when it is absent or empty. */
  function PlanOf(executionPlan: Option<seq<AgentRole>>): seq<AgentRole>
  {
    if executionPlan.Some? && |executionPlan.value| > 0 then executionPlan.value else AgentOrder
  }

  /** One call of `handleMessage`: the new view and the `addEvent` calls, in order. */
  function HandleS(stages: StageTable, v: View, m: ServerMessage, now: int): (r: (View, seq<Draft>))
    requires ValidStages(stages) && Complete(v.agents)
    ensures Complete(r.0.agents)
  {
    match m
    case WorkflowCreated(id, title, plan) =>
      PlanSkipsExactlyTheOthers(PlanOf(plan));
      (v.(buffers := map[], agents := Planned(PlanOf(plan)), workflow := SetWorkflow(v.workflow, id, title, now)),
       [Draft(Info, None, "Workflow started: " + title)])
    case WorkflowCompleted =>
      (FlushAllS(v.(workflow := SetCompleted(v.workflow, now)), |AgentOrder|),
       [Draft(Success, None, "Workflow completed successfully")])
    case WorkflowFailed(error) =>
      (FlushAllS(v.(workflow := SetStatus(v.workflow, Failed, now)), |AgentOrder|),
       [Draft(Error, None, "Workflow failed: " + error)])
    case WorkflowPaused =>
      (v.(workflow := SetStatus(v.workflow, Paused, now)), [Draft(Warning, None, "Workflow paused")])
    case WorkflowCancelled =>
      var flushed := FlushAllS(v.(workflow := SetStatus(v.workflow, Cancelled, now)), |AgentOrder|);
      (flushed.(agents := FailRunningS(flushed.agents, |AgentOrder|, now)), [Draft(Warning, None, "Workflow cancelled")])
    case StepStarted(role) =>
      var currentRetry := v.agents[role].retryCount;
      (v.(workflow := SetCurrentStage(v.workflow, StageOf(stages, role)), agents := SetAgentStarted(v.agents, role, now)),
       [Draft(Info, Some(role), Label(role) + " agent started" + RetryLabel(currentRetry))])
    case StepStream(role, chunk) =>
      (PushS(v, role, chunk), [])
    case StepCompleted(role, output, durationMs, tokensIn, tokensOut) =>
      var flushed := FlushRoleS(v, role);
      (flushed.(agents := SetAgentCompleted(flushed.agents, role, output, durationMs, tokensIn, tokensOut, now)),
       [Draft(Success, Some(role), Label(role) + " agent completed in " + SecondsText(durationMs) + "s")])
    case StepFailed(role, error) =>
      var flushed := FlushRoleS(v, role);
      (flushed.(agents := SetAgentFailed(flushed.agents, role, error, now)),
       [Draft(Error, Some(role), Label(role) + " agent failed: " + error)])
    case StepActivity(role, activity) =>
      (v.(agents := SetAgentActivity(v.agents, role, activity, now)), [])
    case StepRetry(role, attempt, maxRetries, reason) =>
      (v.(agents := SetAgentRetry(v.agents, role, attempt)),
       [Draft(Warning, Some(role), Label(role) + " agent retrying (" + IntToString(attempt) + "/" + IntToString(maxRetries) + "): " + reason)])
    case TerminalCreated(id) =>
      (v.(terminalId := Some(id)), [])
    case TerminalClosed =>
      (v.(terminalId := None), [])
    case _ => (v, [])
  }

  // ---------------------------------------------------------------------
  // Properties of handleMessage
  // ---------------------------------------------------------------------

  /** `workflow:created` forgets every buffer, applies the plan (AGENT_ORDER when none is given) and starts the workflow. */
  lemma CreatedResets(stages: StageTable, v: View, id: string, title: string, plan: Option<seq<AgentRole>>, now: int)
    requires ValidStages(stages) && Complete(v.agents)
    ensures var r := HandleS(stages, v, WorkflowCreated(id, title, plan), now).0;
            && r.buffers == map[]
            && (plan.None? || plan == Some([]) ==> r.agents == Planned(AgentOrder))
            && (plan.Some? && plan.value != [] ==> r.agents == Planned(plan.value))
            && r.workflow.workflowId == Some(id) && r.workflow.status == Running
  {
  }

  /** With the default plan no role is skipped. */
  lemma DefaultPlanSkipsNothing()
    ensures forall r :: r in Planned(AgentOrder) ==> Planned(AgentOrder)[r].status == StepPending
  {
    PlanSkipsExactlyTheOthers(AgentOrder);
    AgentOrderIsEnumeration();
  }

  /** `step:stream` puts the chunk at the end of the role's buffer; there is never more than one buffer per role. */
  lemma StreamBuffers(stages: StageTable, v: View, role: AgentRole, chunk: string, now: int)
    requires ValidStages(stages) && Complete(v.agents)
    ensures var r := HandleS(stages, v, StepStream(role, chunk), now).0;
            && r.buffers.Keys == v.buffers.Keys + {role}
            && r.buffers[role].buffer == (if role in v.buffers then v.buffers[role].buffer else []) + [chunk]
            && r.agents == v.agents
  {
  }

  /**
   * `step:completed` and `step:failed` first hand the role's buffered
   * chunks to its output, and only then update the agent.
   */
  lemma FinishFlushesFirst(stages: StageTable, v: View, role: AgentRole, output: string, durationMs: int,
                           tokensIn: Option<int>, tokensOut: Option<int>, error: string, now: int)
    requires ValidStages(stages) && Complete(v.agents)
    ensures var r := HandleS(stages, v, ServerMessage.StepCompleted(role, output, durationMs, tokensIn, tokensOut), now).0;
            && (role in v.buffers ==> r.buffers[role] == EmptyBuffer)
            && r.agents == SetAgentCompleted(FlushRoleS(v, role).agents, role, output, durationMs, tokensIn, tokensOut, now)
    ensures var r := HandleS(stages, v, ServerMessage.StepFailed(role, error), now).0;
            && (role in v.buffers ==> r.buffers[role] == EmptyBuffer)
            && r.agents == SetAgentFailed(FlushRoleS(v, role).agents, role, error, now)
    ensures output == "" && role in v.buffers ==>
              HandleS(stages, v, ServerMessage.StepCompleted(role, output, durationMs, tokensIn, tokensOut), now).0.agents[role].outputChunks
              == v.agents[role].outputChunks + v.buffers[role].buffer
  {
  }

  /** The end of a workflow, however it ends, empties every buffer into the outputs. */
  lemma EndFlushesAll(stages: StageTable, v: View, error: string, now: int)
    requires ValidStages(stages) && Complete(v.agents)
    ensures forall q :: q in v.buffers ==> HandleS(stages, v, WorkflowCompleted, now).0.buffers[q] == EmptyBuffer
    ensures forall q :: q in v.buffers ==> HandleS(stages, v, WorkflowFailed(error), now).0.buffers[q] == EmptyBuffer
    ensures forall q :: q in v.buffers ==> HandleS(stages, v, WorkflowCancelled, now).0.buffers[q] == EmptyBuffer
  {
    var completed := v.(workflow := SetCompleted(v.workflow, now));
    var failed := v.(workflow := SetStatus(v.workflow, Failed, now));
    var cancelled := v.(workflow := SetStatus(v.workflow, Cancelled, now));
    FlushAllEveryBuffer(completed);
    FlushAllEveryBuffer(failed);
    FlushAllEveryBuffer(cancelled);
    EndBuffers(stages, v, error, now);
  }

  /** The buffers each ending leaves are those of flushing every role. */
  lemma EndBuffers(stages: StageTable, v: View, error: string, now: int)
    requires ValidStages(stages) && Complete(v.agents)
    ensures HandleS(stages, v, WorkflowCompleted, now).0.buffers == FlushAllS(v.(workflow := SetCompleted(v.workflow, now)), |AgentOrder|).buffers
    ensures HandleS(stages, v, WorkflowFailed(error), now).0.buffers == FlushAllS(v.(workflow := SetStatus(v.workflow, Failed, now)), |AgentOrder|).buffers
    ensures HandleS(stages, v, WorkflowCancelled, now).0.buffers == FlushAllS(v.(workflow := SetStatus(v.workflow, Cancelled, now)), |AgentOrder|).buffers
  {
  }

  /** Flushing in AGENT_ORDER reaches every role, so every buffer ends up empty. */
  lemma FlushAllEveryBuffer(v: View)
    requires Complete(v.agents)
    ensures forall q :: q in v.buffers ==> FlushAllS(v, |AgentOrder|).buffers[q] == EmptyBuffer
  {
    AgentOrderIsEnumeration();
    FlushAllEmpties(v, |AgentOrder|);
    forall q | q in v.buffers
      ensures FlushAllS(v, |AgentOrder|).buffers[q] == EmptyBuffer
    {
      assert AgentOrder[IndexOf(q)] == q;
    }
  }

  /** `workflow:cancelled` leaves no agent running: the ones that were running have failed with "Cancelled". */
  lemma CancelStopsAgents(stages: StageTable, v: View, now: int)
    requires ValidStages(stages) && Complete(v.agents)
    ensures forall q: AgentRole :: HandleS(stages, v, WorkflowCancelled, now).0.agents[q].status != StepRunning
    ensures HandleS(stages, v, WorkflowCancelled, now).0.workflow.status == Cancelled
  {
    var flushed := FlushAllS(v.(workflow := SetStatus(v.workflow, Cancelled, now)), |AgentOrder|);
    FailRunningEffect(flushed.agents, |AgentOrder|, now);
    forall q: AgentRole
      ensures HandleS(stages, v, WorkflowCancelled, now).0.agents[q].status != StepRunning
    {
      assert AgentOrder[IndexOf(q)] == q;
    }
  }

  /** `step:retry` sets the retry count to the attempt number, and a following `step:started` keeps it. */
  lemma RetryCountKept(stages: StageTable, v: View, role: AgentRole, attempt: int, maxRetries: int, reason: string, now: int, later: int)
    requires ValidStages(stages) && Complete(v.agents)
    ensures var r := HandleS(stages, v, StepRetry(role, attempt, maxRetries, reason), now).0;
            && r.agents[role].retryCount == attempt
            && HandleS(stages, r, StepStarted(role), later).0.agents[role].retryCount == attempt
  {
  }

  // ---------------------------------------------------------------------
  // Reconnection
  // ---------------------------------------------------------------------

  /** `RECONNECT_DELAYS`. */
  const ReconnectDelays: seq<nat> := [1000, 2000, 4000, 8000, 16000]

  /** `RECONNECT_DELAYS[Math.min(attempt, RECONNECT_DELAYS.length - 1)]`. */
  function ReconnectDelay(attempt: nat): nat
  {
    ReconnectDelays[if attempt < |ReconnectDelays| - 1 then attempt else |ReconnectDelays| - 1]
  }

  /** The delay doubles from one second up to sixteen, and stays there. */
  lemma BackoffShape(attempt: nat)
    ensures 1000 <= ReconnectDelay(attempt) <= 16000
    ensures attempt < 4 ==> ReconnectDelay(attempt + 1) == 2 * ReconnectDelay(attempt)
    ensures attempt >= 4 ==> ReconnectDelay(attempt) == 16000
    ensures ReconnectDelay(0) == 1000
  {
  }

  // ---------------------------------------------------------------------
  // The hook
  // ---------------------------------------------------------------------

  class SocketClient {
    /** `PIPELINE_STAGES`, for `getStageForRole`. */
    const stages: StageTable
    var agents: Agents
    var workflow: WorkflowView
    /** `buffersRef`. */
    var buffers: map<AgentRole, BufferState>
    /** The terminal store's `terminalId`. */
    var terminalId: Option<string>
    /** The `addEvent` calls so far. */
    var logged: seq<Draft>
    /** The terminal store's `connected`. */
    var connected: bool
    var reconnectAttempt: nat
    var allowReconnect: bool
    /** Whether a reconnect timer is pending. */
    var reconnectArmed: bool
    /** The delay of every reconnect timer set so far. */
    var scheduled: seq<nat>

    function ViewOf(): View
      reads this
    {
      View(agents, workflow, buffers, terminalId)
    }

    ghost predicate Valid()
      reads this
    {
      ValidStages(stages) && Complete(agents)
    }

    /** The hook's first render against fresh stores; the effect has not run yet. */
    constructor(stages: StageTable)
      requires ValidStages(stages)
      ensures Valid() && this.stages == stages
      ensures agents == InitialAgents() && workflow == InitialWorkflow && buffers == map[] && terminalId == None
      ensures logged == [] && !connected && reconnectAttempt == 0 && allowReconnect && !reconnectArmed && scheduled == []
    {
      this.stages := stages;
      agents := InitialAgents();
      workflow := InitialWorkflow;
      buffers := map[];
      terminalId := None;
      logged := [];
      connected := false;
      reconnectAttempt := 0;
      allowReconnect := true;
      reconnectArmed := false;
      scheduled := [];
      new;
      InitialAgentsFresh();
    }

    /** `buffer.flush()` for one role, with the `appendChunks` its callback makes. */
    method FlushRole(role: AgentRole)
      requires Valid()
      modifies this
      ensures Valid()
      ensures ViewOf() == FlushRoleS(old(ViewOf()), role)
      ensures logged == old(logged) && connected == old(connected) && reconnectAttempt == old(reconnectAttempt)
      ensures allowReconnect == old(allowReconnect) && reconnectArmed == old(reconnectArmed) && scheduled == old(scheduled)
    {
      if role in buffers {
        var (b, out) := FlushState(buffers[role]);
        buffers := buffers[role := b];
        if out.Some? {
          agents := AppendChunks(agents, role, out.value);
        }
      }
    }

    /** `for (const buffer of buffersRef.current.values()) buffer.flush()`, in role order. */
    method FlushAll()
      requires Valid()
      modifies this
      ensures Valid()
      ensures ViewOf() == FlushAllS(old(ViewOf()), |AgentOrder|)
      ensures logged == old(logged) && connected == old(connected) && reconnectAttempt == old(reconnectAttempt)
      ensures allowReconnect == old(allowReconnect) && reconnectArmed == old(reconnectArmed) && scheduled == old(scheduled)
    {
      var i := 0;
      while i < |AgentOrder|
        invariant 0 <= i <= |AgentOrder|
        invariant Valid()
        invariant ViewOf() == FlushAllS(old(ViewOf()), i)
        invariant logged == old(logged) && connected == old(connected) && reconnectAttempt == old(reconnectAttempt)
        invariant allowReconnect == old(allowReconnect) && reconnectArmed == old(reconnectArmed) && scheduled == old(scheduled)
      {
        FlushRole(AgentOrder[i]);
        i := i + 1;
      }
    }

    /** The loop of `workflow:cancelled` over AGENT_ORDER that fails every agent still running. */
    method FailRunning(now: int)
      requires Valid()
      modifies this
      ensures Valid()
      ensures agents == FailRunningS(old(agents), |AgentOrder|, now)
      ensures ViewOf() == old(ViewOf()).(agents := agents)
      ensures logged == old(logged) && connected == old(connected) && reconnectAttempt == old(reconnectAttempt)
      ensures allowReconnect == old(allowReconnect) && reconnectArmed == old(reconnectArmed) && scheduled == old(scheduled)
    {
      var i := 0;
      while i < |AgentOrder|
        invariant 0 <= i <= |AgentOrder|
        invariant Valid()
        invariant agents == FailRunningS(old(agents), i, now)
        invariant ViewOf() == old(ViewOf()).(agents := agents)
        invariant logged == old(logged) && connected == old(connected) && reconnectAttempt == old(reconnectAttempt)
        invariant allowReconnect == old(allowReconnect) && reconnectArmed == old(reconnectArmed) && scheduled == old(scheduled)
      {
        var role := AgentOrder[i];
        if agents[role].status == StepRunning {
          agents := SetAgentFailed(agents, role, "Cancelled", now);
        }
        i := i + 1;
      }
    }

    /** `workflow:created`: the buffers are destroyed and forgotten before the plan is applied. */
    method Created(id: string, title: string, plan: Option<seq<AgentRole>>, now: int)
      requires Valid()
      modifies this
      ensures Valid()
      ensures ViewOf() == HandleS(stages, old(ViewOf()), WorkflowCreated(id, title, plan), now).0
      ensures logged == old(logged) + HandleS(stages, old(ViewOf()), WorkflowCreated(id, title, plan), now).1
      ensures connected == old(connected) && reconnectAttempt == old(reconnectAttempt)
      ensures allowReconnect == old(allowReconnect) && reconnectArmed == old(reconnectArmed) && scheduled == old(scheduled)
    {
      buffers := map[];
      var roles := PlanOf(plan);
      agents := ApplyExecutionPlan(roles);
      PlanSkipsExactlyTheOthers(roles);
      workflow := SetWorkflow(workflow, id, title, now);
      logged := logged + [Draft(Info, None, "Workflow started: " + title)];
    }

    /** `workflow:completed`, `workflow:failed` and `workflow:cancelled`. */
    method Ended(m: ServerMessage, now: int)
      requires Valid() && (m.WorkflowCompleted? || m.WorkflowFailed? || m.WorkflowCancelled?)
      modifies this
      ensures Valid()
      ensures ViewOf() == HandleS(stages, old(ViewOf()), m, now).0
      ensures logged == old(logged) + HandleS(stages, old(ViewOf()), m, now).1
      ensures connected == old(connected) && reconnectAttempt == old(reconnectAttempt)
      ensures allowReconnect == old(allowReconnect) && reconnectArmed == old(reconnectArmed) && scheduled == old(scheduled)
    {
      match m {
        case WorkflowCompleted =>
          workflow := SetCompleted(workflow, now);
          logged := logged + [Draft(Success, None, "Workflow completed successfully")];
          FlushAll();
        case WorkflowFailed(error) =>
          workflow := SetStatus(workflow, Failed, now);
          logged := logged + [Draft(Error, None, "Workflow failed: " + error)];
          FlushAll();
        case WorkflowCancelled =>
          workflow := SetStatus(workflow, Cancelled, now);
          logged := logged + [Draft(Warning, None, "Workflow cancelled")];
          FlushAll();
          FailRunning(now);
      }
    }

    /** `step:started`, `step:completed` and `step:failed`. */
    method StepLifecycle(m: ServerMessage, now: int)
      requires Valid() && (m.StepStarted? || m.StepCompleted? || m.StepFailed?)
      modifies this
      ensures Valid()
      ensures ViewOf() == HandleS(stages, old(ViewOf()), m, now).0
      ensures logged == old(logged) + HandleS(stages, old(ViewOf()), m, now).1
      ensures connected == old(connected) && reconnectAttempt == old(reconnectAttempt)
      ensures allowReconnect == old(allowReconnect) && reconnectArmed == old(reconnectArmed) && scheduled == old(scheduled)
    {
      match m {
        case StepStarted(role) =>
          var currentRetry := agents[role].retryCount;
          workflow := SetCurrentStage(workflow, StageOf(stages, role));
          agents := SetAgentStarted(agents, role, now);
          logged := logged + [Draft(Info, Some(role), Label(role) + " agent started" + RetryLabel(currentRetry))];
        case StepCompleted(role, output, durationMs, tokensIn, tokensOut) =>
          FlushRole(role);
          agents := SetAgentCompleted(agents, role, output, durationMs, tokensIn, tokensOut, now);
          logged := logged + [Draft(Success, Some(role), Label(role) + " agent completed in " + SecondsText(durationMs) + "s")];
        case StepFailed(role, error) =>
          FlushRole(role);
          agents := SetAgentFailed(agents, role, error, now);
          logged := logged + [Draft(Error, Some(role), Label(role) + " agent failed: " + error)];
      }
    }

    /** `step:stream`, `step:activity` and `step:retry`. */
    method StepProgress(m: ServerMessage, now: int)
      requires Valid() && (m.StepStream? || m.StepActivity? || m.StepRetry?)
      modifies this
      ensures Valid()
      ensures ViewOf() == HandleS(stages, old(ViewOf()), m, now).0
      ensures logged == old(logged) + HandleS(stages, old(ViewOf()), m, now).1
      ensures connected == old(connected) && reconnectAttempt == old(reconnectAttempt)
      ensures allowReconnect == old(allowReconnect) && reconnectArmed == old(reconnectArmed) && scheduled == old(scheduled)
    {
      match m {
        case StepStream(role, chunk) =>
          var b := if role in buffers then buffers[role] else EmptyBuffer;
          buffers := buffers[role := PushState(b, chunk)];
          assert logged == old(logged) + [];
        case StepActivity(role, activity) =>
          agents := SetAgentActivity(agents, role, activity, now);
          assert logged == old(logged) + [];
        case StepRetry(role, attempt, maxRetries, reason) =>
          agents := SetAgentRetry(agents, role, attempt);
          logged := logged + [Draft(Warning, Some(role), Label(role) + " agent retrying (" + IntToString(attempt) + "/"
                                                          + IntToString(maxRetries) + "): " + reason)];
      }
    }

    /** `handleMessage`. */
    method HandleMessage(m: ServerMessage, now: int)
      requires Valid()
      modifies this
      ensures Valid()
      ensures ViewOf() == HandleS(stages, old(ViewOf()), m, now).0
      ensures logged == old(logged) + HandleS(stages, old(ViewOf()), m, now).1
      ensures connected == old(connected) && reconnectAttempt == old(reconnectAttempt)
      ensures allowReconnect == old(allowReconnect) && reconnectArmed == old(reconnectArmed) && scheduled == old(scheduled)
    {
      match m {
        case WorkflowCreated(id, title, plan) =>
          Created(id, title, plan, now);
        case WorkflowCompleted =>
          Ended(m, now);
        case WorkflowFailed(_) =>
          Ended(m, now);
        case WorkflowPaused =>
          workflow := SetStatus(workflow, Paused, now);
          logged := logged + [Draft(Warning, None, "Workflow paused")];
        case WorkflowCancelled =>
          Ended(m, now);
        case TerminalCreated(id) =>
          terminalId := Some(id);
        case TerminalClosed =>
          terminalId := None;
        case Pong =>
        case TerminalOutput =>
        case TerminalError =>
        case Unknown =>
        case StepStarted(_) =>
          StepLifecycle(m, now);
        case StepCompleted(_, _, _, _, _) =>
          StepLifecycle(m, now);
        case StepFailed(_, _) =>
          StepLifecycle(m, now);
        case StepStream(_, _) =>
          StepProgress(m, now);
        case StepActivity(_, _) =>
          StepProgress(m, now);
        case StepRetry(_, _, _, _) =>
          StepProgress(m, now);
      }
    }

    /** A buffer's timer fires: it flushes its own buffer. */
    method BufferTimerFired(role: AgentRole)
      requires Valid()
      modifies this
      ensures Valid()
      ensures ViewOf() == FlushRoleS(old(ViewOf()), role) && logged == old(logged)
    {
      FlushRole(role);
    }

    /** `ws.onopen`: the backoff starts over. */
    method OnOpen()
      modifies this
      ensures reconnectAttempt == 0 && connected
      ensures logged == old(logged) + [Draft(Info, None, "Connected to server")]
      ensures ViewOf() == old(ViewOf()) && scheduled == old(scheduled) && allowReconnect == old(allowReconnect)
      ensures reconnectArmed == old(reconnectArmed)
    {
      reconnectAttempt := 0;
      connected := true;
      logged := logged + [Draft(Info, None, "Connected to server")];
    }

    /** `ws.onclose`: a reconnect is scheduled with the attempt's delay, unless the hook is unmounted. */
    method OnClose()
      modifies this
      ensures !connected
      ensures allowReconnect ==> scheduled == old(scheduled) + [ReconnectDelay(old(reconnectAttempt))]
                                 && reconnectAttempt == old(reconnectAttempt) + 1 && reconnectArmed
      ensures !allowReconnect ==> scheduled == old(scheduled) && reconnectAttempt == old(reconnectAttempt)
                                  && reconnectArmed == old(reconnectArmed)
      ensures allowReconnect == old(allowReconnect) && ViewOf() == old(ViewOf()) && logged == old(logged)
    {
      connected := false;
      if !allowReconnect {
        return;
      }
      var delay := ReconnectDelay(reconnectAttempt);
      reconnectAttempt := reconnectAttempt + 1;
      scheduled := scheduled + [delay];
      reconnectArmed := true;
    }

    /** The reconnect timer fires and `connect` opens a new socket. */
    method ReconnectTimerFired()
      modifies this
      ensures !reconnectArmed
      ensures ViewOf() == old(ViewOf()) && logged == old(logged) && scheduled == old(scheduled)
      ensures reconnectAttempt == old(reconnectAttempt) && allowReconnect == old(allowReconnect) && connected == old(connected)
    {
      reconnectArmed := false;
    }

    /**
     * The effect's cleanup: reconnects are switched off, a pending reconnect
     * timer is cleared, the socket's close handler is detached, and every
     * buffer is destroyed and forgotten.
     */
    method Unmount()
      modifies this
      ensures !allowReconnect && !reconnectArmed && !connected && buffers == map[]
      ensures agents == old(agents) && workflow == old(workflow) && terminalId == old(terminalId)
      ensures logged == old(logged) && scheduled == old(scheduled) && reconnectAttempt == old(reconnectAttempt)
    {
      allowReconnect := false;
      reconnectArmed := false;
      connected := false;
      buffers := map[];
    }

    /** The effect runs again on a new mount. */
    method Mount()
      modifies this
      ensures allowReconnect
      ensures ViewOf() == old(ViewOf()) && logged == old(logged) && scheduled == old(scheduled)
      ensures reconnectAttempt == old(reconnectAttempt) && connected == old(connected) && reconnectArmed == old(reconnectArmed)
    {
      allowReconnect := true;
    }
  }

  /** The delays that k closes in a row schedule, starting from attempt `from`. */
  function Backoff(from: nat, k: nat): (r: seq<nat>)
    ensures |r| == k
    ensures forall i :: 0 <= i < k ==> r[i] == ReconnectDelay(from + i)
  {
    if k == 0 then [] else Backoff(from, k - 1) + [ReconnectDelay(from + k - 1)]
  }

  /** After a successful open, consecutive failures wait 1, 2, 4, 8 and then 16 seconds each time. */
  lemma BackoffAfterOpen(k: nat)
    ensures forall i :: 0 <= i < k && i < 4 ==> Backoff(0, k)[i] == [1000, 2000, 4000, 8000][i]
    ensures forall i :: 4 <= i < k ==> Backoff(0, k)[i] == 16000
  {
  }
}
