/**
 * The client-side agent store (src/stores/agentStore.ts): one record per
 * role, and actions that each replace one role's record. `Date.now()` is
 * the parameter `now`. The record map always holds every role, each under
 * its own name (`Complete`), and every action keeps it so.
 */
module AgentStore {
  import opened Optional
  import opened Types

  /** `AgentState`. */
  datatype AgentView = AgentView(
    role: AgentRole,
    status: StepStatus,
    outputChunks: seq<string>,
    error: Option<string>,
    startedAt: Option<int>,
    completedAt: Option<int>,
    durationMs: Option<int>,
    tokensIn: Option<int>,
    tokensOut: Option<int>,
    activity: AgentActivity,
    lastActivityAt: Option<int>,
    retryCount: int)

  type Agents = map<AgentRole, AgentView>

  /** Every role has a record, filed under its own role. */
  ghost predicate Complete(agents: Agents)
  {
    forall r: AgentRole :: r in agents && agents[r].role == r
  }

  /** The record of a role that has not been touched. */
  function Initial(r: AgentRole): AgentView
  {
    AgentView(r, StepPending, [], None, None, None, None, None, None, Idle, None, 0)
  }

  /** Records a and b agree on every role other than `role`. */
  predicate OthersUnchanged(a: Agents, b: Agents, role: AgentRole)
  {
    forall q :: q in a && q != role ==> q in b && b[q] == a[q]
  }

  /** `createInitialAgents()`. */
  function InitialAgents(): Agents
  {
    map r | r in AgentOrder :: Initial(r)
  }

  /** The store's first state: every role pending, no output, no error, idle and never retried. */
  lemma InitialAgentsFresh()
    ensures Complete(InitialAgents())
    ensures forall r :: r in InitialAgents() ==>
              && InitialAgents()[r].status == StepPending && InitialAgents()[r].outputChunks == []
              && InitialAgents()[r].error == None && InitialAgents()[r].activity == Idle
              && InitialAgents()[r].retryCount == 0
  {
    AgentOrderIsEnumeration();
  }

  /** The records `applyExecutionPlan(roles)` produces. */
  function Planned(roles: seq<AgentRole>): Agents
  {
    map r | r in AgentOrder :: PlannedView(roles, r)
  }

  function PlannedView(roles: seq<AgentRole>, r: AgentRole): AgentView
  {
    if r in roles then Initial(r) else Initial(r).(status := Skipped)
  }

  /** `createInitialAgents`: the loop over AGENT_ORDER. */
  method CreateInitialAgents() returns (agents: Agents)
    ensures agents == InitialAgents()
  {
    agents := map[];
    var i := 0;
    while i < |AgentOrder|
      invariant 0 <= i <= |AgentOrder|
      invariant agents == map r | r in AgentOrder[..i] :: Initial(r)
    {
      agents := agents[AgentOrder[i] := Initial(AgentOrder[i])];
      i := i + 1;
      assert forall r :: r in AgentOrder[..i] <==> r in AgentOrder[..i - 1] || r == AgentOrder[i - 1];
    }
    assert AgentOrder[..i] == AgentOrder;
  }

  /** `applyExecutionPlan`: fresh records, with the roles left out of the plan marked skipped. */
  method ApplyExecutionPlan(roles: seq<AgentRole>) returns (agents: Agents)
    ensures agents == Planned(roles)
  {
    agents := CreateInitialAgents();
    InitialAgentsFresh();
    var i := 0;
    while i < |AgentOrder|
      invariant 0 <= i <= |AgentOrder|
      invariant forall r: AgentRole :: r in agents
      invariant forall j :: i <= j < |AgentOrder| ==> agents[AgentOrder[j]] == Initial(AgentOrder[j])
      invariant forall j :: 0 <= j < i ==> agents[AgentOrder[j]] == PlannedView(roles, AgentOrder[j])
    {
      var role := AgentOrder[i];
      if role !in roles {
        agents := agents[role := agents[role].(status := Skipped)];
      }
      i := i + 1;
    }
    PlannedPointwise(agents, roles);
  }

  /** Records that hold every role and agree with the plan at each position of AGENT_ORDER are the plan's. */
  lemma PlannedPointwise(agents: Agents, roles: seq<AgentRole>)
    requires forall r: AgentRole :: r in agents
    requires forall j :: 0 <= j < |AgentOrder| ==> agents[AgentOrder[j]] == PlannedView(roles, AgentOrder[j])
    ensures agents == Planned(roles)
  {
    AgentOrderIsEnumeration();
    forall r | r in agents
      ensures agents[r] == Planned(roles)[r]
    {
      assert AgentOrder[IndexOf(r)] == r;
    }
  }

  /** A plan resets every role and skips exactly the roles it leaves out. */
  lemma PlanSkipsExactlyTheOthers(roles: seq<AgentRole>)
    ensures Complete(Planned(roles))
    ensures forall r :: r in Planned(roles) ==> (Planned(roles)[r].status == Skipped <==> r !in roles)
    ensures forall r :: r in Planned(roles) ==> Planned(roles)[r] == Initial(r).(status := Planned(roles)[r].status)
  {
    AgentOrderIsEnumeration();
  }

  /** `appendChunks`. */
  function AppendChunks(agents: Agents, role: AgentRole, chunks: seq<string>): (r: Agents)
    requires Complete(agents)
    ensures Complete(r) && OthersUnchanged(agents, r, role)
    ensures r[role].outputChunks == agents[role].outputChunks + chunks
    ensures r[role] == agents[role].(outputChunks := r[role].outputChunks)
  {
    agents[role := agents[role].(outputChunks := agents[role].outputChunks + chunks)]
  }

  /** `setAgentStatus`. */
  function SetAgentStatus(agents: Agents, role: AgentRole, status: StepStatus): (r: Agents)
    requires Complete(agents)
    ensures Complete(r) && OthersUnchanged(agents, r, role)
    ensures r[role] == agents[role].(status := status)
  {
    agents[role := agents[role].(status := status)]
  }

  /** `setAgentStarted`: running with a clean slate, but the retry count stays. */
  function SetAgentStarted(agents: Agents, role: AgentRole, now: int): (r: Agents)
    requires Complete(agents)
    ensures Complete(r) && OthersUnchanged(agents, r, role)
    ensures r[role].status == StepRunning && r[role].startedAt == Some(now)
    ensures r[role].outputChunks == [] && r[role].error == None && r[role].activity == Idle && r[role].lastActivityAt == None
    ensures r[role].retryCount == agents[role].retryCount
    ensures r[role].completedAt == agents[role].completedAt && r[role].durationMs == agents[role].durationMs
    ensures r[role].tokensIn == agents[role].tokensIn && r[role].tokensOut == agents[role].tokensOut
    ensures r[role].role == role
  {
    agents[role := agents[role].(status := StepRunning, startedAt := Some(now), outputChunks := [], error := None,
                                 activity := Idle, lastActivityAt := None)]
  }

  /** `setAgentCompleted`: a non-empty final output replaces the streamed chunks; missing token counts become null. */
  function SetAgentCompleted(agents: Agents, role: AgentRole, output: string, durationMs: int,
                             tokensIn: Option<int>, tokensOut: Option<int>, now: int): (r: Agents)
    requires Complete(agents)
    ensures Complete(r) && OthersUnchanged(agents, r, role)
    ensures r[role].status == StepCompleted && r[role].completedAt == Some(now) && r[role].durationMs == Some(durationMs)
    ensures r[role].tokensIn == tokensIn && r[role].tokensOut == tokensOut
    ensures output != "" ==> r[role].outputChunks == [output]
    ensures output == "" ==> r[role].outputChunks == agents[role].outputChunks
    ensures r[role].error == agents[role].error && r[role].retryCount == agents[role].retryCount
    ensures r[role].startedAt == agents[role].startedAt && r[role].activity == agents[role].activity
  {
    var existing := agents[role];
    var finalChunks := if output != "" then [output] else existing.outputChunks;
    agents[role := existing.(status := StepCompleted, completedAt := Some(now), durationMs := Some(durationMs),
                             tokensIn := tokensIn, tokensOut := tokensOut, outputChunks := finalChunks)]
  }

  /** `setAgentFailed`. */
  function SetAgentFailed(agents: Agents, role: AgentRole, error: string, now: int): (r: Agents)
    requires Complete(agents)
    ensures Complete(r) && OthersUnchanged(agents, r, role)
    ensures r[role] == agents[role].(status := StepFailed, error := Some(error), completedAt := Some(now))
  {
    agents[role := agents[role].(status := StepFailed, error := Some(error), completedAt := Some(now))]
  }

  /** `setAgentActivity`. */
  function SetAgentActivity(agents: Agents, role: AgentRole, activity: AgentActivity, now: int): (r: Agents)
    requires Complete(agents)
    ensures Complete(r) && OthersUnchanged(agents, r, role)
    ensures r[role] == agents[role].(activity := activity, lastActivityAt := Some(now))
  {
    agents[role := agents[role].(activity := activity, lastActivityAt := Some(now))]
  }

  /** `setAgentRetry`: only the retry count changes. */
  function SetAgentRetry(agents: Agents, role: AgentRole, attempt: int): (r: Agents)
    requires Complete(agents)
    ensures Complete(r) && OthersUnchanged(agents, r, role)
    ensures r[role] == agents[role].(retryCount := attempt)
  {
    agents[role := agents[role].(retryCount := attempt)]
  }

  /** A retry count set before a restart survives the restart. */
  lemma RetryCountSurvivesRestart(agents: Agents, role: AgentRole, attempt: int, now: int)
    requires Complete(agents)
    ensures SetAgentStarted(SetAgentRetry(agents, role, attempt), role, now)[role].retryCount == attempt
    ensures SetAgentStarted(SetAgentRetry(agents, role, attempt), role, now)
            == SetAgentRetry(SetAgentStarted(agents, role, now), role, attempt)
  {
  }
}
