/**
 * The agent roles, the two status enumerations, the per-role configuration
 * table and the activity union of the workflow subsystem
 * (src/lib/workflow/types.ts).
 */
module Types {
  import opened Optional

  /** `AgentRole`: the five agent personas. */
  datatype AgentRole = Pm | Rd | Ui | Test | Sec

  /** `WorkflowStatus`: six values. */
  datatype WorkflowStatus = Pending | Running | Paused | Completed | Failed | Cancelled

  /** `StepStatus`: five values; only a step can be skipped. */
  datatype StepStatus = StepPending | StepRunning | StepCompleted | StepFailed | Skipped

  /** The statuses after which a workflow gets a completion stamp. */
  predicate IsTerminal(s: WorkflowStatus)
  {
    s == Completed || s == Failed || s == Cancelled
  }

  /** A database time stamp (`datetime('now')`), as an ordered instant. */
  type Stamp = nat

  /** `Workflow`, the record the persistence layer hands out. */
  datatype Workflow = Workflow(
    id: string,
    title: string,
    userPrompt: string,
    status: WorkflowStatus,
    currentStepIndex: int,
    projectPath: string,
    createdAt: Stamp,
    updatedAt: Stamp,
    completedAt: Option<Stamp>)

  /** `AgentStep`, one role's unit of work in one workflow. */
  datatype AgentStep = AgentStep(
    id: string,
    workflowId: string,
    role: AgentRole,
    status: StepStatus,
    prompt: string,
    output: string,
    error: Option<string>,
    retryCount: int,
    durationMs: Option<int>,
    tokensIn: Option<int>,
    tokensOut: Option<int>,
    startedAt: Option<string>,
    completedAt: Option<string>)

  /** `AgentActivity`: what a running agent is doing; only tool use names something. */
  datatype AgentActivity = Idle | Thinking | ToolUse(toolName: string) | TextOutput

  /** `AGENT_ORDER`: the fixed order of the roles. */
  const AgentOrder: seq<AgentRole> := [Pm, Rd, Ui, Test, Sec]

  /** The string literal of each role. */
  function RoleName(r: AgentRole): string
  {
    match r
    case Pm => "pm"
    case Rd => "rd"
    case Ui => "ui"
    case Test => "test"
    case Sec => "sec"
  }

  /** The string literal of each workflow status. */
  function StatusName(s: WorkflowStatus): string
  {
    match s
    case Pending => "pending"
    case Running => "running"
    case Paused => "paused"
    case Completed => "completed"
    case Failed => "failed"
    case Cancelled => "cancelled"
  }

  /** One entry of `AGENT_CONFIG`. */
  datatype AgentConfig = AgentConfig(labelText: string, color: string, timeoutMs: nat, tools: seq<string>)

  /** `AGENT_CONFIG[r]`. */
  function Config(r: AgentRole): AgentConfig
  {
    match r
    case Pm => AgentConfig("PM", "#A855F7", 180000, ["Read"])
    case Rd => AgentConfig("RD", "#3B82F6", 600000, ["Read", "Edit", "Bash"])
    case Ui => AgentConfig("UI", "#22C55E", 600000, ["Read", "Edit", "Bash"])
    case Test => AgentConfig("TEST", "#F97316", 600000, ["Read", "Edit", "Bash"])
    case Sec => AgentConfig("SEC", "#EF4444", 300000, ["Read", "Bash"])
  }

  function Label(r: AgentRole): string
  {
    Config(r).labelText
  }

  /** `AGENT_ORDER.indexOf(r)`: the position of a role in the fixed order. */
  function IndexOf(r: AgentRole): (i: nat)
    ensures i < |AgentOrder| && AgentOrder[i] == r
    ensures forall j :: 0 <= j < |AgentOrder| && AgentOrder[j] == r ==> j == i
  {
    match r
    case Pm => 0
    case Rd => 1
    case Ui => 2
    case Test => 3
    case Sec => 4
  }

  /** AGENT_ORDER lists every role exactly once. */
  lemma AgentOrderIsEnumeration()
    ensures |AgentOrder| == 5
    ensures forall r: AgentRole :: r in AgentOrder
    ensures forall i, j :: 0 <= i < j < |AgentOrder| ==> AgentOrder[i] != AgentOrder[j]
  {
    forall r: AgentRole ensures r in AgentOrder {
      assert AgentOrder[IndexOf(r)] == r;
    }
  }

  /** Upper-casing of the lower-case ASCII letters. */
  function UpperAscii(s: string): (r: string)
    ensures |r| == |s|
  {
    if s == [] then [] else
      [if 'a' <= s[0] <= 'z' then (s[0] as int - 32) as char else s[0]] + UpperAscii(s[1..])
  }

  /** Each label is the role's name in upper case, and distinct roles have distinct labels. */
  lemma LabelsAreUpperCaseNames()
    ensures forall r :: Label(r) == UpperAscii(RoleName(r))
    ensures forall r, q :: r != q ==> Label(r) != Label(q)
  {
    assert UpperAscii("pm") == "PM";
    assert UpperAscii("rd") == "RD";
    assert UpperAscii("ui") == "UI";
    assert UpperAscii("test") == "TEST";
    assert UpperAscii("sec") == "SEC";
  }

  /** The timeout budget of each role: positive, a whole number of seconds, and these values. */
  lemma TimeoutsAreWholeSeconds(r: AgentRole)
    ensures Config(r).timeoutMs > 0 && Config(r).timeoutMs % 1000 == 0
    ensures Config(r).timeoutMs == (match r
      case Pm => 180000
      case Sec => 300000
      case _ => 600000)
  {
  }

  /** Tool permissions: everyone reads; PM only reads; only RD, UI and TEST edit. */
  lemma ToolPermissions(r: AgentRole)
    ensures "Read" in Config(r).tools
    ensures r == Pm ==> Config(r).tools == ["Read"]
    ensures "Edit" in Config(r).tools <==> r in {Rd, Ui, Test}
  {
  }
}
