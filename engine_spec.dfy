/**
 * The workflow engine (src/lib/workflow/engine.ts) as functions over its
 * state. The engine's maps, its runner registry, the injected database
 * calls and the emitted events are one value, `EngineState`; each database
 * call and each event is appended to `log` in the order the engine makes it,
 * and every `await` on a timer is a `Sleep` entry.
 *
 * What happens while the engine awaits is handed in as a script: what each
 * runner attempt emits and how it settles, and which pause, resume and
 * cancel requests arrive during the run, during the retry delay, and during
 * each 500 ms poll of a paused workflow. A script that runs out leaves the
 * run waiting (`Suspended`).
 *
 * The roles of a stage run one after another here (see `RunRoles`).
 */
module EngineSpec {
  import opened Optional
  import opened Strings
  import opened Types
  import opened Stages
  import opened Pipeline
  import opened ContextBuilder
  import Queries
  import AgentRunners

  const MaxRetries: nat := 2
  const RetryDelays: seq<nat> := [2000, 4000, 8000]
  const PollMs: nat := 500

  /** `RETRY_DELAYS[attempt - 1] || 8000`. */
  function RetryDelay(attempt: int): (d: nat)
    ensures d in RetryDelays
  {
    if 1 <= attempt <= |RetryDelays| then RetryDelays[attempt - 1] else 8000
  }

  /** The injected `dbOps` writes, with their arguments. */
  datatype DbCall =
    | CreateWorkflowCall(id: string, title: string, userPrompt: string, projectPath: string)
    | UpdateWorkflowStatusCall(id: string, status: WorkflowStatus, currentStepIndex: Option<int>)
    | UpdateStepStatusCall(stepId: Option<string>, updates: Queries.StepUpdateFields)

  /** `WorkflowEngineEvents`. A step id is None where the id map had no entry for the role. */
  datatype EngineEvent =
    | WorkflowCreated(workflowId: string, title: string)
    | WorkflowCompleted(workflowId: string)
    | WorkflowFailed(workflowId: string, error: string)
    | WorkflowPaused(workflowId: string)
    | WorkflowCancelled(workflowId: string)
    | StepStarted(workflowId: string, stepId: Option<string>, role: AgentRole)
    | StepStream(workflowId: string, stepId: Option<string>, role: AgentRole, chunk: string)
    | StepCompleted(workflowId: string, stepId: Option<string>, role: AgentRole, output: string,
                    durationMs: int, tokensIn: Option<int>, tokensOut: Option<int>)
    | StepFailed(workflowId: string, stepId: Option<string>, role: AgentRole, error: string)
    | StepActivity(workflowId: string, stepId: Option<string>, role: AgentRole, activity: AgentActivity)
    | StepRetry(workflowId: string, stepId: Option<string>, role: AgentRole, attempt: int, maxRetries: int, reason: string)

  /** One thing the engine does that the outside can see. */
  datatype Effect = Persist(call: DbCall) | Emit(event: EngineEvent) | Sleep(ms: nat)

  /** A request from outside: `pauseWorkflow`, `resumeWorkflow`, `cancelWorkflow`. */
  datatype Control = PauseCtl(id: string) | ResumeCtl(id: string) | CancelCtl(id: string)

  /** How an attempt's `runner.run` settles when the runner is not killed. */
  datatype RunFinish = Finished(output: string) | Threw(message: string)

  /** The environment of one attempt of `executeStep`'s retry loop. */
  datatype Attempt = Attempt(
    startedAt: string,
    reports: seq<AgentRunners.RunnerEvent>,
    during: seq<Control>,
    finish: RunFinish,
    durationMs: int,
    completedAt: string,
    backoff: seq<Control>)

  /** The environment of a whole pipeline run: the polls of each stage's pause wait, and each role's attempts. */
  datatype RunScript = RunScript(polls: nat -> seq<seq<Control>>, attempts: AgentRole -> seq<Attempt>)

  /** The engine's fields (runners by key) and everything it has done so far. */
  datatype EngineState = EngineState(
    pipelines: map<string, PipelineState>,
    runners: set<string>,
    stepIds: map<string, map<AgentRole, string>>,
    stepOutputs: map<string, map<AgentRole, string>>,
    paused: set<string>,
    log: seq<Effect>)

  const Fresh := EngineState(map[], {}, map[], map[], {}, [])

  /** `${workflowId}:${role}`. */
  function RunnerKey(id: string, role: AgentRole): string
  {
    id + ":" + RoleName(role)
  }

  /** The pipeline is held and cancelled. */
  predicate IsCancelled(s: EngineState, id: string)
  {
    id in s.pipelines && s.pipelines[id].status == Cancelled
  }

  /** The same pipelines, each with the same steps (status and stage index may differ). */
  predicate SameSteps(s: EngineState, r: EngineState)
  {
    r.pipelines.Keys == s.pipelines.Keys
    && forall x :: x in s.pipelines ==> r.pipelines[x].steps == s.pipelines[x].steps
  }

  // ---------------------------------------------------------------------
  // Controls
  // ---------------------------------------------------------------------

  /** `pauseWorkflow`: only a running pipeline pauses. */
  function PauseS(s: EngineState, id: string): EngineState
  {
    if id in s.pipelines && s.pipelines[id].status == Running then
      s.(paused := s.paused + {id},
         pipelines := s.pipelines[id := s.pipelines[id].(status := Paused)],
         log := s.log + [Persist(UpdateWorkflowStatusCall(id, Paused, None)), Emit(WorkflowPaused(id))])
    else s
  }

  /** `resumeWorkflow`: only a paused pipeline resumes; no event is emitted. */
  function ResumeS(s: EngineState, id: string): EngineState
  {
    if id in s.pipelines && s.pipelines[id].status == Paused then
      s.(paused := s.paused - {id},
         pipelines := s.pipelines[id := s.pipelines[id].(status := Running)],
         log := s.log + [Persist(UpdateWorkflowStatusCall(id, Running, None))])
    else s
  }

  /** The registry keys `key.startsWith(workflowId)` selects. */
  function KeysOf(runners: set<string>, id: string): set<string>
  {
    set k | k in runners && StartsWith(k, id)
  }

  /** `cancelWorkflow`: an unknown id does nothing. */
  function CancelS(s: EngineState, id: string): EngineState
  {
    if id !in s.pipelines then s
    else
      s.(pipelines := s.pipelines[id := s.pipelines[id].(status := Cancelled)],
         paused := s.paused - {id},
         runners := s.runners - KeysOf(s.runners, id),
         log := s.log + [Persist(UpdateWorkflowStatusCall(id, Cancelled, None)), Emit(WorkflowCancelled(id))],
         stepIds := s.stepIds - {id},
         stepOutputs := s.stepOutputs - {id})
  }

  /** `cleanupWorkflow`. */
  function CleanupS(s: EngineState, id: string): EngineState
  {
    s.(pipelines := s.pipelines - {id}, stepIds := s.stepIds - {id},
       stepOutputs := s.stepOutputs - {id}, paused := s.paused - {id})
  }

  function ControlS(s: EngineState, c: Control): EngineState
  {
    match c
    case PauseCtl(id) => PauseS(s, id)
    case ResumeCtl(id) => ResumeS(s, id)
    case CancelCtl(id) => CancelS(s, id)
  }

  /** Requests arriving one after another. They never add or drop a pipeline, and only append to the log. */
  function ControlsS(s: EngineState, cs: seq<Control>): (r: EngineState)
    ensures SameSteps(s, r)
    ensures s.log <= r.log
    ensures r.runners <= s.runners
    decreases |cs|
  {
    if cs == [] then s else ControlsS(ControlS(s, cs[0]), cs[1..])
  }

  // ---------------------------------------------------------------------
  // startWorkflow
  // ---------------------------------------------------------------------

  /** `userPrompt.slice(0, 80) + (userPrompt.length > 80 ? '...' : '')`. */
  function Title(userPrompt: string): string
  {
    Take(userPrompt, 80) + (if |userPrompt| > 80 then "..." else "")
  }

  /** The role-to-id map built from the stored steps; a later step of the same role wins. */
  function StepIdMap(dbSteps: seq<AgentStep>): map<AgentRole, string>
  {
    if dbSteps == [] then map[]
    else
      var last := dbSteps[|dbSteps| - 1];
      StepIdMap(dbSteps[..|dbSteps| - 1])[last.role := last.id]
  }

  /**
   * `startWorkflow` up to the deferred `executePipeline`: the stored
   * workflow, a running pipeline, an empty output map, the step ids read back
   * from the database (`dbSteps`), the status write and `workflow:created`.
   */
  function StartS(s: EngineState, id: string, userPrompt: string, projectPath: string, dbSteps: seq<AgentStep>): EngineState
  {
    var title := Title(userPrompt);
    s.(pipelines := s.pipelines[id := CreatePipelineState(id).(status := Running)],
       stepOutputs := s.stepOutputs[id := map[]],
       stepIds := s.stepIds[id := StepIdMap(dbSteps)],
       log := s.log + [Persist(CreateWorkflowCall(id, title, userPrompt, projectPath)),
                       Persist(UpdateWorkflowStatusCall(id, Running, None)),
                       Emit(WorkflowCreated(id, title))])
  }

  // ---------------------------------------------------------------------
  // executeStep
  // ---------------------------------------------------------------------

  /** The non-empty outputs of a stage's roles, in the stage's order. */
  function StageOutputs(roles: seq<AgentRole>, outputs: map<AgentRole, string>): (r: seq<AgentContext>)
    ensures forall c :: c in r <==> c.role in roles && c.role in outputs && c.output == outputs[c.role] && c.output != ""
    ensures |r| <= |roles|
  {
    if roles == [] then []
    else
      var init := roles[..|roles| - 1];
      var q := roles[|roles| - 1];
      assert forall x :: x in roles <==> x in init || x == q;
      StageOutputs(init, outputs) + (if q in outputs && outputs[q] != "" then [AgentContext(q, outputs[q])] else [])
  }

  /** The outputs of the first `hi` stages, stage by stage. */
  function OutputsOfStages(stages: StageTable, hi: nat, outputs: map<AgentRole, string>): (r: seq<AgentContext>)
    requires hi <= |stages|
    ensures forall c :: c in r <==> (exists k :: 0 <= k < hi && c.role in stages[k])
                                    && c.role in outputs && c.output == outputs[c.role] && c.output != ""
  {
    if hi == 0 then []
    else OutputsOfStages(stages, hi - 1, outputs) + StageOutputs(stages[hi - 1], outputs)
  }

  /** The `previousOutputs` of a role: the non-empty outputs of every earlier stage. */
  function PreviousOutputs(stages: StageTable, role: AgentRole, outputs: map<AgentRole, string>): seq<AgentContext>
    requires ValidStages(stages)
  {
    OutputsOfStages(stages, StageOf(stages, role), outputs)
  }

  /** The token counts kept after a run's events, starting from `acc`. */
  function Tokens(reports: seq<AgentRunners.RunnerEvent>, acc: (Option<int>, Option<int>)): (Option<int>, Option<int>)
  {
    if reports == [] then acc else Keep(Tokens(reports[..|reports| - 1], acc), reports[|reports| - 1])
  }

  /** The `stream` and `activity` listeners: one runner event re-emitted as `step:stream` or `step:activity`. */
  function Relay(id: string, stepId: Option<string>, role: AgentRole, e: AgentRunners.RunnerEvent): seq<Effect>
  {
    match e
    case StreamChunk(chunk) => [Emit(StepStream(id, stepId, role, chunk))]
    case ActivityChange(a) => [Emit(StepActivity(id, stepId, role, a))]
    case _ => []
  }

  /** Everything the listeners re-emit for a run's events, in order. */
  function Forward(id: string, stepId: Option<string>, role: AgentRole, reports: seq<AgentRunners.RunnerEvent>): (r: seq<Effect>)
  {
    if reports == [] then []
    else Forward(id, stepId, role, reports[..|reports| - 1]) + Relay(id, stepId, role, reports[|reports| - 1])
  }

  /** The `result` listener: a defined count replaces the one kept so far. */
  function Keep(acc: (Option<int>, Option<int>), e: AgentRunners.RunnerEvent): (Option<int>, Option<int>)
  {
    match e
    case ResultOutput(_, tin, tout) => (if tin.Some? then tin else acc.0, if tout.Some? then tout else acc.1)
    case _ => acc
  }

  /** `err.message || String(err)`: an error without a message prints as "Error". */
  function ErrorText(message: string): string
  {
    if message != "" then message else "Error"
  }

  function StartFields(prompt: string, retries: nat, startedAt: string): Queries.StepUpdateFields
  {
    Queries.StepUpdateFields(Queries.Present(StepRunning), Queries.Present(prompt), Queries.Absent, Queries.Absent,
                             Queries.Present(retries), Queries.Absent, Queries.Absent, Queries.Absent,
                             Queries.Present(Some(startedAt)), Queries.Absent)
  }

  function CompletedFields(output: string, durationMs: int, tokens: (Option<int>, Option<int>), completedAt: string): Queries.StepUpdateFields
  {
    Queries.StepUpdateFields(Queries.Present(StepStatus.StepCompleted), Queries.Absent, Queries.Present(output), Queries.Absent,
                             Queries.Absent, Queries.Present(Some(durationMs)), Queries.Present(tokens.0),
                             Queries.Present(tokens.1), Queries.Absent, Queries.Present(Some(completedAt)))
  }

  function FailedFields(error: string, completedAt: string): Queries.StepUpdateFields
  {
    Queries.StepUpdateFields(Queries.Present(StepStatus.StepFailed), Queries.Absent, Queries.Absent, Queries.Present(Some(error)),
                             Queries.Absent, Queries.Absent, Queries.Absent, Queries.Absent, Queries.Absent,
                             Queries.Present(Some(completedAt)))
  }

  /** How an executeStep call ended: its boolean, or still waiting for the environment. */
  datatype StepResult = StepDone(ok: bool) | StepSuspended

  /** One step's call context, fixed for the whole retry loop. */
  datatype StepCall = StepCall(id: string, role: AgentRole, stepId: Option<string>, prompt: string)

  /** The attempt begins: running status, `step:started`, the registered runner, then its forwarded events. */
  function BeginAttempt(s: EngineState, c: StepCall, retries: nat, a: Attempt): EngineState
  {
    s.(runners := s.runners + {RunnerKey(c.id, c.role)},
       log := s.log + [Persist(UpdateStepStatusCall(c.stepId, StartFields(c.prompt, retries, a.startedAt))),
                       Emit(StepStarted(c.id, c.stepId, c.role))]
                    + Forward(c.id, c.stepId, c.role, a.reports))
  }

  /** The attempt succeeded with `output`. */
  function SucceedAttempt(s: EngineState, c: StepCall, a: Attempt, output: string): EngineState
  {
    var tokens := Tokens(a.reports, (None, None));
    s.(stepOutputs := if c.id in s.stepOutputs then s.stepOutputs[c.id := s.stepOutputs[c.id][c.role := output]] else s.stepOutputs,
       runners := s.runners - {RunnerKey(c.id, c.role)},
       log := s.log + [Persist(UpdateStepStatusCall(c.stepId, CompletedFields(output, a.durationMs, tokens, a.completedAt))),
                       Emit(EngineEvent.StepCompleted(c.id, c.stepId, c.role, output, a.durationMs, tokens.0, tokens.1))])
  }

  /** The last attempt failed with `error`. */
  function FailStep(s: EngineState, c: StepCall, a: Attempt, error: string): EngineState
  {
    s.(runners := s.runners - {RunnerKey(c.id, c.role)},
       log := s.log + [Persist(UpdateStepStatusCall(c.stepId, FailedFields(error, a.completedAt))),
                       Emit(EngineEvent.StepFailed(c.id, c.stepId, c.role, error))])
  }

  /** How one pass of the retry loop ends: another attempt follows, or the step is over. */
  datatype Pass = Again(next: EngineState, retries: nat) | Over(last: EngineState, result: StepResult)

  /**
   * One pass of `executeStep`'s retry loop, at attempt `retries`. A
   * cancelled pipeline stops it before the attempt and before a retry; a
   * cancel during the attempt kills its runner, so that the attempt fails with
   * the runner's "Agent was killed".
   */
  function AttemptS(s: EngineState, c: StepCall, attempts: seq<Attempt>, retries: nat): (r: Pass)
    requires retries <= MaxRetries
    ensures r.Again? ==> r.retries == retries + 1 <= MaxRetries && SameSteps(s, r.next) && s.log <= r.next.log
    ensures r.Over? ==> SameSteps(s, r.last) && s.log <= r.last.log
  {
    var key := RunnerKey(c.id, c.role);
    if IsCancelled(s, c.id) then Over(s.(runners := s.runners - {key}), StepDone(false))
    else if retries >= |attempts| then Over(s, StepSuspended)
    else
      var a := attempts[retries];
      var s1 := ControlsS(BeginAttempt(s, c, retries, a), a.during);
      var finish := if key in s1.runners then a.finish else Threw(AgentRunners.KilledMessage);
      match finish
      case Finished(output) => Over(SucceedAttempt(s1, c, a, output), StepDone(true))
      case Threw(message) =>
        var n := retries + 1;
        var error := ErrorText(message);
        if n > MaxRetries then Over(FailStep(s1, c, a, error), StepDone(false))
        else if IsCancelled(s1, c.id) then Over(s1.(runners := s1.runners - {key}), StepDone(false))
        else
          var s2 := s1.(log := s1.log + [Emit(StepRetry(c.id, c.stepId, c.role, n, MaxRetries, error)), Sleep(RetryDelay(n))]);
          Again(ControlsS(s2, a.backoff), n)
  }

  /** The retry loop of `executeStep` from attempt `retries` on. */
  function AttemptsS(s: EngineState, c: StepCall, attempts: seq<Attempt>, retries: nat): (r: (EngineState, StepResult))
    requires retries <= MaxRetries
    ensures SameSteps(s, r.0)
    ensures s.log <= r.0.log
    decreases MaxRetries - retries
  {
    match AttemptS(s, c, attempts, retries)
    case Over(s1, res) => (s1, res)
    case Again(s1, n) => AttemptsS(s1, c, attempts, n)
  }

  /** The call context `executeStep` sets up from the engine's maps. */
  function StepCallOf(stages: StageTable, s: EngineState, id: string, role: AgentRole, userPrompt: string, projectPath: string): StepCall
    requires ValidStages(stages)
    requires id in s.stepIds && id in s.stepOutputs
  {
    var ids := s.stepIds[id];
    StepCall(id, role, if role in ids then Some(ids[role]) else None,
             BuildAgentPrompt(role, userPrompt, PreviousOutputs(stages, role, s.stepOutputs[id]), projectPath))
  }

  /**
   * `executeStep(workflowId, role, userPrompt, projectPath)`. Without the
   * workflow's id map or output map (only after a cancel) the call rejects
   * before doing anything, which counts as a failure.
   */
  function ExecuteStepS(stages: StageTable, s: EngineState, id: string, role: AgentRole,
                        userPrompt: string, projectPath: string, attempts: seq<Attempt>): (r: (EngineState, StepResult))
    requires ValidStages(stages)
    ensures SameSteps(s, r.0)
    ensures s.log <= r.0.log
  {
    if id !in s.stepIds || id !in s.stepOutputs then (s, StepDone(false))
    else AttemptsS(s, StepCallOf(stages, s, id, role, userPrompt, projectPath), attempts, 0)
  }

  // ---------------------------------------------------------------------
  // executePipeline
  // ---------------------------------------------------------------------

  /**
   * The roles of one stage from the i-th on, each run to its end before the
   * next starts; `done` holds the results so far. None: some step is still
   * waiting.
   */
  function RunRolesS(stages: StageTable, s: EngineState, id: string, roles: seq<AgentRole>, i: nat, done: seq<bool>,
                     userPrompt: string, projectPath: string, attempts: AgentRole -> seq<Attempt>): (r: (EngineState, Option<seq<bool>>))
    requires ValidStages(stages) && i <= |roles|
    ensures SameSteps(s, r.0)
    ensures s.log <= r.0.log
    ensures r.1.Some? ==> |r.1.value| == |done| + |roles| - i && r.1.value[..|done|] == done
    decreases |roles| - i
  {
    if i == |roles| then (s, Some(done))
    else
      var (s1, res) := ExecuteStepS(stages, s, id, roles[i], userPrompt, projectPath, attempts(roles[i]));
      if res.StepSuspended? then (s1, None)
      else RunRolesS(stages, s1, id, roles, i + 1, done + [res.ok], userPrompt, projectPath, attempts)
  }

  /** `pipeline.steps.find(s => s.role === role)` set to completed, if there is one. */
  function MarkCompleted(steps: seq<PipelineStepState>, role: AgentRole): (r: seq<PipelineStepState>)
    ensures |r| == |steps|
  {
    if steps == [] then []
    else if steps[0].role == role then [steps[0].(status := StepStatus.StepCompleted)] + steps[1..]
    else [steps[0]] + MarkCompleted(steps[1..], role)
  }

  /** The step of every role whose result is true is marked completed, in stage order. */
  function MarkSucceeded(steps: seq<PipelineStepState>, roles: seq<AgentRole>, results: seq<bool>): (r: seq<PipelineStepState>)
    requires |results| == |roles|
    ensures |r| == |steps|
    decreases |roles|
  {
    if roles == [] then steps
    else MarkSucceeded(if results[0] then MarkCompleted(steps, roles[0]) else steps, roles[1..], results[1..])
  }

  /** The labels of the roles whose result is false, in stage order. */
  function FailedLabels(roles: seq<AgentRole>, results: seq<bool>): (r: seq<string>)
    requires |results| == |roles|
    ensures r == [] <==> forall i :: 0 <= i < |results| ==> results[i]
  {
    if roles == [] then []
    else
      var n := |roles| - 1;
      FailedLabels(roles[..n], results[..n]) + (if results[n] then [] else [Label(roles[n])])
  }

  /** `Agent(s) ${failedRoles.join(', ')} failed`. */
  function FailureMessage(labels: seq<string>): string
  {
    "Agent(s) " + Join(labels, ", ") + " failed"
  }

  /** How the wait of a paused pipeline ended. */
  datatype WaitOutcome = Proceed | Stopped | StillPaused

  /** `while (paused.has(workflowId))`: sleep 500 ms, let the j-th poll's requests arrive, stop if cancelled. */
  function WaitS(s: EngineState, id: string, polls: seq<seq<Control>>, j: nat): (r: (EngineState, WaitOutcome))
    requires id in s.pipelines
    ensures r.1 != Stopped ==> SameSteps(s, r.0)
    ensures r.1 == Proceed ==> id !in r.0.paused
    ensures s.log <= r.0.log
    decreases |polls| - j
  {
    if id !in s.paused then (s, Proceed)
    else if j >= |polls| then (s, StillPaused)
    else
      var s1 := ControlsS(s.(log := s.log + [Sleep(PollMs)]), polls[j]);
      if IsCancelled(s1, id) then (CleanupS(s1, id), Stopped)
      else WaitS(s1, id, polls, j + 1)
  }

  /** How a pipeline run ended: returned, or still waiting for the environment. */
  datatype RunResult = Done | Suspended

  /** The outcome of one stage: go on to the next, or the run is over. */
  datatype StageStep = Continue(next: EngineState) | Stop(last: EngineState, result: RunResult)

  /** The stage is entered: its index recorded in memory and in the database. */
  function EnterStage(s: EngineState, id: string, k: nat): EngineState
    requires id in s.pipelines
  {
    s.(pipelines := s.pipelines[id := s.pipelines[id].(currentStageIndex := Some(k))],
       log := s.log + [Persist(UpdateWorkflowStatusCall(id, Running, Some(k)))])
  }

  /** A stage failed: the pipeline and the database say failed, then `workflow:failed`. */
  function FailWorkflow(s: EngineState, id: string, labels: seq<string>): EngineState
    requires id in s.pipelines
  {
    s.(pipelines := s.pipelines[id := s.pipelines[id].(status := Failed)],
       log := s.log + [Persist(UpdateWorkflowStatusCall(id, Failed, None)), Emit(WorkflowFailed(id, FailureMessage(labels)))])
  }

  /** Every stage passed: completed in memory and in the database, then `workflow:completed`. */
  function CompleteWorkflow(s: EngineState, id: string): EngineState
    requires id in s.pipelines
  {
    s.(pipelines := s.pipelines[id := s.pipelines[id].(status := Completed)],
       log := s.log + [Persist(UpdateWorkflowStatusCall(id, Completed, None)), Emit(WorkflowCompleted(id))])
  }

  /** The body of the `for (const stage of PIPELINE_STAGES)` loop for stage k. */
  function StageS(stages: StageTable, s: EngineState, id: string, k: nat, userPrompt: string, projectPath: string,
                  script: RunScript): (r: StageStep)
    requires ValidStages(stages) && k < |stages| && id in s.pipelines
    ensures r.Continue? ==> r.next.pipelines.Keys == s.pipelines.Keys
  {
    if s.pipelines[id].status == Cancelled then Stop(CleanupS(s, id), Done)
    else
      var (s1, w) := WaitS(s, id, script.polls(k), 0);
      if w == Stopped then Stop(s1, Done)
      else if w == StillPaused then Stop(s1, Suspended)
      else
        var s2 := EnterStage(s1, id, k);
        var (s3, results) := RunRolesS(stages, s2, id, stages[k], 0, [], userPrompt, projectPath, script.attempts);
        if results.None? then Stop(s3, Suspended)
        else
          var p := s3.pipelines[id];
          var s4 := s3.(pipelines := s3.pipelines[id := p.(steps := MarkSucceeded(p.steps, stages[k], results.value))]);
          var failed := FailedLabels(stages[k], results.value);
          if failed == [] then Continue(s4)
          else if s4.pipelines[id].status == Cancelled then Stop(CleanupS(s4, id), Done)
          else Stop(CleanupS(FailWorkflow(s4, id, failed), id), Done)
  }

  /** The stage loop from stage k on, then completion. */
  function RunFromS(stages: StageTable, s: EngineState, id: string, k: nat, userPrompt: string, projectPath: string,
                    script: RunScript): (EngineState, RunResult)
    requires ValidStages(stages) && k <= |stages| && id in s.pipelines
    decreases |stages| - k
  {
    if k == |stages| then (CleanupS(CompleteWorkflow(s, id), id), Done)
    else
      match StageS(stages, s, id, k, userPrompt, projectPath, script)
      case Continue(s1) => RunFromS(stages, s1, id, k + 1, userPrompt, projectPath, script)
      case Stop(s1, r) => (s1, r)
  }

  /** `executePipeline(workflowId, userPrompt, projectPath)`: an unknown workflow returns at once. */
  function ExecutePipelineS(stages: StageTable, s: EngineState, id: string, userPrompt: string, projectPath: string,
                            script: RunScript): (EngineState, RunResult)
    requires ValidStages(stages)
  {
    if id !in s.pipelines then (s, Done)
    else RunFromS(stages, s, id, 0, userPrompt, projectPath, script)
  }
}
