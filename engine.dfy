/**
 * The `WorkflowEngine` class (src/lib/workflow/engine.ts): its fields are
 * updated in place, and every method is proved to leave the engine in the
 * state, and with the result, that the matching function of EngineSpec
 * gives for the state it started from.
 */
module Engine {
  import opened Optional
  import opened Strings
  import opened Types
  import opened Stages
  import opened Pipeline
  import opened ContextBuilder
  import opened EngineSpec
  import AgentRunners

  class WorkflowEngine {
    /** `PIPELINE_STAGES`. */
    const stages: StageTable
    var pipelines: map<string, PipelineState>
    var runners: set<string>
    var stepIds: map<string, map<AgentRole, string>>
    var stepOutputs: map<string, map<AgentRole, string>>
    var paused: set<string>
    /** The database calls and events so far, in order. */
    var log: seq<Effect>

    function State(): EngineState
      reads this
    {
      EngineState(pipelines, runners, stepIds, stepOutputs, paused, log)
    }

    constructor(stages: StageTable)
      requires ValidStages(stages)
      ensures this.stages == stages && State() == Fresh
    {
      this.stages := stages;
      pipelines := map[];
      runners := {};
      stepIds := map[];
      stepOutputs := map[];
      paused := {};
      log := [];
    }

    /** `startWorkflow`, with the fresh id and the steps read back from the database handed in. */
    method StartWorkflow(id: string, userPrompt: string, projectPath: string, dbSteps: seq<AgentStep>) returns (workflowId: string)
      modifies this
      ensures workflowId == id
      ensures State() == StartS(old(State()), id, userPrompt, projectPath, dbSteps)
    {
      var title := Title(userPrompt);
      log := log + [Persist(CreateWorkflowCall(id, title, userPrompt, projectPath))];
      var pipeline := CreatePipelineState(id).(status := Running);
      pipelines := pipelines[id := pipeline];
      stepOutputs := stepOutputs[id := map[]];
      var stepIdMap: map<AgentRole, string> := map[];
      var i := 0;
      while i < |dbSteps|
        invariant 0 <= i <= |dbSteps|
        invariant stepIdMap == StepIdMap(dbSteps[..i])
      {
        assert dbSteps[..i + 1][..i] == dbSteps[..i];
        stepIdMap := stepIdMap[dbSteps[i].role := dbSteps[i].id];
        i := i + 1;
      }
      assert dbSteps[..i] == dbSteps;
      stepIds := stepIds[id := stepIdMap];
      log := log + [Persist(UpdateWorkflowStatusCall(id, Running, None)), Emit(WorkflowCreated(id, title))];
      workflowId := id;
    }

    method PauseWorkflow(id: string)
      modifies this
      ensures State() == PauseS(old(State()), id)
    {
      if id in pipelines && pipelines[id].status == Running {
        paused := paused + {id};
        pipelines := pipelines[id := pipelines[id].(status := Paused)];
        log := log + [Persist(UpdateWorkflowStatusCall(id, Paused, None)), Emit(WorkflowPaused(id))];
      }
    }

    method ResumeWorkflow(id: string)
      modifies this
      ensures State() == ResumeS(old(State()), id)
    {
      if id in pipelines && pipelines[id].status == Paused {
        paused := paused - {id};
        pipelines := pipelines[id := pipelines[id].(status := Running)];
        log := log + [Persist(UpdateWorkflowStatusCall(id, Running, None))];
      }
    }

    /** `cancelWorkflow`: the registry is walked and every key starting with the id is killed and dropped. */
    method CancelWorkflow(id: string)
      modifies this
      ensures State() == CancelS(old(State()), id)
    {
      if id !in pipelines {
        return;
      }
      var kept := runners;
      var pending := runners;
      while pending != {}
        invariant pending <= runners
        invariant kept == runners - KeysOf(runners - pending, id)
        decreases |pending|
      {
        var key :| key in pending;
        if StartsWith(key, id) {
          kept := kept - {key};
        }
        pending := pending - {key};
      }
      assert runners - pending == runners;
      pipelines := pipelines[id := pipelines[id].(status := Cancelled)];
      paused := paused - {id};
      runners := kept;
      log := log + [Persist(UpdateWorkflowStatusCall(id, Cancelled, None)), Emit(WorkflowCancelled(id))];
      stepIds := stepIds - {id};
      stepOutputs := stepOutputs - {id};
    }

    method CleanupWorkflow(id: string)
      modifies this
      ensures State() == CleanupS(old(State()), id)
    {
      pipelines := pipelines - {id};
      stepIds := stepIds - {id};
      stepOutputs := stepOutputs - {id};
      paused := paused - {id};
    }

    /** `getPipelineState`. */
    method GetPipelineState(id: string) returns (p: Option<PipelineState>)
      ensures p.Some? <==> id in pipelines
      ensures p.Some? ==> p.value == pipelines[id]
    {
      p := if id in pipelines then Some(pipelines[id]) else None;
    }

    /** Requests that arrive while the engine awaits, handled in arrival order. */
    method HandleControls(cs: seq<Control>)
      modifies this
      ensures State() == ControlsS(old(State()), cs)
    {
      var i := 0;
      while i < |cs|
        invariant 0 <= i <= |cs|
        invariant ControlsS(State(), cs[i..]) == ControlsS(old(State()), cs)
      {
        assert cs[i..][1..] == cs[i + 1..];
        match cs[i] {
          case PauseCtl(target) => PauseWorkflow(target);
          case ResumeCtl(target) => ResumeWorkflow(target);
          case CancelCtl(target) => CancelWorkflow(target);
        }
        i := i + 1;
      }
    }

    /** The outer loop of `executeStep` that gathers the outputs of earlier stages. */
    method CollectPreviousOutputs(role: AgentRole, outputs: map<AgentRole, string>) returns (previous: seq<AgentContext>)
      requires ValidStages(stages)
      ensures previous == PreviousOutputs(stages, role, outputs)
    {
      var current := StageOf(stages, role);
      previous := [];
      var k := 0;
      while k < |stages|
        invariant 0 <= k <= current
        invariant previous == OutputsOfStages(stages, k, outputs)
      {
        if k >= current {
          break;
        }
        var found := CollectStageOutputs(stages[k], outputs);
        previous := previous + found;
        k := k + 1;
      }
    }

    /** The inner loop: the non-empty outputs of one earlier stage. */
    static method CollectStageOutputs(roles: seq<AgentRole>, outputs: map<AgentRole, string>) returns (found: seq<AgentContext>)
      ensures found == StageOutputs(roles, outputs)
    {
      found := [];
      var j := 0;
      while j < |roles|
        invariant 0 <= j <= |roles|
        invariant found == StageOutputs(roles[..j], outputs)
      {
        assert roles[..j + 1][..j] == roles[..j];
        var priorRole := roles[j];
        if priorRole in outputs && outputs[priorRole] != "" {
          found := found + [AgentContext(priorRole, outputs[priorRole])];
        }
        j := j + 1;
      }
      assert roles[..j] == roles;
    }

    /** The runner's `stream`, `activity` and `result` listeners, applied to its events in order. */
    method Listen(c: StepCall, reports: seq<AgentRunners.RunnerEvent>) returns (tokens: (Option<int>, Option<int>))
      modifies this
      ensures tokens == Tokens(reports, (None, None))
      ensures State() == old(State()).(log := old(log) + Forward(c.id, c.stepId, c.role, reports))
    {
      tokens := (None, None);
      var i := 0;
      while i < |reports|
        invariant 0 <= i <= |reports|
        invariant tokens == Tokens(reports[..i], (None, None))
        invariant State() == old(State()).(log := old(log) + Forward(c.id, c.stepId, c.role, reports[..i]))
      {
        assert reports[..i + 1][..i] == reports[..i];
        match reports[i] {
          case StreamChunk(chunk) =>
            log := log + [Emit(StepStream(c.id, c.stepId, c.role, chunk))];
          case ActivityChange(a) =>
            log := log + [Emit(StepActivity(c.id, c.stepId, c.role, a))];
          case ResultOutput(_, tin, tout) =>
            tokens := (if tin.Some? then tin else tokens.0, if tout.Some? then tout else tokens.1);
          case ErrorMessage(_) =>
        }
        i := i + 1;
      }
      assert reports[..i] == reports;
    }

    /** `executeStep(workflowId, role, userPrompt, projectPath)` with the environment of its attempts. */
    method ExecuteStep(id: string, role: AgentRole, userPrompt: string, projectPath: string, attempts: seq<Attempt>)
      returns (result: StepResult)
      requires ValidStages(stages)
      modifies this
      ensures (State(), result) == ExecuteStepS(stages, old(State()), id, role, userPrompt, projectPath, attempts)
    {
      if id !in stepIds || id !in stepOutputs {
        return StepDone(false);
      }
      var stepIdMap := stepIds[id];
      var stepId := if role in stepIdMap then Some(stepIdMap[role]) else None;
      var previous := CollectPreviousOutputs(role, stepOutputs[id]);
      var prompt := BuildAgentPrompt(role, userPrompt, previous, projectPath);
      var c := StepCall(id, role, stepId, prompt);
      assert c == StepCallOf(stages, State(), id, role, userPrompt, projectPath);
      result := Retry(c, attempts);
    }

    /** The retry loop of `executeStep`. */
    method Retry(c: StepCall, attempts: seq<Attempt>) returns (result: StepResult)
      modifies this
      ensures (State(), result) == AttemptsS(old(State()), c, attempts, 0)
    {
      ghost var goal := AttemptsS(State(), c, attempts, 0);
      var retries: nat := 0;
      while retries <= MaxRetries
        invariant retries <= MaxRetries
        invariant AttemptsS(State(), c, attempts, retries) == goal
        decreases MaxRetries - retries
      {
        var next := RunAttempt(c, attempts, retries);
        if next.Some? {
          return next.value;
        }
        retries := retries + 1;
      }
      return StepDone(false);
    }

    /** One pass of the retry loop: None when a retry follows. */
    method RunAttempt(c: StepCall, attempts: seq<Attempt>, retries: nat) returns (over: Option<StepResult>)
      requires retries <= MaxRetries
      modifies this
      ensures AttemptS(old(State()), c, attempts, retries)
              == if over.None? then Again(State(), retries + 1) else Over(State(), over.value)
    {
      var key := RunnerKey(c.id, c.role);
      if c.id in pipelines && pipelines[c.id].status == Cancelled {
        runners := runners - {key};
        return Some(StepDone(false));
      }
      if retries >= |attempts| {
        return Some(StepSuspended);
      }
      var a := attempts[retries];
      var tokens := Begin(c, retries, a);
      HandleControls(a.during);
      var finish := if key in runners then a.finish else Threw(AgentRunners.KilledMessage);
      match finish {
        case Finished(output) =>
          Succeed(c, a, tokens, output);
          return Some(StepDone(true));
        case Threw(message) =>
          over := Fail(c, a, retries, ErrorText(message));
      }
    }

    /** The start of an attempt: the step marked running, the runner registered and its reports relayed. */
    method Begin(c: StepCall, retries: nat, a: Attempt) returns (tokens: (Option<int>, Option<int>))
      modifies this
      ensures tokens == Tokens(a.reports, (None, None))
      ensures State() == BeginAttempt(old(State()), c, retries, a)
    {
      log := log + [Persist(UpdateStepStatusCall(c.stepId, StartFields(c.prompt, retries, a.startedAt))),
                    Emit(StepStarted(c.id, c.stepId, c.role))];
      runners := runners + {RunnerKey(c.id, c.role)};
      tokens := Listen(c, a.reports);
    }

    /** A successful attempt: the output stored and the step marked completed. */
    method Succeed(c: StepCall, a: Attempt, tokens: (Option<int>, Option<int>), output: string)
      requires tokens == Tokens(a.reports, (None, None))
      modifies this
      ensures State() == SucceedAttempt(old(State()), c, a, output)
    {
      if c.id in stepOutputs {
        stepOutputs := stepOutputs[c.id := stepOutputs[c.id][c.role := output]];
      }
      runners := runners - {RunnerKey(c.id, c.role)};
      log := log + [Persist(UpdateStepStatusCall(c.stepId, CompletedFields(output, a.durationMs, tokens, a.completedAt))),
                    Emit(EngineEvent.StepCompleted(c.id, c.stepId, c.role, output, a.durationMs, tokens.0, tokens.1))];
    }

    /** The `catch` of the retry loop: give up after the last retry or on a cancel, else wait and retry. */
    method Fail(c: StepCall, a: Attempt, retries: nat, error: string) returns (over: Option<StepResult>)
      requires retries <= MaxRetries
      modifies this
      ensures over.Some? ==> over.value == StepDone(false)
      ensures over.None? ==> retries + 1 <= MaxRetries
      ensures var s := old(State());
              var key := RunnerKey(c.id, c.role);
              var n := retries + 1;
              State() == if n > MaxRetries then FailStep(s, c, a, error)
                         else if IsCancelled(s, c.id) then s.(runners := s.runners - {key})
                         else ControlsS(s.(log := s.log + [Emit(StepRetry(c.id, c.stepId, c.role, n, MaxRetries, error)), Sleep(RetryDelay(n))]), a.backoff)
      ensures over.None? <==> retries + 1 <= MaxRetries && !IsCancelled(old(State()), c.id)
    {
      var key := RunnerKey(c.id, c.role);
      var n := retries + 1;
      if n > MaxRetries {
        log := log + [Persist(UpdateStepStatusCall(c.stepId, FailedFields(error, a.completedAt))),
                      Emit(EngineEvent.StepFailed(c.id, c.stepId, c.role, error))];
        runners := runners - {key};
        return Some(StepDone(false));
      }
      if c.id in pipelines && pipelines[c.id].status == Cancelled {
        runners := runners - {key};
        return Some(StepDone(false));
      }
      log := log + [Emit(StepRetry(c.id, c.stepId, c.role, n, MaxRetries, error)), Sleep(RetryDelay(n))];
      HandleControls(a.backoff);
      return None;
    }

    /** The roles of one stage, each awaited before the next starts. */
    method RunRoles(id: string, roles: seq<AgentRole>, userPrompt: string, projectPath: string,
                    attempts: AgentRole -> seq<Attempt>) returns (results: Option<seq<bool>>)
      requires ValidStages(stages)
      modifies this
      ensures (State(), results) == RunRolesS(stages, old(State()), id, roles, 0, [], userPrompt, projectPath, attempts)
    {
      var done: seq<bool> := [];
      var i := 0;
      ghost var goal := RunRolesS(stages, State(), id, roles, 0, [], userPrompt, projectPath, attempts);
      while i < |roles|
        invariant 0 <= i <= |roles|
        invariant RunRolesS(stages, State(), id, roles, i, done, userPrompt, projectPath, attempts) == goal
      {
        var r := ExecuteStep(id, roles[i], userPrompt, projectPath, attempts(roles[i]));
        if r.StepSuspended? {
          return None;
        }
        done := done + [r.ok];
        i := i + 1;
      }
      return Some(done);
    }

    /** The `while (this.paused.has(workflowId))` loop of `executePipeline`. */
    method WaitWhilePaused(id: string, polls: seq<seq<Control>>) returns (w: WaitOutcome)
      requires id in pipelines
      modifies this
      ensures (State(), w) == WaitS(old(State()), id, polls, 0)
    {
      var j := 0;
      ghost var goal := WaitS(State(), id, polls, 0);
      while id in paused
        invariant id in pipelines
        invariant WaitS(State(), id, polls, j) == goal
        decreases |polls| - j
      {
        if j >= |polls| {
          return StillPaused;
        }
        log := log + [Sleep(PollMs)];
        HandleControls(polls[j]);
        if pipelines[id].status == Cancelled {
          CleanupWorkflow(id);
          return Stopped;
        }
        j := j + 1;
      }
      return Proceed;
    }

    /** The marking loop over the settled results of a stage; returns the failed roles' labels. */
    method TallyResults(id: string, roles: seq<AgentRole>, results: seq<bool>) returns (failedRoles: seq<string>)
      requires id in pipelines && |results| == |roles|
      modifies this
      ensures failedRoles == FailedLabels(roles, results)
      ensures State() == old(State()).(pipelines := old(pipelines)[id := old(pipelines)[id].(steps := MarkSucceeded(old(pipelines)[id].steps, roles, results))])
    {
      failedRoles := [];
      var i := 0;
      while i < |roles|
        invariant 0 <= i <= |roles| && id in pipelines
        invariant failedRoles == FailedLabels(roles[..i], results[..i])
        invariant MarkSucceeded(pipelines[id].steps, roles[i..], results[i..]) == MarkSucceeded(old(pipelines)[id].steps, roles, results)
        invariant State() == old(State()).(pipelines := old(pipelines)[id := old(pipelines)[id].(steps := pipelines[id].steps)])
      {
        assert roles[..i + 1][..i] == roles[..i] && results[..i + 1][..i] == results[..i];
        assert roles[i..][1..] == roles[i + 1..] && results[i..][1..] == results[i + 1..];
        if results[i] {
          pipelines := pipelines[id := pipelines[id].(steps := MarkCompleted(pipelines[id].steps, roles[i]))];
        } else {
          failedRoles := failedRoles + [Label(roles[i])];
        }
        i := i + 1;
      }
      assert roles[..i] == roles && results[..i] == results;
    }

    /** One pass of the stage loop of `executePipeline`: None to go on, or how the run ended. */
    method RunStage(id: string, k: nat, userPrompt: string, projectPath: string, script: RunScript) returns (stop: Option<RunResult>)
      requires ValidStages(stages) && k < |stages| && id in pipelines
      modifies this
      ensures StageS(stages, old(State()), id, k, userPrompt, projectPath, script)
              == if stop.None? then Continue(State()) else Stop(State(), stop.value)
    {
      if pipelines[id].status == Cancelled {
        CleanupWorkflow(id);
        return Some(Done);
      }
      var w := WaitWhilePaused(id, script.polls(k));
      if w == Stopped {
        return Some(Done);
      }
      if w == StillPaused {
        return Some(Suspended);
      }
      pipelines := pipelines[id := pipelines[id].(currentStageIndex := Some(k))];
      log := log + [Persist(UpdateWorkflowStatusCall(id, Running, Some(k)))];
      var results := RunRoles(id, stages[k], userPrompt, projectPath, script.attempts);
      if results.None? {
        return Some(Suspended);
      }
      var failedRoles := TallyResults(id, stages[k], results.value);
      if |failedRoles| > 0 {
        if pipelines[id].status == Cancelled {
          CleanupWorkflow(id);
          return Some(Done);
        }
        pipelines := pipelines[id := pipelines[id].(status := Failed)];
        log := log + [Persist(UpdateWorkflowStatusCall(id, Failed, None)), Emit(WorkflowFailed(id, FailureMessage(failedRoles)))];
        CleanupWorkflow(id);
        return Some(Done);
      }
      return None;
    }

    /** `executePipeline(workflowId, userPrompt, projectPath)` with the environment of the run. */
    method ExecutePipeline(id: string, userPrompt: string, projectPath: string, script: RunScript) returns (result: RunResult)
      requires ValidStages(stages)
      modifies this
      ensures (State(), result) == ExecutePipelineS(stages, old(State()), id, userPrompt, projectPath, script)
    {
      if id !in pipelines {
        return Done;
      }
      ghost var goal := RunFromS(stages, State(), id, 0, userPrompt, projectPath, script);
      var k := 0;
      while k < |stages|
        invariant 0 <= k <= |stages| && id in pipelines
        invariant RunFromS(stages, State(), id, k, userPrompt, projectPath, script) == goal
      {
        var stop := RunStage(id, k, userPrompt, projectPath, script);
        if stop.Some? {
          return stop.value;
        }
        k := k + 1;
      }
      pipelines := pipelines[id := pipelines[id].(status := Completed)];
      log := log + [Persist(UpdateWorkflowStatusCall(id, Completed, None)), Emit(WorkflowCompleted(id))];
      CleanupWorkflow(id);
      return Done;
    }
  }
}
