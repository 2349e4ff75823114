/**
 * An invariant of the workflow engine (src/lib/workflow/engine.ts), kept by
 * every operation of EngineSpec:
 *
 *  - every status event (`workflow:created`, `workflow:completed`,
 *    `workflow:failed`, `workflow:paused`, `workflow:cancelled`,
 *    `step:started`, `step:completed`, `step:failed`) comes right after the
 *    database write that records that status, so a client told about a
 *    status can always read it back;
 *  - a workflow is in the paused set exactly when its pipeline is held
 *    with status paused.
 */
module EngineSound {
  import opened Optional
  import opened Types
  import opened Stages
  import opened Pipeline
  import opened EngineSpec
  import Queries
  import AgentRunners

  /** The events that announce a status the database must already hold. */
  predicate Announces(e: EngineEvent)
  {
    e.WorkflowCreated? || e.WorkflowCompleted? || e.WorkflowFailed? || e.WorkflowPaused? || e.WorkflowCancelled?
    || e.StepStarted? || e.StepCompleted? || e.StepFailed?
  }

  /** `prev` is the database write that stores the status `e` announces. */
  predicate Records(prev: Effect, e: EngineEvent)
  {
    match e
    case WorkflowCreated(id, _) => prev == Persist(UpdateWorkflowStatusCall(id, Running, None))
    case WorkflowCompleted(id) => prev == Persist(UpdateWorkflowStatusCall(id, Completed, None))
    case WorkflowFailed(id, _) => prev == Persist(UpdateWorkflowStatusCall(id, Failed, None))
    case WorkflowPaused(id) => prev == Persist(UpdateWorkflowStatusCall(id, Paused, None))
    case WorkflowCancelled(id) => prev == Persist(UpdateWorkflowStatusCall(id, Cancelled, None))
    case StepStarted(_, stepId, _) => WritesStep(prev, stepId, StepRunning)
    case StepCompleted(_, stepId, _, _, _, _, _) => WritesStep(prev, stepId, StepStatus.StepCompleted)
    case StepFailed(_, stepId, _, _) => WritesStep(prev, stepId, StepStatus.StepFailed)
    case _ => true
  }

  /** `prev` is an `updateStepStatus` of that step that sets that status. */
  predicate WritesStep(prev: Effect, stepId: Option<string>, status: StepStatus)
  {
    prev.Persist? && prev.call.UpdateStepStatusCall? && prev.call.stepId == stepId
    && prev.call.updates.status == Queries.Present(status)
  }

  /** Entry i, if it announces a status, follows the write of that status. */
  predicate Backed(log: seq<Effect>, i: nat)
    requires i < |log|
  {
    log[i].Emit? && Announces(log[i].event) ==> 0 < i && Records(log[i - 1], log[i].event)
  }

  /** Every status event in the log follows its database write. */
  predicate PersistedFirst(log: seq<Effect>)
  {
    forall i :: 0 <= i < |log| ==> Backed(log, i)
  }

  /** A block of effects that can be appended to a log without looking back at it. */
  predicate Opens(b: seq<Effect>)
  {
    b == [] || !(b[0].Emit? && Announces(b[0].event))
  }

  /** Nothing in the block announces a status. */
  predicate Quiet(b: seq<Effect>)
  {
    forall i :: 0 <= i < |b| ==> !(b[i].Emit? && Announces(b[i].event))
  }

  /** The paused set is exactly the held pipelines whose status is paused. */
  ghost predicate PausedExact(s: EngineState)
  {
    forall x :: x in s.paused <==> x in s.pipelines && s.pipelines[x].status == Paused
  }

  ghost predicate Sound(s: EngineState)
  {
    PersistedFirst(s.log) && PausedExact(s)
  }

  lemma SoundFresh()
    ensures Sound(Fresh)
  {
  }

  /** Appending a block that opens with no status event keeps the log in order. */
  lemma AppendBacked(a: seq<Effect>, b: seq<Effect>)
    requires PersistedFirst(a) && PersistedFirst(b) && Opens(b)
    ensures PersistedFirst(a + b)
  {
    var ab := a + b;
    forall i | 0 <= i < |ab|
      ensures Backed(ab, i)
    {
      if i < |a| {
        assert ab[i] == a[i];
        assert Backed(a, i);
        if 0 < i {
          assert ab[i - 1] == a[i - 1];
        }
      } else {
        var j := i - |a|;
        assert ab[i] == b[j];
        assert Backed(b, j);
        if 0 < j {
          assert ab[i - 1] == b[j - 1];
        }
      }
    }
  }

  /** A quiet block keeps the log in order. */
  lemma AppendQuiet(a: seq<Effect>, b: seq<Effect>)
    requires PersistedFirst(a) && Quiet(b)
    ensures PersistedFirst(a + b)
  {
    assert forall i :: 0 <= i < |b| ==> Backed(b, i);
    AppendBacked(a, b);
  }

  /** A write followed by the event that announces it keeps the log in order. */
  lemma AppendPair(a: seq<Effect>, w: Effect, e: EngineEvent)
    requires PersistedFirst(a) && !(w.Emit? && Announces(w.event)) && Records(w, e)
    ensures PersistedFirst(a + [w, Emit(e)])
  {
    var b := [w, Emit(e)];
    assert Backed(b, 0) && Backed(b, 1);
    AppendBacked(a, b);
  }

  /** The listeners only relay stream and activity events. */
  lemma {:induction false} ForwardQuiet(id: string, stepId: Option<string>, role: AgentRole, reports: seq<AgentRunners.RunnerEvent>)
    ensures Quiet(Forward(id, stepId, role, reports))
  {
    if reports != [] {
      var n := |reports| - 1;
      ForwardQuiet(id, stepId, role, reports[..n]);
      var f: seq<Effect> := Forward(id, stepId, role, reports[..n]);
      var g: seq<Effect> := Relay(id, stepId, role, reports[n]);
      assert Forward(id, stepId, role, reports) == f + g;
      forall i | 0 <= i < |f + g|
        ensures !((f + g)[i].Emit? && Announces((f + g)[i].event))
      {
        if i < |f| {
          assert (f + g)[i] == f[i];
        } else {
          assert (f + g)[i] == g[i - |f|];
        }
      }
    }
  }

  lemma PauseSound(s: EngineState, id: string)
    requires Sound(s)
    ensures Sound(PauseS(s, id))
  {
    if id in s.pipelines && s.pipelines[id].status == Running {
      AppendPair(s.log, Persist(UpdateWorkflowStatusCall(id, Paused, None)), WorkflowPaused(id));
    }
  }

  lemma ResumeSound(s: EngineState, id: string)
    requires Sound(s)
    ensures Sound(ResumeS(s, id))
  {
    if id in s.pipelines && s.pipelines[id].status == Paused {
      AppendQuiet(s.log, [Persist(UpdateWorkflowStatusCall(id, Running, None))]);
    }
  }

  lemma CancelSound(s: EngineState, id: string)
    requires Sound(s)
    ensures Sound(CancelS(s, id))
  {
    if id in s.pipelines {
      AppendPair(s.log, Persist(UpdateWorkflowStatusCall(id, Cancelled, None)), WorkflowCancelled(id));
    }
  }

  lemma CleanupSound(s: EngineState, id: string)
    requires Sound(s)
    ensures Sound(CleanupS(s, id))
  {
  }

  /** Requests arriving in any number and order keep the invariant. */
  lemma {:induction false} ControlsSound(s: EngineState, cs: seq<Control>)
    requires Sound(s)
    ensures Sound(ControlsS(s, cs))
    decreases |cs|
  {
    if cs != [] {
      match cs[0] {
        case PauseCtl(id) => PauseSound(s, id);
        case ResumeCtl(id) => ResumeSound(s, id);
        case CancelCtl(id) => CancelSound(s, id);
      }
      ControlsSound(ControlS(s, cs[0]), cs[1..]);
    }
  }

  /** `startWorkflow` with a fresh id: persists the creation and the running status before `workflow:created`. */
  lemma StartSound(s: EngineState, id: string, userPrompt: string, projectPath: string, dbSteps: seq<AgentStep>)
    requires Sound(s) && id !in s.pipelines
    ensures Sound(StartS(s, id, userPrompt, projectPath, dbSteps))
  {
    var title := Title(userPrompt);
    var create := Persist(CreateWorkflowCall(id, title, userPrompt, projectPath));
    AppendQuiet(s.log, [create]);
    AppendPair(s.log + [create], Persist(UpdateWorkflowStatusCall(id, Running, None)), WorkflowCreated(id, title));
    assert s.log + [create] + [Persist(UpdateWorkflowStatusCall(id, Running, None)), Emit(WorkflowCreated(id, title))]
        == StartS(s, id, userPrompt, projectPath, dbSteps).log;
  }

  lemma BeginSound(s: EngineState, c: StepCall, retries: nat, a: Attempt)
    requires Sound(s)
    ensures Sound(BeginAttempt(s, c, retries, a))
  {
    var w := Persist(UpdateStepStatusCall(c.stepId, StartFields(c.prompt, retries, a.startedAt)));
    AppendPair(s.log, w, StepStarted(c.id, c.stepId, c.role));
    ForwardQuiet(c.id, c.stepId, c.role, a.reports);
    AppendQuiet(s.log + [w, Emit(StepStarted(c.id, c.stepId, c.role))], Forward(c.id, c.stepId, c.role, a.reports));
  }

  lemma SucceedSound(s: EngineState, c: StepCall, a: Attempt, output: string)
    requires Sound(s)
    ensures Sound(SucceedAttempt(s, c, a, output))
  {
    var tokens := Tokens(a.reports, (None, None));
    AppendPair(s.log, Persist(UpdateStepStatusCall(c.stepId, CompletedFields(output, a.durationMs, tokens, a.completedAt))),
               EngineEvent.StepCompleted(c.id, c.stepId, c.role, output, a.durationMs, tokens.0, tokens.1));
  }

  lemma FailStepSound(s: EngineState, c: StepCall, a: Attempt, error: string)
    requires Sound(s)
    ensures Sound(FailStep(s, c, a, error))
  {
    AppendPair(s.log, Persist(UpdateStepStatusCall(c.stepId, FailedFields(error, a.completedAt))),
               EngineEvent.StepFailed(c.id, c.stepId, c.role, error));
  }

  lemma AttemptSound(s: EngineState, c: StepCall, attempts: seq<Attempt>, retries: nat)
    requires Sound(s) && retries <= MaxRetries
    ensures var p := AttemptS(s, c, attempts, retries); Sound(if p.Again? then p.next else p.last)
  {
    var key := RunnerKey(c.id, c.role);
    if !IsCancelled(s, c.id) && retries < |attempts| {
      var a := attempts[retries];
      BeginSound(s, c, retries, a);
      var s1 := ControlsS(BeginAttempt(s, c, retries, a), a.during);
      ControlsSound(BeginAttempt(s, c, retries, a), a.during);
      var finish := if key in s1.runners then a.finish else Threw(AgentRunners.KilledMessage);
      match finish
      case Finished(output) => SucceedSound(s1, c, a, output);
      case Threw(message) =>
        var n := retries + 1;
        var error := ErrorText(message);
        if n > MaxRetries {
          FailStepSound(s1, c, a, error);
        } else if !IsCancelled(s1, c.id) {
          var block := [Emit(StepRetry(c.id, c.stepId, c.role, n, MaxRetries, error)), Sleep(RetryDelay(n))];
          AppendQuiet(s1.log, block);
          ControlsSound(s1.(log := s1.log + block), a.backoff);
        }
    }
  }

  lemma {:induction false} AttemptsSound(s: EngineState, c: StepCall, attempts: seq<Attempt>, retries: nat)
    requires Sound(s) && retries <= MaxRetries
    ensures Sound(AttemptsS(s, c, attempts, retries).0)
    decreases MaxRetries - retries
  {
    AttemptSound(s, c, attempts, retries);
    match AttemptS(s, c, attempts, retries)
    case Over(_, _) =>
    case Again(s1, n) => AttemptsSound(s1, c, attempts, n);
  }

  lemma ExecuteStepSound(stages: StageTable, s: EngineState, id: string, role: AgentRole,
                         userPrompt: string, projectPath: string, attempts: seq<Attempt>)
    requires ValidStages(stages) && Sound(s)
    ensures Sound(ExecuteStepS(stages, s, id, role, userPrompt, projectPath, attempts).0)
  {
    if id in s.stepIds && id in s.stepOutputs {
      AttemptsSound(s, StepCallOf(stages, s, id, role, userPrompt, projectPath), attempts, 0);
    }
  }

  lemma {:induction false} RunRolesSound(stages: StageTable, s: EngineState, id: string, roles: seq<AgentRole>, i: nat,
                                         done: seq<bool>, userPrompt: string, projectPath: string,
                                         attempts: AgentRole -> seq<Attempt>)
    requires ValidStages(stages) && i <= |roles| && Sound(s)
    ensures Sound(RunRolesS(stages, s, id, roles, i, done, userPrompt, projectPath, attempts).0)
    decreases |roles| - i
  {
    if i < |roles| {
      ExecuteStepSound(stages, s, id, roles[i], userPrompt, projectPath, attempts(roles[i]));
      var (s1, res) := ExecuteStepS(stages, s, id, roles[i], userPrompt, projectPath, attempts(roles[i]));
      if res.StepDone? {
        RunRolesSound(stages, s1, id, roles, i + 1, done + [res.ok], userPrompt, projectPath, attempts);
      }
    }
  }

  lemma {:induction false} WaitSound(s: EngineState, id: string, polls: seq<seq<Control>>, j: nat)
    requires id in s.pipelines && Sound(s)
    ensures Sound(WaitS(s, id, polls, j).0)
    decreases |polls| - j
  {
    if id in s.paused && j < |polls| {
      AppendQuiet(s.log, [Sleep(PollMs)]);
      var s1 := ControlsS(s.(log := s.log + [Sleep(PollMs)]), polls[j]);
      ControlsSound(s.(log := s.log + [Sleep(PollMs)]), polls[j]);
      if !IsCancelled(s1, id) {
        WaitSound(s1, id, polls, j + 1);
      }
    }
  }

  lemma StageSound(stages: StageTable, s: EngineState, id: string, k: nat, userPrompt: string, projectPath: string,
                   script: RunScript)
    requires ValidStages(stages) && k < |stages| && id in s.pipelines && Sound(s)
    ensures StageS(stages, s, id, k, userPrompt, projectPath, script).Continue? ==> Sound(StageS(stages, s, id, k, userPrompt, projectPath, script).next)
    ensures StageS(stages, s, id, k, userPrompt, projectPath, script).Stop? ==> Sound(StageS(stages, s, id, k, userPrompt, projectPath, script).last)
  {
    if s.pipelines[id].status != Cancelled {
      WaitSound(s, id, script.polls(k), 0);
      var (s1, w) := WaitS(s, id, script.polls(k), 0);
      if w == Proceed {
        var s2 := EnterStage(s1, id, k);
        AppendQuiet(s1.log, [Persist(UpdateWorkflowStatusCall(id, Running, Some(k)))]);
        RunRolesSound(stages, s2, id, stages[k], 0, [], userPrompt, projectPath, script.attempts);
        var (s3, results) := RunRolesS(stages, s2, id, stages[k], 0, [], userPrompt, projectPath, script.attempts);
        if results.Some? {
          var failed := FailedLabels(stages[k], results.value);
          if failed != [] && s3.pipelines[id].status != Cancelled {
            AppendPair(s3.log, Persist(UpdateWorkflowStatusCall(id, Failed, None)), WorkflowFailed(id, FailureMessage(failed)));
          }
        }
      }
    }
  }

  /** A whole pipeline run, completion included, keeps the invariant. */
  lemma {:induction false} RunFromSound(stages: StageTable, s: EngineState, id: string, k: nat, userPrompt: string,
                                        projectPath: string, script: RunScript)
    requires ValidStages(stages) && k <= |stages| && id in s.pipelines && Sound(s)
    ensures Sound(RunFromS(stages, s, id, k, userPrompt, projectPath, script).0)
    decreases |stages| - k
  {
    if k == |stages| {
      CompleteSound(stages, s, id, userPrompt, projectPath, script);
    } else {
      StageSound(stages, s, id, k, userPrompt, projectPath, script);
      var st := StageS(stages, s, id, k, userPrompt, projectPath, script);
      RunFromUnfold(stages, s, id, k, userPrompt, projectPath, script);
      if st.Continue? {
        RunFromSound(stages, st.next, id, k + 1, userPrompt, projectPath, script);
      }
    }
  }

  /** One turn of the stage loop. */
  lemma RunFromUnfold(stages: StageTable, s: EngineState, id: string, k: nat, userPrompt: string,
                      projectPath: string, script: RunScript)
    requires ValidStages(stages) && k < |stages| && id in s.pipelines
    ensures var st := StageS(stages, s, id, k, userPrompt, projectPath, script);
            RunFromS(stages, s, id, k, userPrompt, projectPath, script)
            == if st.Continue? then RunFromS(stages, st.next, id, k + 1, userPrompt, projectPath, script)
               else (st.last, st.result)
  {
  }

  lemma CompleteSound(stages: StageTable, s: EngineState, id: string, userPrompt: string, projectPath: string, script: RunScript)
    requires ValidStages(stages) && id in s.pipelines && Sound(s)
    ensures Sound(RunFromS(stages, s, id, |stages|, userPrompt, projectPath, script).0)
  {
    AppendPair(s.log, Persist(UpdateWorkflowStatusCall(id, Completed, None)), WorkflowCompleted(id));
    var c := CompleteWorkflow(s, id);
    assert PausedExact(CleanupS(c, id)) by {
      forall x ensures x in CleanupS(c, id).paused <==> x in CleanupS(c, id).pipelines && CleanupS(c, id).pipelines[x].status == Paused {
        if x != id {
          assert x in c.paused <==> x in s.paused;
        }
      }
    }
  }

  lemma ExecutePipelineSound(stages: StageTable, s: EngineState, id: string, userPrompt: string, projectPath: string,
                             script: RunScript)
    requires ValidStages(stages) && Sound(s)
    ensures Sound(ExecutePipelineS(stages, s, id, userPrompt, projectPath, script).0)
  {
    if id in s.pipelines {
      RunFromSound(stages, s, id, 0, userPrompt, projectPath, script);
    }
  }
}
