/**
 * What the workflow engine (src/lib/workflow/engine.ts) promises about one
 * run: the title, the context a step sees, the step ids it writes to, the
 * bound on attempts and the retry schedule, what a cancel stops, and the
 * stage barrier.
 */
module EngineProps {
  import opened Optional
  import opened Strings
  import opened Types
  import opened Stages
  import opened Pipeline
  import opened ContextBuilder
  import opened EngineSpec
  import Queries

  // ---------------------------------------------------------------------
  // startWorkflow
  // ---------------------------------------------------------------------

  /** The title is the prompt itself up to 80 characters, else its first 80 and "...". */
  lemma TitleShape(userPrompt: string)
    ensures |userPrompt| <= 80 ==> Title(userPrompt) == userPrompt
    ensures |userPrompt| > 80 ==> |Title(userPrompt)| == 83 && Title(userPrompt)[..80] == userPrompt[..80]
                                  && Title(userPrompt)[80..] == "..."
  {
  }

  /** Steps with distinct roles: each role maps to the id of its step, and only those roles have ids. */
  lemma {:induction false} StepIdMapDistinct(steps: seq<AgentStep>)
    requires forall i, j :: 0 <= i < j < |steps| ==> steps[i].role != steps[j].role
    ensures forall i :: 0 <= i < |steps| ==> steps[i].role in StepIdMap(steps) && StepIdMap(steps)[steps[i].role] == steps[i].id
    ensures forall r :: r in StepIdMap(steps) <==> exists i :: 0 <= i < |steps| && steps[i].role == r
  {
    if steps != [] {
      var n := |steps| - 1;
      StepIdMapDistinct(steps[..n]);
      forall i | 0 <= i < n
        ensures steps[i].role in StepIdMap(steps) && StepIdMap(steps)[steps[i].role] == steps[i].id
      {
        assert steps[..n][i] == steps[i];
      }
      forall r | r in StepIdMap(steps)
        ensures exists i :: 0 <= i < |steps| && steps[i].role == r
      {
        if r != steps[n].role {
          var i :| 0 <= i < n && steps[..n][i].role == r;
          assert steps[i].role == r;
        }
      }
      forall r | exists i :: 0 <= i < |steps| && steps[i].role == r
        ensures r in StepIdMap(steps)
      {
        var i :| 0 <= i < |steps| && steps[i].role == r;
        if i < n {
          assert steps[..n][i].role == r;
        }
      }
    }
  }

  /**
   * With the steps `createWorkflow` stores for a fresh workflow, `startWorkflow`
   * maps every role to the id created for it at the role's AGENT_ORDER position.
   */
  lemma StartStepIds(db: Queries.Db, s: EngineState, id: string, title: string, userPrompt: string, projectPath: string,
                     stepIds: seq<string>, now: Stamp)
    requires Queries.WellFormed(db) && |stepIds| == |AgentOrder| && !Queries.Conflict(db, id, stepIds)
    ensures Queries.WellFormed(Queries.Created(db, id, title, userPrompt, projectPath, stepIds, now))
    ensures var dbSteps := Queries.GetStepsForWorkflow(Queries.Created(db, id, title, userPrompt, projectPath, stepIds, now), id);
            var ids := StartS(s, id, userPrompt, projectPath, dbSteps).stepIds[id];
            forall i :: 0 <= i < |AgentOrder| ==> AgentOrder[i] in ids && ids[AgentOrder[i]] == stepIds[i]
  {
    Queries.CreatedWorkflowSteps(db, id, title, userPrompt, projectPath, stepIds, now);
    var dbSteps := Queries.GetStepsForWorkflow(Queries.Created(db, id, title, userPrompt, projectPath, stepIds, now), id);
    OrderedStepIds(dbSteps, stepIds);
  }

  /** Steps in AGENT_ORDER, one per role: the id map sends each role to the id at its position. */
  lemma OrderedStepIds(dbSteps: seq<AgentStep>, stepIds: seq<string>)
    requires |dbSteps| == |stepIds| == |AgentOrder|
    requires forall i :: 0 <= i < |dbSteps| ==> dbSteps[i].role == AgentOrder[i] && dbSteps[i].id == stepIds[i]
    ensures forall i :: 0 <= i < |AgentOrder| ==> AgentOrder[i] in StepIdMap(dbSteps) && StepIdMap(dbSteps)[AgentOrder[i]] == stepIds[i]
  {
    AgentOrderDistinct();
    StepIdMapDistinct(dbSteps);
  }

  /** No role appears twice in AGENT_ORDER. */
  lemma AgentOrderDistinct()
    ensures forall i, j :: 0 <= i < j < |AgentOrder| ==> AgentOrder[i] != AgentOrder[j]
  {
    forall i, j | 0 <= i < j < |AgentOrder|
      ensures AgentOrder[i] != AgentOrder[j]
    {
      assert IndexOf(AgentOrder[i]) == i && IndexOf(AgentOrder[j]) == j;
    }
  }

  // ---------------------------------------------------------------------
  // executeStep: the context it builds
  // ---------------------------------------------------------------------

  /**
   * A step sees exactly the non-empty outputs of the roles of strictly
   * earlier stages (never a peer of its own stage, nor a later role).
   */
  lemma PreviousOutputsEarlier(stages: StageTable, role: AgentRole, outputs: map<AgentRole, string>, c: AgentContext)
    requires ValidStages(stages)
    ensures c in PreviousOutputs(stages, role, outputs)
        <==> StageOf(stages, c.role) < StageOf(stages, role) && c.role in outputs && c.output == outputs[c.role] && c.output != ""
  {
    var hi := StageOf(stages, role);
    var k := StageOf(stages, c.role);
    if c in PreviousOutputs(stages, role, outputs) {
      var j :| 0 <= j < hi && c.role in stages[j];
      assert j == k;
    }
  }

  // ---------------------------------------------------------------------
  // executeStep: attempts and retries
  // ---------------------------------------------------------------------

  /** The number of `step:started` events in a log. */
  function Starts(log: seq<Effect>): nat
  {
    if log == [] then 0
    else (if log[0].Emit? && log[0].event.StepStarted? then 1 else 0) + Starts(log[1..])
  }

  lemma {:induction false} StartsAppend(a: seq<Effect>, b: seq<Effect>)
    ensures Starts(a + b) == Starts(a) + Starts(b)
  {
    if a != [] {
      assert (a + b)[0] == a[0];
      assert (a + b)[1..] == a[1..] + b;
      StartsAppend(a[1..], b);
    } else {
      assert a + b == b;
    }
  }

  /** The listeners relay no `step:started`. */
  lemma {:induction false} ForwardStartsNothing(id: string, stepId: Option<string>, role: AgentRole, reports: seq<AgentRunners.RunnerEvent>)
    ensures Starts(Forward(id, stepId, role, reports)) == 0
  {
    if reports != [] {
      var n := |reports| - 1;
      ForwardStartsNothing(id, stepId, role, reports[..n]);
      StartsAppend(Forward(id, stepId, role, reports[..n]), Relay(id, stepId, role, reports[n]));
    }
  }

  /** A single entry counts when it is a `step:started` event. */
  lemma StartsOne(x: Effect)
    ensures Starts([x]) == if x.Emit? && x.event.StepStarted? then 1 else 0
  {
    assert [x][1..] == [];
  }

  /** Two entries count one by one. */
  lemma StartsTwo(x: Effect, y: Effect)
    ensures Starts([x, y]) == Starts([x]) + Starts([y])
  {
    assert [x, y] == [x] + [y];
    StartsAppend([x], [y]);
  }

  /** One pause, resume or cancel request starts no step. */
  lemma ControlStartsNothing(s: EngineState, c: Control)
    ensures Starts(ControlS(s, c).log) == Starts(s.log)
  {
    var r := ControlS(s, c);
    if r.log != s.log {
      var b := r.log[|s.log|..];
      assert r.log == s.log + b;
      StartsAppend(s.log, b);
      match c {
        case PauseCtl(id) =>
          StartsTwo(Persist(UpdateWorkflowStatusCall(id, Paused, None)), Emit(WorkflowPaused(id)));
          StartsOne(Persist(UpdateWorkflowStatusCall(id, Paused, None)));
          StartsOne(Emit(WorkflowPaused(id)));
        case ResumeCtl(id) =>
          StartsOne(Persist(UpdateWorkflowStatusCall(id, Running, None)));
        case CancelCtl(id) =>
          StartsTwo(Persist(UpdateWorkflowStatusCall(id, Cancelled, None)), Emit(WorkflowCancelled(id)));
          StartsOne(Persist(UpdateWorkflowStatusCall(id, Cancelled, None)));
          StartsOne(Emit(WorkflowCancelled(id)));
      }
    }
  }

  /** Pause, resume and cancel requests start no step. */
  lemma {:induction false} ControlsStartNothing(s: EngineState, cs: seq<Control>)
    ensures Starts(ControlsS(s, cs).log) == Starts(s.log)
    decreases |cs|
  {
    if cs != [] {
      ControlStartsNothing(s, cs[0]);
      ControlsStartNothing(ControlS(s, cs[0]), cs[1..]);
    }
  }

  /** Two entries of which neither is a `step:started` event. */
  lemma StartsNone(x: Effect, y: Effect)
    requires !(x.Emit? && x.event.StepStarted?) && !(y.Emit? && y.event.StepStarted?)
    ensures Starts([x, y]) == 0
  {
    StartsTwo(x, y);
    StartsOne(x);
    StartsOne(y);
  }

  /** Beginning an attempt logs exactly one `step:started`. */
  lemma BeginStarts(s: EngineState, c: StepCall, retries: nat, a: Attempt)
    ensures Starts(BeginAttempt(s, c, retries, a).log) == Starts(s.log) + 1
  {
    var w := Persist(UpdateStepStatusCall(c.stepId, StartFields(c.prompt, retries, a.startedAt)));
    var e := Emit(StepStarted(c.id, c.stepId, c.role));
    ForwardStartsNothing(c.id, c.stepId, c.role, a.reports);
    StartsTwo(w, e);
    StartsOne(w);
    StartsOne(e);
    StartsAppend(s.log, [w, e]);
    StartsAppend(s.log + [w, e], Forward(c.id, c.stepId, c.role, a.reports));
  }

  /** Appending two entries that are not `step:started` events. */
  lemma StartsKeep(log: seq<Effect>, x: Effect, y: Effect)
    requires !(x.Emit? && x.event.StepStarted?) && !(y.Emit? && y.event.StepStarted?)
    ensures Starts(log + [x, y]) == Starts(log)
  {
    StartsNone(x, y);
    StartsAppend(log, [x, y]);
  }

  /** One pass of the retry loop starts the runner at most once, and exactly once when a retry follows. */
  lemma AttemptStarts(s: EngineState, c: StepCall, attempts: seq<Attempt>, retries: nat)
    requires retries <= MaxRetries
    ensures AttemptS(s, c, attempts, retries).Again? ==> Starts(AttemptS(s, c, attempts, retries).next.log) == Starts(s.log) + 1
    ensures AttemptS(s, c, attempts, retries).Over? ==> Starts(AttemptS(s, c, attempts, retries).last.log) <= Starts(s.log) + 1
  {
    var key := RunnerKey(c.id, c.role);
    if !IsCancelled(s, c.id) && retries < |attempts| {
      var a := attempts[retries];
      var s0 := BeginAttempt(s, c, retries, a);
      BeginStarts(s, c, retries, a);
      var s1 := ControlsS(s0, a.during);
      ControlsStartNothing(s0, a.during);
      var finish := if key in s1.runners then a.finish else Threw(AgentRunners.KilledMessage);
      match finish {
        case Finished(output) =>
          var tokens := Tokens(a.reports, (None, None));
          StartsKeep(s1.log, Persist(UpdateStepStatusCall(c.stepId, CompletedFields(output, a.durationMs, tokens, a.completedAt))),
                     Emit(EngineEvent.StepCompleted(c.id, c.stepId, c.role, output, a.durationMs, tokens.0, tokens.1)));
        case Threw(message) =>
          var n := retries + 1;
          var error := ErrorText(message);
          if n > MaxRetries {
            StartsKeep(s1.log, Persist(UpdateStepStatusCall(c.stepId, FailedFields(error, a.completedAt))),
                       Emit(EngineEvent.StepFailed(c.id, c.stepId, c.role, error)));
          } else if !IsCancelled(s1, c.id) {
            var x, y := Emit(StepRetry(c.id, c.stepId, c.role, n, MaxRetries, error)), Sleep(RetryDelay(n));
            StartsKeep(s1.log, x, y);
            ControlsStartNothing(s1.(log := s1.log + [x, y]), a.backoff);
          }
      }
    }
  }

  /** `executeStep`'s loop from attempt `retries` on starts the runner at most 3 - retries more times. */
  lemma {:induction false} AttemptsBounded(s: EngineState, c: StepCall, attempts: seq<Attempt>, retries: nat)
    requires retries <= MaxRetries
    ensures Starts(AttemptsS(s, c, attempts, retries).0.log) <= Starts(s.log) + (MaxRetries + 1 - retries)
    decreases MaxRetries - retries
  {
    AttemptStarts(s, c, attempts, retries);
    match AttemptS(s, c, attempts, retries)
    case Over(_, _) =>
    case Again(s1, n) => AttemptsBounded(s1, c, attempts, n);
  }

  /** A step is attempted at most MAX_RETRIES + 1 = 3 times. */
  lemma StepAttemptsAtMostThree(stages: StageTable, s: EngineState, id: string, role: AgentRole,
                                userPrompt: string, projectPath: string, attempts: seq<Attempt>)
    requires ValidStages(stages)
    ensures Starts(ExecuteStepS(stages, s, id, role, userPrompt, projectPath, attempts).0.log) <= Starts(s.log) + 3
  {
    if id in s.stepIds && id in s.stepOutputs {
      AttemptsBounded(s, StepCallOf(stages, s, id, role, userPrompt, projectPath), attempts, 0);
    }
  }

  /**
   * A pass that leads to another attempt has emitted `step:retry` with
   * attempt number retries + 1 (1 or 2) out of 2, followed by the wait of
   * 2000 ms after the first failure and 4000 ms after the second.
   */
  lemma RetryAnnounced(s: EngineState, c: StepCall, attempts: seq<Attempt>, retries: nat)
    requires retries <= MaxRetries
    requires AttemptS(s, c, attempts, retries).Again?
    ensures var next := AttemptS(s, c, attempts, retries).next;
            exists p :: |s.log| <= p && p + 1 < |next.log| && next.log[p].Emit? && next.log[p].event.StepRetry?
                        && next.log[p].event == StepRetry(c.id, c.stepId, c.role, retries + 1, 2, next.log[p].event.reason)
                        && next.log[p + 1] == Sleep(if retries == 0 then 2000 else 4000)
  {
    var key := RunnerKey(c.id, c.role);
    var a := attempts[retries];
    var s0 := BeginAttempt(s, c, retries, a);
    var s1 := ControlsS(s0, a.during);
    var finish := if key in s1.runners then a.finish else Threw(AgentRunners.KilledMessage);
    var n := retries + 1;
    var error := ErrorText(finish.message);
    var block := [Emit(StepRetry(c.id, c.stepId, c.role, n, MaxRetries, error)), Sleep(RetryDelay(n))];
    var s2 := s1.(log := s1.log + block);
    var next := ControlsS(s2, a.backoff);
    assert next == AttemptS(s, c, attempts, retries).next;
    var p := |s1.log|;
    assert s2.log <= next.log;
    assert next.log[p] == s2.log[p] && next.log[p + 1] == s2.log[p + 1];
  }

  // ---------------------------------------------------------------------
  // Cancellation
  // ---------------------------------------------------------------------

  /** Once cancelled, a workflow stays cancelled whatever requests arrive. */
  lemma {:induction false} CancelSticks(s: EngineState, cs: seq<Control>, id: string)
    requires IsCancelled(s, id)
    ensures IsCancelled(ControlsS(s, cs), id)
    decreases |cs|
  {
    if cs != [] {
      CancelSticks(ControlS(s, cs[0]), cs[1..], id);
    }
  }

  /** A cancel that lands among the requests leaves no runner of that workflow registered. */
  lemma {:induction false} CancelKills(s: EngineState, cs: seq<Control>, id: string)
    requires IsCancelled(ControlsS(s, cs), id) && !IsCancelled(s, id)
    ensures forall k :: k in ControlsS(s, cs).runners ==> !StartsWith(k, id)
    decreases |cs|
  {
    var s1 := ControlS(s, cs[0]);
    if IsCancelled(s1, id) {
      assert cs[0] == CancelCtl(id);
      assert forall k :: k in s1.runners ==> !StartsWith(k, id);
    } else {
      CancelKills(s1, cs[1..], id);
    }
  }

  /** A step only succeeds when its workflow is not cancelled at the end of the attempt. */
  lemma {:induction false} SuccessNotCancelled(s: EngineState, c: StepCall, attempts: seq<Attempt>, retries: nat)
    requires retries <= MaxRetries
    ensures AttemptsS(s, c, attempts, retries).1 == StepDone(true) ==> !IsCancelled(AttemptsS(s, c, attempts, retries).0, c.id)
    decreases MaxRetries - retries
  {
    var key := RunnerKey(c.id, c.role);
    match AttemptS(s, c, attempts, retries)
    case Again(s1, n) => SuccessNotCancelled(s1, c, attempts, n);
    case Over(_, res) =>
      if res == StepDone(true) {
        var a := attempts[retries];
        var s0 := BeginAttempt(s, c, retries, a);
        var s1 := ControlsS(s0, a.during);
        assert key in s1.runners;
        StartsWithAppend(c.id, ":" + RoleName(c.role));
        assert c.id + (":" + RoleName(c.role)) == key;
        if IsCancelled(s1, c.id) {
          CancelKills(s0, a.during, c.id);
        }
      }
  }

  /** A cancelled workflow's step returns false at once, with nothing logged. */
  lemma CancelledStepQuiet(s: EngineState, c: StepCall, attempts: seq<Attempt>)
    requires IsCancelled(s, c.id)
    ensures AttemptsS(s, c, attempts, 0) == (s.(runners := s.runners - {RunnerKey(c.id, c.role)}), StepDone(false))
  {
  }

  /** The pause wait only lets the stage begin when the workflow is not cancelled. */
  lemma {:induction false} WaitProceedNotCancelled(s: EngineState, id: string, polls: seq<seq<Control>>, j: nat)
    requires id in s.pipelines && !IsCancelled(s, id)
    ensures WaitS(s, id, polls, j).1 == Proceed ==> !IsCancelled(WaitS(s, id, polls, j).0, id)
    decreases |polls| - j
  {
    if id in s.paused && j < |polls| {
      var s1 := ControlsS(s.(log := s.log + [Sleep(PollMs)]), polls[j]);
      if !IsCancelled(s1, id) {
        WaitProceedNotCancelled(s1, id, polls, j + 1);
      }
    }
  }

  /** When every role of the stage succeeded from i on, the workflow is not cancelled at the stage's end. */
  lemma {:induction false} RolesSucceededNotCancelled(stages: StageTable, s: EngineState, id: string, roles: seq<AgentRole>,
                                                      i: nat, done: seq<bool>, userPrompt: string, projectPath: string,
                                                      attempts: AgentRole -> seq<Attempt>)
    requires ValidStages(stages) && i <= |roles| && !IsCancelled(s, id)
    ensures var r := RunRolesS(stages, s, id, roles, i, done, userPrompt, projectPath, attempts);
            r.1.Some? && (forall j :: 0 <= j < |r.1.value| ==> r.1.value[j]) ==> !IsCancelled(r.0, id)
    decreases |roles| - i
  {
    if i < |roles| {
      var (s1, res) := ExecuteStepS(stages, s, id, roles[i], userPrompt, projectPath, attempts(roles[i]));
      var r := RunRolesS(stages, s, id, roles, i, done, userPrompt, projectPath, attempts);
      if res.StepDone? && r.1.Some? && (forall j :: 0 <= j < |r.1.value| ==> r.1.value[j]) {
        var r1 := RunRolesS(stages, s1, id, roles, i + 1, done + [res.ok], userPrompt, projectPath, attempts);
        assert r == r1;
        assert r1.1.value[..|done| + 1] == done + [res.ok];
        assert r1.1.value[|done|] == res.ok;
        assert res.ok;
        if id in s.stepIds && id in s.stepOutputs {
          SuccessNotCancelled(s, StepCallOf(stages, s, id, roles[i], userPrompt, projectPath), attempts(roles[i]), 0);
        }
        RolesSucceededNotCancelled(stages, s1, id, roles, i + 1, done + [res.ok], userPrompt, projectPath, attempts);
      }
    }
  }

  /** A stage that lets the run go on leaves the workflow not cancelled. */
  lemma ContinueNotCancelled(stages: StageTable, s: EngineState, id: string, k: nat, userPrompt: string, projectPath: string,
                             script: RunScript)
    requires ValidStages(stages) && k < |stages| && id in s.pipelines
    ensures StageS(stages, s, id, k, userPrompt, projectPath, script).Continue?
            ==> !IsCancelled(StageS(stages, s, id, k, userPrompt, projectPath, script).next, id)
  {
    if !IsCancelled(s, id) {
      WaitProceedNotCancelled(s, id, script.polls(k), 0);
      var (s1, w) := WaitS(s, id, script.polls(k), 0);
      if w == Proceed {
        var s2 := EnterStage(s1, id, k);
        RolesSucceededNotCancelled(stages, s2, id, stages[k], 0, [], userPrompt, projectPath, script.attempts);
      }
    }
  }

  /**
   * A cancelled workflow's run stops at the next stage boundary: the
   * workflow is cleaned up, nothing is logged, and neither completion nor
   * failure is reported.
   */
  lemma CancelledRunStops(stages: StageTable, s: EngineState, id: string, k: nat, userPrompt: string, projectPath: string,
                          script: RunScript)
    requires ValidStages(stages) && k < |stages| && IsCancelled(s, id)
    ensures RunFromS(stages, s, id, k, userPrompt, projectPath, script) == (CleanupS(s, id), Done)
  {
  }

  // ---------------------------------------------------------------------
  // The stage barrier
  // ---------------------------------------------------------------------

  /** No two steps share a role. */
  predicate DistinctRoles(steps: seq<PipelineStepState>)
  {
    forall i, j :: 0 <= i < j < |steps| ==> steps[i].role != steps[j].role
  }

  /** Some role of the stage with that role succeeded. */
  predicate Succeeded(roles: seq<AgentRole>, results: seq<bool>, r: AgentRole)
    requires |results| == |roles|
  {
    exists i :: 0 <= i < |roles| && roles[i] == r && results[i]
  }

  /** With distinct roles, marking a role completes exactly its step. */
  lemma {:induction false} MarkCompletedEffect(steps: seq<PipelineStepState>, role: AgentRole)
    requires DistinctRoles(steps)
    ensures forall j :: 0 <= j < |steps| ==>
              MarkCompleted(steps, role)[j] == if steps[j].role == role then steps[j].(status := StepStatus.StepCompleted) else steps[j]
  {
    if steps != [] && steps[0].role != role {
      MarkCompletedEffect(steps[1..], role);
      forall j | 0 <= j < |steps|
        ensures MarkCompleted(steps, role)[j] == if steps[j].role == role then steps[j].(status := StepStatus.StepCompleted) else steps[j]
      {
        if j > 0 {
          assert MarkCompleted(steps, role)[j] == MarkCompleted(steps[1..], role)[j - 1];
        }
      }
    }
  }

  /**
   * After the results of a stage are tallied, the step of every role that
   * succeeded is completed and every other step is as it was.
   */
  lemma {:induction false} MarkSucceededEffect(steps: seq<PipelineStepState>, roles: seq<AgentRole>, results: seq<bool>)
    requires DistinctRoles(steps) && |results| == |roles|
    ensures forall j :: 0 <= j < |steps| ==>
              MarkSucceeded(steps, roles, results)[j]
              == if Succeeded(roles, results, steps[j].role) then steps[j].(status := StepStatus.StepCompleted) else steps[j]
    decreases |roles|
  {
    if roles != [] {
      var steps1 := if results[0] then MarkCompleted(steps, roles[0]) else steps;
      if results[0] {
        MarkCompletedEffect(steps, roles[0]);
      }
      assert DistinctRoles(steps1) by {
        assert forall j :: 0 <= j < |steps| ==> steps1[j].role == steps[j].role;
      }
      MarkSucceededEffect(steps1, roles[1..], results[1..]);
      forall j | 0 <= j < |steps|
        ensures MarkSucceeded(steps, roles, results)[j]
                == if Succeeded(roles, results, steps[j].role) then steps[j].(status := StepStatus.StepCompleted) else steps[j]
      {
        var r := steps[j].role;
        assert steps1[j].role == r;
        if Succeeded(roles[1..], results[1..], r) {
          var i :| 0 <= i < |roles| - 1 && roles[1..][i] == r && results[1..][i];
          assert roles[i + 1] == r && results[i + 1];
        }
        if Succeeded(roles, results, r) && !(results[0] && roles[0] == r) {
          var i :| 0 <= i < |roles| && roles[i] == r && results[i];
          assert roles[1..][i - 1] == r && results[1..][i - 1];
        }
      }
    }
  }

  /**
   * The barrier: a stage lets the run go on only when every one of its
   * roles has run to success, and then the step of each of its roles is
   * completed while every other step is untouched.
   */
  lemma StageBarrier(stages: StageTable, s: EngineState, id: string, k: nat, userPrompt: string, projectPath: string,
                     script: RunScript)
    requires ValidStages(stages) && k < |stages| && id in s.pipelines && DistinctRoles(s.pipelines[id].steps)
    requires StageS(stages, s, id, k, userPrompt, projectPath, script).Continue?
    ensures var before := s.pipelines[id].steps;
            var after := StageS(stages, s, id, k, userPrompt, projectPath, script).next.pipelines[id].steps;
            |after| == |before|
            && forall j :: 0 <= j < |before| ==>
                 after[j] == if before[j].role in stages[k] then before[j].(status := StepStatus.StepCompleted) else before[j]
  {
    var (s1, w) := WaitS(s, id, script.polls(k), 0);
    var s2 := EnterStage(s1, id, k);
    var (s3, results) := RunRolesS(stages, s2, id, stages[k], 0, [], userPrompt, projectPath, script.attempts);
    var p := s3.pipelines[id];
    assert p.steps == s.pipelines[id].steps;
    var failed := FailedLabels(stages[k], results.value);
    assert failed == [];
    MarkSucceededEffect(p.steps, stages[k], results.value);
    forall j | 0 <= j < |p.steps| && p.steps[j].role in stages[k]
      ensures Succeeded(stages[k], results.value, p.steps[j].role)
    {
      var i :| 0 <= i < |stages[k]| && stages[k][i] == p.steps[j].role;
      assert results.value[i];
    }
  }
}
