# claude_dashboard — a verified model of the workflow core

claude_dashboard runs a five-agent pipeline: PM, RD, UI, TEST and SEC. It
runs each agent through a CLI and streams their progress to a browser
dashboard over a WebSocket. This project is a Dafny model of that system's
core, with proofs of what the code promises.

The model covers the following parts.

- **Workflow orchestration** (`EngineSpec`, `Engine`, `EngineSound`, `EngineProps`).
  - `WorkflowEngine` is a class whose maps are updated in place. Each method is proved against a function over an engine-state value.
  - The database calls and the emitted events form one ordered log.
  - The proved properties:
    - every status event comes right after the write that records that status;
    - the paused set matches the paused pipelines;
    - a step has at most three attempts, retried after 2 s and then 4 s;
    - the stage barrier holds;
    - cancellation is checked at its checkpoints;
    - a step sees only earlier stages' outputs.
- **Agent runner** (`AgentRunners`).
  - The class methods are the process callbacks and the timer firings.
  - The proved properties:
    - stdout is framed into lines;
    - the stream records are interpreted;
    - the output only grows by appending;
    - only the first result record counts;
    - the run settles once.
- **Prompt building and initial state** (`ContextBuilder`, `Prompts`, `Pipeline`, `Stages`, `Types`).
- **Output batching** (`OutputBuffers`): an in-place queue whose deliveries, followed by the current buffer, are exactly the chunks pushed.
- **Persistence** (`Queries`).
  - The SQLite tables are maps with insertion order.
  - The update queries change only what they name.
  - Steps come back in role order; lists are filtered, newest first, and paged.
- **WebSocket server side** (`Connections`, `WsServer`): the client registry, subscriptions, broadcast filters, engine-event routing and the guards on client messages.
- **Client state** (`AgentStore`, `WorkflowStore`, `EventStore`, `UiStore`, `I18nStore`, `ClientSocket`).
  - The stores are reducers over records.
  - The WebSocket hook feeds server messages into the stores and into one output buffer per role, and reconnects with capped backoff.
- **Small pure pieces**:
  - the history list and cleanup routes (`WorkflowsRoute`, `CleanupRoute`, with `JsNumbers` for `parseInt`);
  - the project-root search (`ProjectRoot`);
  - the shebang post-build step (`Postbuild`);
  - the free-port search (`PortSearch`);
  - message interpolation (`I18n`);
  - the display rules of the usage indicator, history table, agent card and top bar.

Time, `Date.now()`, the file system, process exit, timers and parsing results are parameters or method calls. The stage table `PIPELINE_STAGES`/`getStageForRole` is not defined in the modelled sources, so it is a parameter with a well-formedness predicate. The model takes a stage's `index` to be its position in the table. Its stage number in prompts (`currentStage.index + 1`, src/lib/agents/prompts.ts:288) and its place in the stage loop rest on that assumption. Integers are unbounded; no computation in the core depends on overflow.

Where the code and its comments disagree, the model follows the code.

- A cancel that arrives while a step's third attempt is running kills the runner. The code then takes the "retries exhausted" branch (src/lib/workflow/engine.ts:226-235) before its cancellation check, so `step:failed` is still persisted and emitted for that step. The model does the same.
- `getOrCreateBuffer` keys buffers by role in a `Map`, and the hook flushes them in insertion order. The model flushes in AGENT_ORDER. The buffers are independent, so the resulting state is the same.

## Model

Some specification functions have no row of their own. They are described by the rows of the lemmas about them:
- `Prompts.SystemPrompt` by `Prompts.HeaderText`, `Prompts.SystemPromptStartsWithTemplate`, `Prompts.PositionLinesName` and `Prompts.ToolsAndTimeoutLines`;
- `ContextBuilder.BuildAgentPrompt` by `ContextBuilder.PartsLayout`, `ContextBuilder.PreviousHeaderIffOutputs` and `ContextBuilder.PromptStartsWithPathAndRequest`;
- `Queries.ListWorkflows` and `Queries.CountWorkflows` by `Queries.ListPage`, `Queries.NewestFirst`, `Queries.UnfilteredCountsAll`, `Queries.ListNewestFirst` and `WorkflowsRoute.GetPagesTheFilteredListing`;
- `Queries.GetStepsForWorkflow` by `Queries.StepsInPipelineOrder` and `Queries.CreatedWorkflowSteps`;
- `Queries.UpdateWorkflowStatus` by `Queries.UpdateWorkflowStatusEffect`;
- `HistoryTable.DurationCell` by `HistoryTable.DurationCellShape`.

| member | source | states |
|---|---|---|
| Types.IndexOf | src/lib/workflow/types.ts:47 | the position of a role in AGENT_ORDER holds that role, and no other position does |
| Types.AgentOrderIsEnumeration | src/lib/workflow/types.ts:47 | AGENT_ORDER has five entries, lists every role and repeats none |
| Types.LabelsAreUpperCaseNames | src/lib/workflow/types.ts:49-83 | every label in AGENT_CONFIG is its role's name in upper case, so distinct roles have distinct labels |
| Types.TimeoutsAreWholeSeconds | src/lib/workflow/types.ts:56-80 | the timeouts are 180000 ms for pm, 300000 ms for sec and 600000 ms otherwise: positive whole seconds |
| Types.ToolPermissions | src/lib/workflow/types.ts:57-81 | every role may Read, pm may only Read, and exactly rd, ui and test may Edit |
| Pipeline.CreatePipelineState | src/lib/workflow/pipeline.ts:16-27 | a fresh pipeline carries the given id, is pending at step index 0 with no stage index, and has one step per AGENT_ORDER entry |
| Pipeline.CreatedStepsOnePerRole | src/lib/workflow/pipeline.ts:21-25 | the i-th step is AGENT_ORDER's i-th role, roles do not repeat, and every step is pending with no retries |
| Stages.StageOf | src/lib/workflow/engine.ts:149 | in a valid stage table a role sits in exactly one stage, and `getStageForRole` gives that stage's index |
| Stages.FindStage | src/lib/workflow/engine.ts:149 | the first stage from a position on that holds the role: it does hold it, and no stage before it does |
| Stages.RolesOf | src/lib/workflow/engine.ts:151-159 | the roles of a range of stages are exactly the roles some stage in that range holds |
| Stages.RolesBeforeStage | src/lib/workflow/engine.ts:151-153 | a role belongs to the stages before r's stage exactly when its stage index is smaller than r's |
| Stages.RolesAfterStage | src/lib/workflow/engine.ts:82 | a role belongs to the stages after r's stage exactly when its stage index is larger than r's |
| Stages.DescribedStagesValid | src/lib/workflow/engine.ts:82-103 | the stage table pm; rd and ui; test and sec puts every role in exactly one non-empty stage |
| EngineSpec.RetryDelay | src/lib/workflow/engine.ts:249 | the backoff before retry n is `RETRY_DELAYS[n - 1]` with 8000 ms as fallback, so one of 2000, 4000 and 8000 ms |
| EngineSpec.ControlsS | src/lib/workflow/engine.ts:257-305 | pause, resume and cancel requests, in any number and order, keep every pipeline and its steps, only append to the effect log and never register a runner |
| EngineSpec.StageOutputs | src/lib/workflow/engine.ts:153-158 | the contexts collected from one stage are exactly its roles' non-empty stored outputs, at most one per role |
| EngineSpec.OutputsOfStages | src/lib/workflow/engine.ts:151-159 | the contexts collected from the first stages are exactly the non-empty stored outputs of the roles of those stages |
| EngineSpec.AttemptS | src/lib/workflow/engine.ts:165-251 | one pass of the retry loop either asks for another attempt with the count one higher and at most MAX_RETRIES, or ends the step; both keep the pipelines and only append to the log |
| EngineSpec.AttemptsS | src/lib/workflow/engine.ts:164-254 | the retry loop keeps every pipeline's steps and only appends to the effect log |
| EngineSpec.ExecuteStepS | src/lib/workflow/engine.ts:138-255 | `executeStep` keeps every pipeline's steps and only appends to the effect log |
| EngineSpec.RunRolesS | src/lib/workflow/engine.ts:101-103 | the roles of a stage, run to their ends, give one result per role after the ones already known, and only append to the log |
| EngineSpec.MarkCompleted | src/lib/workflow/engine.ts:110-113 | marking a role completed keeps the number of steps |
| EngineSpec.MarkSucceeded | src/lib/workflow/engine.ts:107-117 | tallying a stage keeps the number of steps |
| EngineSpec.FailedLabels | src/lib/workflow/engine.ts:106-119 | the list of failed roles' labels is empty exactly when every role of the stage succeeded |
| EngineSpec.WaitS | src/lib/workflow/engine.ts:89-95 | the pause wait only appends to the log, lets the stage begin only once the workflow is no longer paused, and keeps the steps unless it stops the run |
| EngineSpec.StageS | src/lib/workflow/engine.ts:82-129 | a stage that lets the run go on keeps the set of held pipelines |
| Engine.WorkflowEngine.constructor | src/lib/workflow/engine.ts:26-44 | a new engine holds no pipelines, runners, id maps, outputs or paused ids, and has logged nothing |
| Engine.WorkflowEngine.StartWorkflow | src/lib/workflow/engine.ts:46-76 | returns the new id; the workflow is stored, its pipeline is running with an empty output map and the step ids read back, and `running` is written before `workflow:created` is emitted |
| Engine.WorkflowEngine.PauseWorkflow | src/lib/workflow/engine.ts:257-265 | only a running pipeline pauses: it joins the paused set, is marked and stored as paused, and `workflow:paused` is emitted |
| Engine.WorkflowEngine.ResumeWorkflow | src/lib/workflow/engine.ts:267-274 | only a paused pipeline resumes: it leaves the paused set and is marked and stored as running, with no event |
| Engine.WorkflowEngine.CancelWorkflow | src/lib/workflow/engine.ts:276-298 | a held pipeline is cancelled, unpaused, its runners are killed and dropped, `cancelled` is stored before `workflow:cancelled`, and its id and output maps are dropped; an unknown id changes nothing |
| Engine.WorkflowEngine.CleanupWorkflow | src/lib/workflow/engine.ts:300-305 | the workflow's pipeline, id map, output map and paused mark are dropped |
| Engine.WorkflowEngine.GetPipelineState | src/lib/workflow/engine.ts:307-309 | the held pipeline of that id, or nothing when none is held |
| Engine.WorkflowEngine.HandleControls | src/lib/workflow/engine.ts:257-298 | requests that arrive while the engine awaits are handled one by one, in arrival order |
| Engine.WorkflowEngine.CollectPreviousOutputs | src/lib/workflow/engine.ts:148-159 | the loop gathers the non-empty outputs of every stage before the role's own stage, stage by stage |
| Engine.WorkflowEngine.CollectStageOutputs | src/lib/workflow/engine.ts:153-158 | the inner loop gathers a stage's non-empty outputs in the stage's order |
| Engine.WorkflowEngine.Listen | src/lib/workflow/engine.ts:187-202 | the listeners relay stream and activity events as `step:stream` and `step:activity`, and keep the last defined token counts of `result` |
| Engine.WorkflowEngine.ExecuteStep | src/lib/workflow/engine.ts:138-255 | `executeStep` ends in the state and with the result the step specification gives |
| Engine.WorkflowEngine.Retry | src/lib/workflow/engine.ts:164-254 | the retry loop, run pass by pass, ends as the loop's specification does |
| Engine.WorkflowEngine.RunAttempt | src/lib/workflow/engine.ts:165-251 | one pass: stop on a cancel, begin, then succeed or fail, matching the specification of a pass |
| Engine.WorkflowEngine.Begin | src/lib/workflow/engine.ts:173-202 | the step is stored as running before `step:started`, the runner is registered and its events relayed |
| Engine.WorkflowEngine.Succeed | src/lib/workflow/engine.ts:206-221 | the output is kept, the step is stored as completed before `step:completed`, and the runner is dropped |
| Engine.WorkflowEngine.Fail | src/lib/workflow/engine.ts:222-251 | after the last retry the step is stored as failed before `step:failed`; on a cancel the runner is dropped; otherwise `step:retry` with attempt n of 2 and the backoff follow, and only then is another attempt made |
| Engine.WorkflowEngine.RunRoles | src/lib/workflow/engine.ts:101-103 | the roles of a stage are run to their ends, with the results the specification gives |
| Engine.WorkflowEngine.WaitWhilePaused | src/lib/workflow/engine.ts:89-95 | the pause wait ends as its specification does |
| Engine.WorkflowEngine.TallyResults | src/lib/workflow/engine.ts:105-117 | the failed roles' labels are returned in stage order and the succeeded roles' steps are marked completed; nothing else changes |
| Engine.WorkflowEngine.RunStage | src/lib/workflow/engine.ts:82-129 | one pass of the stage loop goes on or stops as the stage's specification says |
| Engine.WorkflowEngine.ExecutePipeline | src/lib/workflow/engine.ts:78-136 | `executePipeline` ends in the state and with the result the run's specification gives |
| EngineSound.SoundFresh | src/lib/workflow/engine.ts:26-31 | a new engine keeps the invariant: every status event in its log follows the database write that stores it, and the paused set is exactly the paused held pipelines |
| EngineSound.ForwardQuiet | src/lib/workflow/engine.ts:191-197 | the relayed stream and activity events announce no status |
| EngineSound.PauseSound | src/lib/workflow/engine.ts:257-265 | pausing keeps the invariant: `paused` is stored before `workflow:paused` |
| EngineSound.ResumeSound | src/lib/workflow/engine.ts:267-274 | resuming keeps the invariant |
| EngineSound.CancelSound | src/lib/workflow/engine.ts:276-298 | cancelling keeps the invariant: `cancelled` is stored before `workflow:cancelled` |
| EngineSound.CleanupSound | src/lib/workflow/engine.ts:300-305 | cleaning up keeps the invariant |
| EngineSound.ControlsSound | src/lib/workflow/engine.ts:257-298 | requests in any number and order keep the invariant |
| EngineSound.StartSound | src/lib/workflow/engine.ts:46-76 | starting a workflow with a fresh id keeps the invariant: `running` is stored before `workflow:created` |
| EngineSound.BeginSound | src/lib/workflow/engine.ts:174-181 | beginning an attempt keeps the invariant: `running` is stored before `step:started` |
| EngineSound.SucceedSound | src/lib/workflow/engine.ts:210-219 | a successful attempt keeps the invariant: `completed` is stored before `step:completed` |
| EngineSound.FailStepSound | src/lib/workflow/engine.ts:227-233 | a step's last failure keeps the invariant: `failed` is stored before `step:failed` |
| EngineSound.AttemptSound | src/lib/workflow/engine.ts:165-251 | one pass of the retry loop keeps the invariant |
| EngineSound.AttemptsSound | src/lib/workflow/engine.ts:164-254 | the whole retry loop keeps the invariant |
| EngineSound.ExecuteStepSound | src/lib/workflow/engine.ts:138-255 | `executeStep` keeps the invariant |
| EngineSound.RunRolesSound | src/lib/workflow/engine.ts:101-103 | running a stage's roles keeps the invariant |
| EngineSound.WaitSound | src/lib/workflow/engine.ts:89-95 | the pause wait keeps the invariant |
| EngineSound.StageSound | src/lib/workflow/engine.ts:82-129 | one stage, whether it goes on or stops the run, keeps the invariant: `failed` is stored before `workflow:failed` |
| EngineSound.RunFromSound | src/lib/workflow/engine.ts:82-135 | the rest of a run, completion included, keeps the invariant |
| EngineSound.CompleteSound | src/lib/workflow/engine.ts:132-135 | completion keeps the invariant: `completed` is stored before `workflow:completed` |
| EngineSound.ExecutePipelineSound | src/lib/workflow/engine.ts:78-136 | a whole `executePipeline` run keeps the invariant |
| EngineProps.TitleShape | src/lib/workflow/engine.ts:48 | the title is a prompt of up to 80 characters itself, and otherwise its first 80 characters followed by "..." |
| EngineProps.StepIdMapDistinct | src/lib/workflow/engine.ts:58-63 | for steps with distinct roles, each role maps to its step's id and only those roles have ids |
| EngineProps.StartStepIds | src/lib/workflow/engine.ts:50-63 | after `createWorkflow` stores a fresh workflow, `startWorkflow` maps each role to the step id created for it |
| EngineProps.OrderedStepIds | src/lib/workflow/engine.ts:58-63 | steps in AGENT_ORDER map each role to the id at its position |
| EngineProps.PreviousOutputsEarlier | src/lib/workflow/engine.ts:148-159 | a step sees exactly the non-empty outputs of roles in strictly earlier stages, never a peer's or a later role's |
| EngineProps.ForwardStartsNothing | src/lib/workflow/engine.ts:191-197 | the relayed events contain no `step:started` |
| EngineProps.ControlsStartNothing | src/lib/workflow/engine.ts:257-298 | pause, resume and cancel requests start no step |
| EngineProps.BeginStarts | src/lib/workflow/engine.ts:174-185 | beginning an attempt logs exactly one `step:started` |
| EngineProps.AttemptStarts | src/lib/workflow/engine.ts:165-251 | one pass starts the runner at most once, and exactly once when a retry follows |
| EngineProps.AttemptsBounded | src/lib/workflow/engine.ts:164-254 | the retry loop from attempt n on starts the runner at most 3 - n more times |
| EngineProps.StepAttemptsAtMostThree | src/lib/workflow/engine.ts:164-165 | a step is attempted at most MAX_RETRIES + 1 = 3 times |
| EngineProps.RetryAnnounced | src/lib/workflow/engine.ts:245-250 | a pass that leads to another attempt has emitted `step:retry` with attempt n + 1 of 2, then waited 2000 ms after the first failure and 4000 ms after the second |
| EngineProps.CancelSticks | src/lib/workflow/engine.ts:257-298 | a cancelled workflow stays cancelled whatever requests arrive: pause and resume do not reopen it |
| EngineProps.CancelKills | src/lib/workflow/engine.ts:284-289 | after a cancel no runner whose key starts with the workflow id remains registered |
| EngineProps.SuccessNotCancelled | src/lib/workflow/engine.ts:164-221 | a step only reports success when its workflow is not cancelled at the end of the attempt |
| EngineProps.CancelledStepQuiet | src/lib/workflow/engine.ts:166-171 | a cancelled workflow's step returns false at once, with only its runner key dropped and nothing logged |
| EngineProps.WaitProceedNotCancelled | src/lib/workflow/engine.ts:89-95 | the pause wait lets the stage begin only when the workflow is not cancelled |
| EngineProps.RolesSucceededNotCancelled | src/lib/workflow/engine.ts:101-103 | when every role of a stage succeeded, the workflow is not cancelled at the stage's end |
| EngineProps.ContinueNotCancelled | src/lib/workflow/engine.ts:82-129 | a stage that lets the run go on leaves the workflow not cancelled |
| EngineProps.CancelledRunStops | src/lib/workflow/engine.ts:84-87 | a cancelled workflow's run stops at the next stage boundary: it is cleaned up, nothing is logged, and neither completion nor failure is reported |
| EngineProps.MarkCompletedEffect | src/lib/workflow/engine.ts:110-113 | with distinct roles, marking a role completes exactly its step |
| EngineProps.MarkSucceededEffect | src/lib/workflow/engine.ts:107-117 | after a stage is tallied, each succeeded role's step is completed and every other step is unchanged |
| EngineProps.StageBarrier | src/lib/workflow/engine.ts:100-129 | when a stage lets the run go on, exactly its roles' steps are completed, so every one of them succeeded, and every other step is unchanged |
| AgentRunners.StartRun | src/lib/workflow/agent-runner.ts:31-80 | `run()` arms both timers, empties the line buffer and leaves the run unsettled, keeping output and events |
| AgentRunners.OutputOnlyGrows | src/lib/workflow/agent-runner.ts:82-237 | every input leaves the old output a prefix of the new one and the old events a prefix of the new events |
| AgentRunners.HandleLinesGrowsOutput | src/lib/workflow/agent-runner.ts:87-98 | handling complete lines only appends to output and events; it does not settle the run, touch the buffer or the hard timer, or mark a kill |
| AgentRunners.ApplyRecordGrowsOutput | src/lib/workflow/agent-runner.ts:130-205 | a record only appends to output, except that the first result fills an empty output |
| AgentRunners.AssistantOnlyAppends | src/lib/workflow/agent-runner.ts:166-189 | an assistant record only appends to output and events |
| AgentRunners.InnerOnlyAppends | src/lib/workflow/agent-runner.ts:135-164 | an inner stream event only appends to output and events |
| AgentRunners.SettlesOnce | src/lib/workflow/agent-runner.ts:33-39 | the run settles at most once: once recorded, the outcome never changes |
| AgentRunners.SettlingClearsTimers | src/lib/workflow/agent-runner.ts:34-39 | the input that settles the run leaves both timers cleared |
| AgentRunners.HardTimerNeverRearmed | src/lib/workflow/agent-runner.ts:70-75 | only `run()` arms the hard timer |
| AgentRunners.ActivityRearmedByEveryLine | src/lib/workflow/agent-runner.ts:88-98 | every non-blank line, parsed or raw, re-arms the inactivity timer |
| AgentRunners.FirstResultOnly | src/lib/workflow/agent-runner.ts:191-203 | only the first truthy result record counts: it fills an empty output with its text and emits `result` with the output and token counts; later or falsy ones change nothing |
| AgentRunners.DeltaAndBlockRecords | src/lib/workflow/agent-runner.ts:140-162 | a non-empty text delta appends its text to output and streams it; block start and stop change output not at all and emit at most one activity |
| AgentRunners.AssistantDedupe | src/lib/workflow/agent-runner.ts:169-188 | an assistant text is appended, after "\n\n" when output is non-empty, only when output lacks its first 100 characters; otherwise only the separator is added to a non-empty output |
| AgentRunners.RawLineAppended | src/lib/workflow/agent-runner.ts:92-97 | a line the parser rejects goes to output and to the stream with a newline added. These are lines that are not JSON, and JSON lines on which the record handler throws |
| AgentRunners.StdoutFraming | src/lib/workflow/agent-runner.ts:82-86 | the complete lines with their newlines, then the new buffer, make up the old buffer plus the data, and the new buffer holds no newline |
| AgentRunners.CloseOutcome | src/lib/workflow/agent-runner.ts:106-121 | on close, a killed run rejects with "Agent was killed"; exit code 0 resolves, emitting the output first unless a result was already emitted; any other code emits and rejects with "Agent <label> exited with code <code>" |
| AgentRunners.TimeoutMessages | src/lib/workflow/agent-runner.ts:69-75 | the hard timeout is twice the role's budget, a whole number of seconds, named as such in its message |
| AgentRunners.AgentRunner.constructor | src/lib/workflow/agent-runner.ts:12-26 | a new runner for a role: not killed, empty output, no result emitted, no timers |
| AgentRunners.AgentRunner.Run | src/lib/workflow/agent-runner.ts:28-80 | the runner's state after `run()` starts is the one StartRun gives |
| AgentRunners.AgentRunner.EmitEvent | src/lib/workflow/agent-runner.ts:5-10 | an emitted event is appended to the runner's events |
| AgentRunners.AgentRunner.SettleWith | src/lib/workflow/agent-runner.ts:33-39 | the first settle records the outcome and clears both timers; later ones do nothing |
| AgentRunners.AgentRunner.ClearAllTimers | src/lib/workflow/agent-runner.ts:240-249 | both timers are cleared and nothing else changes |
| AgentRunners.AgentRunner.Kill | src/lib/workflow/agent-runner.ts:207-219 | the runner is marked killed and both timers are cleared |
| AgentRunners.AgentRunner.AppendOutput | src/lib/workflow/agent-runner.ts:154-155 | text is appended to output and emitted as a stream chunk |
| AgentRunners.AgentRunner.HandleStreamEvent | src/lib/workflow/agent-runner.ts:130-205 | `handleStreamEvent` re-arms the inactivity timer and applies the record as the record's specification says |
| AgentRunners.AgentRunner.OnData | src/lib/workflow/agent-runner.ts:82-99 | a stdout chunk leaves the runner as the line-framing specification says: the tail kept and each complete line handled in order |
| AgentRunners.AgentRunner.OnCloseEvent | src/lib/workflow/agent-runner.ts:106-121 | the close handler leaves the runner as the close specification says |
| AgentRunners.AgentRunner.OnErrorEvent | src/lib/workflow/agent-runner.ts:123-126 | a process error is emitted and the run rejects with its message |
| AgentRunners.AgentRunner.FireHardTimeout | src/lib/workflow/agent-runner.ts:70-75 | the hard timer kills the runner, emits the hard-timeout error and rejects with it |
| AgentRunners.AgentRunner.FireInactivityTimeout | src/lib/workflow/agent-runner.ts:230-236 | the inactivity timer kills the runner, emits the inactivity error and rejects with it |
| ContextBuilder.OutputSections | src/lib/workflow/context-builder.ts:24-27 | one "## <label> Agent Output" section per earlier output, in input order |
| ContextBuilder.Labels | src/lib/workflow/context-builder.ts:32-34 | the labels of the remaining roles, one per role, in order |
| ContextBuilder.PartsLayout | src/lib/workflow/context-builder.ts:17-45 | the parts are the path, then the request, then the previous-outputs header and one section per output exactly when there are outputs, then the role line and the follow-on line |
| ContextBuilder.PreviousHeaderIffOutputs | src/lib/workflow/context-builder.ts:22-28 | the previous-outputs header is among the parts exactly when there are earlier outputs |
| ContextBuilder.PromptStartsWithPathAndRequest | src/lib/workflow/context-builder.ts:19-20 | the prompt text begins with the path part and then the request part, each followed by a blank line |
| ContextBuilder.RemainingAgentsAreLater | src/lib/workflow/context-builder.ts:31-34 | the follow-on list holds exactly the roles after this one in AGENT_ORDER, whatever their stage |
| ContextBuilder.FollowOnExamples | src/lib/workflow/context-builder.ts:36-43 | RD is told UI → TEST → SEC follow, which names its parallel peer UI; SEC is told it is the final agent; every other role gets the list sentence |
| Prompts.LoadPromptTemplate | src/lib/agents/prompts.ts:18-25 | the template file's text when it can be read, else the role's built-in default |
| Prompts.Without | src/lib/agents/prompts.ts:290-292 | a stage's roles without this one are exactly its other roles |
| Prompts.HeaderText | src/lib/agents/prompts.ts:302-307 | the first five lines join to the template, a blank line, a rule, a blank line and "# Operational Context" |
| Prompts.SystemPromptStartsWithTemplate | src/lib/agents/prompts.ts:281-341 | the system prompt begins with the template, a rule and the operational-context heading |
| Prompts.PositionSentenceThreeStages | src/lib/agents/prompts.ts:286-288 | with three stages, every role's position sentence opens "You are in Stage <its stage number> of 3", followed by a space or the closing full stop. The fixed first-stage text agrees with the general form |
| Prompts.FirstStageMiscounted | src/lib/agents/prompts.ts:286-287 | with any other number of stages, the first stage's sentence still reads "Stage 1 of 3" and does not name the real stage count |
| Prompts.OpeningOneOfThree | src/lib/agents/prompts.ts:287 | the fixed first-stage sentence is the general opening for stage 1 of 3, followed by the first-stage remark |
| Prompts.PositionLinesName | src/lib/agents/prompts.ts:290-322 | the parallel line names exactly the stage's other roles, the prior line exactly the earlier stages' roles, the later line exactly the later stages' roles; with no later roles the last line is the final-stage sentence |
| Prompts.DescribedTablePositions | src/lib/agents/prompts.ts:284-300 | with the table pm; rd and ui; test and sec, RD and UI are each other's peers, PM has no upstream, SEC no downstream, and TEST is in "Stage 3 of 3" |
| Prompts.ToolsAndTimeoutLines | src/lib/agents/prompts.ts:327-331 | the tools line joins the role's tools with ", ", and the timeout line gives whole seconds |
| OutputBuffers.PushState | src/lib/output-buffer.ts:15-20 | a push appends the chunk and leaves a timer pending |
| OutputBuffers.StepKeepsConsistent | src/lib/output-buffer.ts:15-40 | every call keeps "a timer is pending exactly while chunks wait", and flush and destroy leave neither |
| OutputBuffers.FlushDeliversWholeBuffer | src/lib/output-buffer.ts:22-40 | flush hands over the whole buffer in push order, in one batch, and only when it is non-empty; destroy delivers nothing |
| OutputBuffers.NoChunkLostBetweenDestroys | src/lib/output-buffer.ts:15-32 | between destroys, the delivered batches followed by what is still buffered are exactly the chunks pushed, in push order, and no batch is empty |
| OutputBuffers.DestroyForgets | src/lib/output-buffer.ts:34-40 | after a destroy the buffer behaves as a new one, whatever it held |
| OutputBuffers.OutputBuffer.constructor | src/lib/output-buffer.ts:4-13 | a new buffer holds no chunks, has no timer and has delivered nothing |
| OutputBuffers.OutputBuffer.Push | src/lib/output-buffer.ts:15-20 | `push` appends and arms the timer as PushState says, delivering nothing, while delivered batches plus the buffer remain every chunk pushed since the last destroy |
| OutputBuffers.OutputBuffer.Flush | src/lib/output-buffer.ts:22-32 | `flush` clears the timer and delivers the old buffer as one batch exactly when it was non-empty, keeping the same invariant |
| OutputBuffers.OutputBuffer.Destroy | src/lib/output-buffer.ts:34-40 | `destroy` clears the timer and drops the buffer without delivering it |
| Queries.RowMappersAreBijections | src/lib/db/queries.ts:44-74 | the row mappers lose nothing: distinct rows give distinct records, and every record is some row's image |
| Queries.CreateWorkflow | src/lib/db/queries.ts:85-118 | on a key clash nothing is written and no workflow is returned; otherwise the workflow and its five step rows are stored in one go and the stored workflow is returned |
| Queries.InsertSteps | src/lib/db/queries.ts:106-112 | the loop over AGENT_ORDER adds one pending step row per role under its id, and appends the ids to the insertion order |
| Queries.PendingStepsRows | src/lib/db/queries.ts:106-112 | the loop's step rows are exactly the fresh ids, the i-th a pending step of AGENT_ORDER's i-th role |
| Queries.CreatedEffect | src/lib/db/queries.ts:93-117 | a committed creation keeps the database well formed, stores the workflow pending at index 0 with no completion, adds one pending step per role and changes no existing row |
| Queries.GetWorkflow | src/lib/db/queries.ts:123-128 | a workflow is found exactly when a row with that id is stored |
| Queries.UpdateWorkflowStatusEffect | src/lib/db/queries.ts:198-228 | the status is written and `updated_at` bumped; the index changes only when one is given; `completed_at` becomes now exactly for a terminal status and is otherwise kept; nothing else changes |
| Queries.PresentColumns | src/lib/db/queries.ts:293-301 | the columns in the SET list are exactly those whose key is present in the update |
| Queries.SetColumnEffect | src/lib/db/queries.ts:298-299 | one assignment writes its own column with the bound value (null for undefined) and no other column |
| Queries.SetColumnsEffect | src/lib/db/queries.ts:305-306 | the SET list writes each listed column and leaves every other column and the key columns alone |
| Queries.NoKeysNoColumns | src/lib/db/queries.ts:303 | the SET list is empty exactly when no key is present |
| Queries.UpdateStepStatus | src/lib/db/queries.ts:276-307 | a statement runs exactly when some key is present; then the row with that id gets exactly the present keys' columns and nothing else in the database changes |
| Queries.PresentColumnsPatch | src/lib/db/queries.ts:280-306 | the SET list built from `columnMap` writes exactly the present keys |
| Queries.StepsOf | src/lib/db/queries.ts:245 | the selected steps all belong to that workflow and role |
| Queries.StepsInPipelineOrder | src/lib/db/queries.ts:240-257 | `getStepsForWorkflow` returns only that workflow's steps, with their roles in AGENT_ORDER rank |
| Queries.CreatedWorkflowSteps | src/lib/db/queries.ts:240-257 | after a committed creation the workflow's steps come back as its five pending steps, one per role, in AGENT_ORDER |
| Queries.NewestFirst | src/lib/db/queries.ts:163-167 | the listed ids are exactly the stored ones whose rows pass the filters |
| Queries.ListPage | src/lib/db/queries.ts:138-168 | a page holds min(limit, count - offset) workflows (none past the end), the i-th being the (offset + i)-th match; every entry passes both filters; with offset 0 and a large enough limit every match is listed |
| Queries.UnfilteredCountsAll | src/lib/db/queries.ts:151-161 | with no status and a missing or blank search term, every stored workflow is listed |
| Queries.NewestFirstOrder | src/lib/db/queries.ts:164 | when creation stamps rise along insertion order, the listing runs newest first |
| Queries.ListNewestFirst | src/lib/db/queries.ts:164 | `ORDER BY created_at DESC`: when stamps follow insertion, each page runs newest first |
| Connections.ClientIdInjective | src/lib/websocket/connection-manager.ts:14 | distinct counter values give distinct `client-<n>` ids |
| Connections.Audience | src/lib/websocket/connection-manager.ts:39-42 | a broadcast goes to exactly the registered clients with an open socket that, for a workflow broadcast, follow the workflow |
| Connections.AudienceDistinct | src/lib/websocket/connection-manager.ts:39-55 | no client gets a broadcast twice |
| Connections.ConnectionManager.constructor | src/lib/websocket/connection-manager.ts:10-11 | a new manager has no clients, counter 0 and has sent nothing |
| Connections.ConnectionManager.AddClient | src/lib/websocket/connection-manager.ts:13-21 | the counter goes up first and the id is `client-<counter>`, new to the registry; the client follows no workflow; nothing is sent |
| Connections.ConnectionManager.RemoveClient | src/lib/websocket/connection-manager.ts:23-25 | only that client leaves the registry |
| Connections.ConnectionManager.SubscribeToWorkflow | src/lib/websocket/connection-manager.ts:27-32 | a registered client adds the workflow to its set; an unknown client is ignored |
| Connections.ConnectionManager.Broadcast | src/lib/websocket/connection-manager.ts:37-56 | the loop sends the message to each qualifying client, in registry order, and changes nothing else |
| Connections.ConnectionManager.BroadcastToWorkflow | src/lib/websocket/connection-manager.ts:37-44 | the message goes to the open sockets of the workflow's subscribers, in registry order |
| Connections.ConnectionManager.BroadcastAll | src/lib/websocket/connection-manager.ts:49-56 | the message goes to every open socket, subscribed or not |
| Connections.ConnectionManager.SendTo | src/lib/websocket/connection-manager.ts:61-66 | the message goes to that client only when it is registered and its socket is open |
| Connections.ConnectionManager.GetClientCount | src/lib/websocket/connection-manager.ts:68-70 | the number of registered clients |
| Connections.WorkflowBroadcastExact | src/lib/websocket/connection-manager.ts:37-44 | a workflow broadcast reaches exactly the open subscribers, each once |
| Connections.BroadcastAllExact | src/lib/websocket/connection-manager.ts:49-56 | a broadcast to all reaches exactly the open registered clients |
| WsServer.OrElse | src/lib/websocket/server.ts:140 | `projectPath \|\| defaultProjectPath`: a truthy value is kept, and anything falsy gives the fallback |
| WsServer.RelaysExact | src/lib/websocket/server.ts:15-90 | a client receives an engine event exactly when the engine emitted it and the client is registered with an open socket and, except for `workflow:created`, subscribed to the event's workflow |
| WsServer.RelaysAppend | src/lib/websocket/server.ts:15-90 | relaying two stretches of engine effects in turn relays their concatenation |
| WsServer.StartAnnouncedToAll | src/lib/websocket/server.ts:15-20 | a started workflow is announced to every registered client with an open socket, subscribed or not |
| WsServer.PauseAnnouncedToSubscribers | src/lib/websocket/server.ts:36-41 | a pause that takes effect is announced exactly to the workflow's open subscribers |
| WsServer.Decide | src/lib/websocket/server.ts:126-230 | each message type with its guard: ping gets pong; a start goes ahead exactly with a non-blank string prompt and is refused otherwise; workflow requests need a truthy id; terminal input needs an id and data that is neither null nor undefined; resize needs non-zero sizes; anything else is ignored |
| WsServer.Server.constructor | src/lib/websocket/server.ts:7-13 | the handlers are set up over the given engine, registry and default path, with nothing sent or called yet |
| WsServer.Server.Connect | src/lib/websocket/server.ts:93-94 | a new connection is registered under a new id, following no workflow |
| WsServer.Server.Disconnect | src/lib/websocket/server.ts:106-109 | a closed connection leaves the registry and nothing is sent |
| WsServer.Server.RelayEffects | src/lib/websocket/server.ts:15-90 | each emitted engine event goes out as the listeners route it, in emission order, and the registry is unchanged |
| WsServer.Server.ForwardControl | src/lib/websocket/server.ts:161-177 | a pause, resume or cancel request reaches the engine and the events it causes are relayed |
| WsServer.Server.StartRequest | src/lib/websocket/server.ts:140-142 | the workflow is started, its `workflow:created` goes out, and then the starting client follows it |
| WsServer.Server.LocalRequest | src/lib/websocket/server.ts:179-229 | the terminal cases make their terminal calls and send their messages only to a registered client with an open socket; pong and a refused start are replied straight on the socket |
| WsServer.Server.HandleClientMessage | src/lib/websocket/server.ts:117-231 | the engine, the registry, the replies, the terminal calls and the messages sent are those the decided action calls for, with engine events relayed as they are emitted |
| AgentStore.InitialAgentsFresh | src/stores/agentStore.ts:41-60 | every role has a record, pending with no output, no error, idle and never retried |
| AgentStore.CreateInitialAgents | src/stores/agentStore.ts:41-60 | the loop over AGENT_ORDER builds exactly the initial records |
| AgentStore.ApplyExecutionPlan | src/stores/agentStore.ts:65-75 | the loop builds exactly the planned records |
| AgentStore.PlanSkipsExactlyTheOthers | src/stores/agentStore.ts:65-75 | a plan resets every role and marks skipped exactly the roles it leaves out |
| AgentStore.AppendChunks | src/stores/agentStore.ts:77-86 | the chunks are appended to that role's output and nothing else changes |
| AgentStore.SetAgentStatus | src/stores/agentStore.ts:88-94 | only that role's status changes |
| AgentStore.SetAgentStarted | src/stores/agentStore.ts:96-111 | the role is running from now, with no output, no error, idle and no last activity; its retry count, completion, duration and tokens stay; other roles are untouched |
| AgentStore.SetAgentCompleted | src/stores/agentStore.ts:113-131 | the role is completed now with the duration and tokens, and missing tokens become null; a non-empty output replaces the chunks, an empty one keeps them |
| AgentStore.SetAgentFailed | src/stores/agentStore.ts:133-144 | the role is failed now with the error, and nothing else changes |
| AgentStore.SetAgentActivity | src/stores/agentStore.ts:146-156 | only that role's activity and last-activity time change |
| AgentStore.SetAgentRetry | src/stores/agentStore.ts:158-167 | only that role's retry count changes |
| AgentStore.RetryCountSurvivesRestart | src/stores/agentStore.ts:108 | a retry count set before a restart survives it: the retry and the start commute |
| WorkflowStore.SetWorkflow | src/stores/workflowStore.ts:29-37 | a new workflow is running at stage 0, started now, with its id and title and no completion time |
| WorkflowStore.SetStatus | src/stores/workflowStore.ts:39-42 | the status is set; completed, failed and cancelled stamp the completion time, any other status keeps it; nothing else changes |
| WorkflowStore.SetCurrentStage | src/stores/workflowStore.ts:44 | only the stage index changes |
| WorkflowStore.SetCompleted | src/stores/workflowStore.ts:46 | the workflow is completed now, and nothing else changes |
| WorkflowStore.CompletedIsTerminalStatus | src/stores/workflowStore.ts:39-46 | setCompleted is the same as setStatus("completed") |
| WorkflowStore.Reset | src/stores/workflowStore.ts:48-56 | the store returns to its initial state |
| WorkflowStore.ResetForgets | src/stores/workflowStore.ts:21-56 | a reset gives the same state whatever came before: no workflow, pending, no completion time |
| EventStore.EventIdInjective | src/stores/eventStore.ts:23 | two counter values that give the same "evt-n" id are equal |
| EventStore.Trimmed | src/stores/eventStore.ts:26-31 | at most 5000 events are kept; a list within the limit is unchanged, a longer one keeps exactly its last 5000 |
| EventStore.NumberedIdsDistinct | src/stores/eventStore.ts:14-23 | ids drawn from a strictly increasing counter are pairwise distinct |
| EventStore.EventLog.constructor | src/stores/eventStore.ts:14-17 | the log starts empty with the counter at 0 |
| EventStore.EventLog.AddEvent | src/stores/eventStore.ts:19-32 | the counter goes up by one; the new event with id "evt-counter" goes last; the oldest event is dropped only when the log was full; ids stay distinct |
| EventStore.EventLog.Clear | src/stores/eventStore.ts:34 | the log empties and the counter keeps its value |
| EventStore.IdsNeverRepeat | src/stores/eventStore.ts:14-23 | an id issued later differs from every earlier one, a clear notwithstanding |
| UiStore.SetAgentPanelHeight | src/stores/uiStore.ts:26 | only the agent panel height changes, to the value given |
| UiStore.SetBottomPanelHeight | src/stores/uiStore.ts:27 | only the bottom panel height changes, to the value given |
| UiStore.Show | src/stores/uiStore.ts:28-59 | the requested pair of flags is stored unless both would be hidden, in which case both are shown; at least one panel stays visible; heights are kept |
| UiStore.ToggleTerminal | src/stores/uiStore.ts:28-36 | the terminal flag flips, except that hiding the only visible panel shows both |
| UiStore.ToggleEventLog | src/stores/uiStore.ts:37-45 | the event log flag flips, except that hiding the only visible panel shows both |
| UiStore.SetTerminalVisible | src/stores/uiStore.ts:46-52 | the terminal flag is set, except that hiding it while the event log is hidden shows both |
| UiStore.SetEventLogVisible | src/stores/uiStore.ts:53-59 | the event log flag is set, except that hiding it while the terminal is hidden shows both |
| UiStore.ActionsFollowShow | src/stores/uiStore.ts:28-59 | all four visibility actions are the one shared rule applied to the flags they ask for |
| UiStore.NeverBothHidden | src/stores/uiStore.ts:31 | from a state with a visible panel, no sequence of actions hides both bottom panels |
| UiStore.DefaultsShowBoth | src/stores/uiStore.ts:22-25 | the defaults are heights 400 and 300 with both panels visible |
| I18n.WordRun | src/lib/i18n/useI18n.ts:8 | the longest run of word characters at the front: all of it is word characters and the character after it is not |
| I18n.Interpolate | src/lib/i18n/useI18n.ts:6-9 | without variables the template comes back unchanged |
| I18n.PlaceholderFilled | src/lib/i18n/useI18n.ts:8 | a placeholder {name} becomes the variable's own value when it is defined. Otherwise it becomes the inherited member's text when the name is one of `Object.prototype`'s, and stays as it was for any other name. The rest of the text is replaced after it |
| I18n.WordRunOf | src/lib/i18n/useI18n.ts:8 | the word run of a name followed by a non-word character is exactly the name |
| I18n.PlainTextKept | src/lib/i18n/useI18n.ts:8 | text without an opening brace passes through unchanged |
| I18n.NoVarsNoChange | src/lib/i18n/useI18n.ts:8 | with an empty variable map, a template whose placeholders name no `Object.prototype` member comes back unchanged |
| I18n.InheritedFilled | src/lib/i18n/useI18n.ts:8 | even with an empty variable map, `{constructor}` is replaced by the text of the `Object` function |
| I18n.TranslateFallback | src/lib/i18n/useI18n.ts:13-18 | t takes the current locale's text, else the default locale's, else the key itself, and interpolates it with the given variables (the key too); without variables the missing key comes back as it is |
| I18nStore.PickLocale | src/stores/i18nStore.ts:29-37 | a non-empty supported saved locale wins and is not written back; otherwise the browser language picks zh-TW or en, which is written |
| I18nStore.LocaleStore.constructor | src/stores/i18nStore.ts:15-17 | the store starts at the default locale, not initialized |
| I18nStore.LocaleStore.SetLocale | src/stores/i18nStore.ts:19-24 | the locale is set, and saved only when there is a window |
| I18nStore.LocaleStore.Initialize | src/stores/i18nStore.ts:26-39 | nothing changes without a window; otherwise the store is initialized with the picked locale, saved when it was picked from the browser language |
| I18nStore.InitializeSettles | src/stores/i18nStore.ts:26-39 | initialization lands on a supported locale, and a second initialization keeps it and writes nothing |
| ClientSocket.FlushRoleS | src/hooks/useWebSocket.ts:142-143 | flushing a role's buffer empties it and appends its chunks to that role's output; a role without a buffer changes nothing; other buffers are untouched |
| ClientSocket.FlushAllS | src/hooks/useWebSocket.ts:78 | flushing every buffer keeps the set of buffers, the workflow and the terminal id |
| ClientSocket.FlushAllEmpties | src/hooks/useWebSocket.ts:78 | after flushing all, no buffer holds a chunk |
| ClientSocket.PushS | src/hooks/useWebSocket.ts:35-47 | a push creates the role's buffer when missing and adds the chunk to it; other buffers, agents and workflow are untouched |
| ClientSocket.FailRunningS | src/hooks/useWebSocket.ts:100-104 | marking running agents failed keeps the record complete |
| ClientSocket.FailRunningEffect | src/hooks/useWebSocket.ts:100-104 | after the loop no agent is running; those that were running failed with "Cancelled" now; the others are untouched |
| ClientSocket.FailRunningOthers | src/hooks/useWebSocket.ts:100-104 | the loop leaves roles it has not reached alone |
| ClientSocket.HandleS | src/hooks/useWebSocket.ts:49-224 | every message keeps the agent record complete |
| ClientSocket.CreatedResets | src/hooks/useWebSocket.ts:55-72 | workflow:created forgets every buffer, applies the payload's plan (AGENT_ORDER when absent or empty) and starts the workflow running |
| ClientSocket.DefaultPlanSkipsNothing | src/hooks/useWebSocket.ts:64-68 | with the default plan every agent is pending and none is skipped |
| ClientSocket.StreamBuffers | src/hooks/useWebSocket.ts:122-130 | step:stream appends the chunk to the role's one buffer and leaves the agents alone |
| ClientSocket.FinishFlushesFirst | src/hooks/useWebSocket.ts:132-167 | step:completed and step:failed flush the role's buffer before updating the agent, so with an empty output the buffered chunks end up in the output |
| ClientSocket.EndFlushesAll | src/hooks/useWebSocket.ts:74-105 | completed, failed and cancelled workflows leave every buffer empty |
| ClientSocket.CancelStopsAgents | src/hooks/useWebSocket.ts:95-105 | after workflow:cancelled no agent is running and the workflow is cancelled |
| ClientSocket.RetryCountKept | src/hooks/useWebSocket.ts:107-120 | step:retry sets the retry count to the attempt, and the next step:started keeps it |
| ClientSocket.BackoffShape | src/hooks/useWebSocket.ts:12 | the reconnect delay starts at 1 s, doubles up to 16 s and stays there |
| ClientSocket.Backoff | src/hooks/useWebSocket.ts:274-279 | k closes in a row schedule one delay each, the i-th being the delay of attempt from + i |
| ClientSocket.BackoffAfterOpen | src/hooks/useWebSocket.ts:250-280 | after an open, successive failures wait 1, 2, 4, 8 and then 16 seconds |
| ClientSocket.SocketClient.constructor | src/hooks/useWebSocket.ts:14-19 | the hook starts with fresh stores, no buffers, attempt 0, reconnects allowed and nothing scheduled |
| ClientSocket.SocketClient.FlushRole | src/hooks/useWebSocket.ts:142-143 | the new state is FlushRoleS of the old one; the connection state and the event log are untouched |
| ClientSocket.SocketClient.FlushAll | src/hooks/useWebSocket.ts:78 | the loop over the buffers ends in FlushAllS of the old state |
| ClientSocket.SocketClient.FailRunning | src/hooks/useWebSocket.ts:100-104 | the loop over AGENT_ORDER ends in FailRunningS of the old agents; nothing else changes |
| ClientSocket.SocketClient.Created | src/hooks/useWebSocket.ts:55-72 | the state and the logged events are those HandleS gives for workflow:created |
| ClientSocket.SocketClient.Ended | src/hooks/useWebSocket.ts:74-105 | the state and the logged events are those HandleS gives for the end of a workflow |
| ClientSocket.SocketClient.StepLifecycle | src/hooks/useWebSocket.ts:107-167 | the state and the logged events are those HandleS gives for step:started, step:completed and step:failed |
| ClientSocket.SocketClient.StepProgress | src/hooks/useWebSocket.ts:122-192 | the state and the logged events are those HandleS gives for step:stream, step:activity and step:retry |
| ClientSocket.SocketClient.HandleMessage | src/hooks/useWebSocket.ts:49-224 | the state and the logged events are those HandleS gives; the connection state is untouched |
| ClientSocket.SocketClient.BufferTimerFired | src/hooks/useWebSocket.ts:39-41 | a buffer's timer flushes that buffer into the role's output |
| ClientSocket.SocketClient.OnOpen | src/hooks/useWebSocket.ts:250-255 | on open the attempt counter returns to 0, the hook is connected and "Connected to server" is logged |
| ClientSocket.SocketClient.OnClose | src/hooks/useWebSocket.ts:266-280 | on close the hook is disconnected; when reconnects are allowed the attempt's delay is scheduled and the counter goes up by one, otherwise nothing is scheduled |
| ClientSocket.SocketClient.ReconnectTimerFired | src/hooks/useWebSocket.ts:279 | the reconnect timer is spent and nothing else changes |
| ClientSocket.SocketClient.Unmount | src/hooks/useWebSocket.ts:301-316 | reconnects stop, the timer is cleared, the hook is disconnected and every buffer is forgotten; the stores keep their state |
| ClientSocket.SocketClient.Mount | src/hooks/useWebSocket.ts:293-295 | reconnects are allowed again |
| JsNumbers.TrimStart | src/app/api/workflows/route.ts:7 | parseInt first drops leading white space: the result is a suffix, all white space is gone from the front, nothing else is removed |
| JsNumbers.DigitRun | src/app/api/workflows/route.ts:7 | the run of decimal digits parseInt reads ends at the first non-digit |
| JsNumbers.ParseDigits | src/app/api/workflows/route.ts:7 | the unsigned part is a number exactly when a digit comes first |
| JsNumbers.ParseIntNaN | src/app/api/workflows/route.ts:7-8 | parseInt(s, 10) is NaN exactly when no digit follows the white space and the optional sign |
| JsNumbers.DigitsValueOfSpelling | src/app/api/workflows/route.ts:7-8 | the digits of a spelled-out natural number are read back as that number |
| JsNumbers.ParseIntOfNat | src/app/api/workflows/route.ts:7-8 | parseInt reads back what String(n) writes, for every natural n |
| JsNumbers.DigitRunAll | src/app/api/workflows/route.ts:7 | a string of digits is read to its end |
| ProjectRoot.Examined | src/lib/find-root.ts:19-26 | the walk looks at no more than ten directories, beginning with the module's own |
| ProjectRoot.FirstMatch | src/lib/find-root.ts:20-22 | a match is an examined directory holding package.json; there is none exactly when no examined directory holds one |
| ProjectRoot.FindProjectRoot | src/lib/find-root.ts:15-30 | the loop returns the root the walk defines |
| ProjectRoot.ExaminedChain | src/lib/find-root.ts:23-25 | each examined directory is the parent of the one before; the walk stops early only at a directory that is its own parent |
| ProjectRoot.RootIsNearest | src/lib/find-root.ts:15-30 | the root is the nearest examined directory holding package.json, or the working directory when there is none |
| ProjectRoot.FirstMatchIsFirst | src/lib/find-root.ts:19-22 | the match found is the earliest one |
| ProjectRoot.StartsAtModuleDirectory | src/lib/find-root.ts:16-21 | when the module's own directory holds package.json, it is the root |
| Postbuild.Run | scripts/postbuild.mjs:21-39 | the script exits 0 exactly when the read, any needed write and the chmod succeed; then the file holds the shebanged content and is executable; any failure exits 1; a write happens only to add the shebang |
| Postbuild.InjectProperties | scripts/postbuild.mjs:19-27 | the result starts with "#!" and ends with the original content; content with a shebang is left alone, other content gets the shebang line in front; the transform is idempotent |
| Postbuild.RunTwice | scripts/postbuild.mjs:21-35 | a second run after a successful one changes nothing |
| PortSearch.FindAvailablePort | server.ts:17-36 | the loop gives the result of the recursive search |
| PortSearch.ResolvedIff | server.ts:17-36 | the search resolves to p exactly when p binds, every port from the start before p is in use, and p is at most start + maxAttempts |
| PortSearch.RejectedWhy | server.ts:22-28 | a rejection carries the first error that is not address-in-use, or address-in-use when every port tried was taken |
| PortSearch.DefaultRange | server.ts:17 | with the default of 10 attempts the port found is within 10 of the start |
| PortSearch.RequestedPortDefault | server.ts:39 | without PORT, or with it empty, the server asks for port 3000 |
| WorkflowsRoute.Limit | src/app/api/workflows/route.ts:7-12 | limit is 50 when absent, NaN or below 1, the number itself up to 200, and 200 above that |
| WorkflowsRoute.Offset | src/app/api/workflows/route.ts:8-13 | offset is 0 when absent, NaN or negative, and the number itself otherwise |
| WorkflowsRoute.StatusNamedInverse | src/app/api/workflows/route.ts:16 | every workflow status is found again under its own name |
| WorkflowsRoute.FiltersOf | src/app/api/workflows/route.ts:9-18 | a status or q parameter enters the filters only when it is not empty; a status naming no workflow status matches nothing |
| WorkflowsRoute.Get | src/app/api/workflows/route.ts:5-23 | the reply echoes the limit and offset used, holds at most limit rows, and is empty for an unknown status |
| WorkflowsRoute.GetPagesTheFilteredListing | src/app/api/workflows/route.ts:15-22 | the page and the total come from the same filters: the total counts the whole filtered listing and the page is cut from it |
| WorkflowsRoute.Fallbacks | src/app/api/workflows/route.ts:7-8 | the fallback strings "50" and "0" parse to 50 and 0 |
| WorkflowsRoute.GetDefaults | src/app/api/workflows/route.ts:5-23 | with no parameters the page size is 50 from offset 0 and every stored workflow is counted |
| WorkflowsRoute.AllListed | src/lib/db/queries.ts:170-196 | with no filter the listing holds every stored workflow once, so the count is the number of workflows |
| WorkflowsRoute.ListingUnfiltered | src/lib/db/queries.ts:138-168 | without a filter, ordering keeps every id given |
| CleanupRoute.Clamp | src/app/api/workflows/cleanup/route.ts:7-15 | a missing or non-finite field is 0; otherwise the floor, clamped to 0 .. the bound |
| CleanupRoute.Post | src/app/api/workflows/cleanup/route.ts:4-26 | the reply is 400 exactly when both clamped values are 0; otherwise the cleanup runs with the clamped values, which the reply echoes |
| CleanupRoute.CleanupBounds | src/app/api/workflows/cleanup/route.ts:10-24 | a cleanup runs only with keepDays at most 3650 and keepLatest at most 10000, one of them positive |
| CleanupRoute.NothingToKeepRefused | src/app/api/workflows/cleanup/route.ts:5-22 | a body that is not JSON, an empty one and one whose values are all below 1 are refused |
| UsageIndicator.UsageColorOf | src/components/layout/UsageIndicator.tsx:12-17 | muted exactly without a value, red exactly above 80, yellow exactly from 50 to 80, emerald exactly below 50 |
| UsageIndicator.Round | src/components/layout/UsageIndicator.tsx:25 | Math.round gives the integer within half of x, halves going up |
| UsageIndicator.FormatPercent | src/components/layout/UsageIndicator.tsx:23-26 | "--" exactly without a value, otherwise the rounded value followed by "%" |
| UsageIndicator.RoundNearest | src/components/layout/UsageIndicator.tsx:25 | the rounding is the nearest integer, the upper one on a tie, and it is monotone |
| UsageIndicator.FormatResetTime | src/components/layout/UsageIndicator.tsx:32-46 | "N/A" without a date or with an empty one, the localized date otherwise |
| UsageIndicator.ViewOf | src/components/layout/UsageIndicator.tsx:91-115 | loading shows the skeleton; an error with all three values missing shows the error; otherwise the three values are shown, missing ones as none |
| UsageIndicator.DataWinsOverError | src/components/layout/UsageIndicator.tsx:110-115 | one present value keeps the metrics on screen even with an error |
| HistoryTable.CeilDiv | src/components/history/HistoryTable.tsx:44 | the ceiling of total over the page size: just enough pages to hold the total |
| HistoryTable.TotalPages | src/components/history/HistoryTable.tsx:44 | at least one page, and just enough pages of 20 to hold the total |
| HistoryTable.DurationCellShape | src/components/history/HistoryTable.tsx:156-160 | the Duration cell is "-" exactly when the workflow has no completion time; otherwise it shows the time from creation to completion in the agent card's seconds-or-minutes format |
| HistoryTable.FormatDurationShape | src/components/history/HistoryTable.tsx:194-199 | the table's `formatDuration` is the agent card's display of whole seconds, and never prints "-" |
| HistoryTable.HistoryView.constructor | src/components/history/HistoryTable.tsx:38-42 | the table starts on page 1 of all statuses, with no query and a total of 0 |
| HistoryTable.HistoryView.Prev | src/components/history/HistoryTable.tsx:175 | Prev goes back one page but not below 1; nothing else changes |
| HistoryTable.HistoryView.Next | src/components/history/HistoryTable.tsx:182 | Next goes forward one page but not past the last; nothing else changes |
| HistoryTable.HistoryView.SelectStatus | src/components/history/HistoryTable.tsx:101-104 | choosing a status sets the filter and returns to page 1 |
| HistoryTable.HistoryView.Type | src/components/history/HistoryTable.tsx:116 | typing changes only the search input, not the applied query |
| HistoryTable.HistoryView.ApplySearch | src/components/history/HistoryTable.tsx:75-78 | applying the search makes the input the query and returns to page 1 |
| HistoryTable.HistoryView.Loaded | src/components/history/HistoryTable.tsx:64-68 | a response sets the total, 0 when it reports none; nothing else changes |
| HistoryTable.HistoryView.Request | src/components/history/HistoryTable.tsx:46-54 | the request carries limit 20, the page's offset, the status unless all, and the trimmed query unless empty |
| HistoryTable.PagingStaysInRange | src/components/history/HistoryTable.tsx:175-183 | from a page within 1 .. totalPages, Prev and Next stay within it |
| HistoryTable.RouteReadsRequest | src/components/history/HistoryTable.tsx:46-59 | the list route reads the request back as meant: 20 rows from offset (page - 1) * 20, the chosen status, the trimmed search term |
| HistoryTable.ParamsOf | src/components/history/HistoryTable.tsx:48-54 | each key of the request has the value last set for it, and the status and q keys are absent when not set |
| AgentCard.FormatDuration | src/components/agent/AgentCard.tsx:14-19 | empty exactly without a duration, otherwise the whole seconds shown as seconds, or minutes and seconds from a minute on |
| AgentCard.LiveTimer | src/components/agent/AgentCard.tsx:21-39 | nothing exactly when there is no start time or it is 0, otherwise the elapsed whole seconds |
| AgentCard.HeaderTime | src/components/agent/AgentCard.tsx:82-90 | a running agent shows the live timer; any other agent shows its duration exactly when it has one |
| AgentCard.RetryBadge | src/components/agent/AgentCard.tsx:75-79 | the badge "retry n" is shown exactly when the retry count is positive |
| AgentCard.SecondsDisplayParts | src/components/agent/AgentCard.tsx:17-18 | under a minute the seconds alone; from a minute on the whole minutes and the remaining seconds below 60 |
| AgentCard.BadgeSurvivesRestart | src/components/agent/AgentCard.tsx:75 | a restart of the agent keeps its retry badge |
| TopNav.DurationFormattersAgree | src/components/layout/TopNav.tsx:10-15 | the bar's, the history table's and the agent card's duration formats agree on every duration |
| TopNav.CompletedRoles | src/components/layout/TopNav.tsx:36-38 | the filter keeps exactly the completed roles of the list, and no more of them than the list has |
| TopNav.CompletedCount | src/components/layout/TopNav.tsx:36-38 | the count is at most the number of agents |
| TopNav.CompletedCountBounds | src/components/layout/TopNav.tsx:36-38 | the count is at most 5, is 5 exactly when every agent completed and 0 exactly when none did |
| TopNav.CompletedAllIff | src/components/layout/TopNav.tsx:36-38 | every role of the list is counted exactly when each of them completed |
| TopNav.StatusAreaOf | src/components/layout/TopNav.tsx:70-90 | hidden exactly while pending; otherwise the upper-case status, "n/5 agents", and a live time while running or paused, a fixed one otherwise, none without a start time |
| TopNav.FinishedElapsedIsFixed | src/components/layout/TopNav.tsx:81-86 | a finished workflow shows the time from start to completion, whatever the clock says |

## Left out

**Text units**
Dafny measures a `string` in Unicode characters, while JavaScript's `.length` and `.slice` count UTF-16 code units. A character outside the Basic Multilingual Plane, such as an emoji, is one character here and two code units there. A `slice` that splits such a pair yields a lone surrogate, which a Dafny `string` cannot hold.
- TitleShape: `EngineProps.TitleShape` and `EngineSpec.Title` count the 80-character limit and the cut in Unicode characters, while src/lib/workflow/engine.ts:48 counts code units. A prompt of 41 emoji gets a 40-emoji title plus "..." in the code, but comes back whole in the model.
- AssistantDedupe: `AgentRunners.AssistantDedupe` and `AgentRunners.ApplyAssistant` compare the first 100 Unicode characters of the assistant text, while src/lib/workflow/agent-runner.ts:175 slices 100 code units. The two prefixes differ on text with characters outside the Basic Multilingual Plane.
- OnData: `AgentRunners.AgentRunner.OnData` receives stdout chunks that are already decoded text. `data.toString()` in src/lib/workflow/agent-runner.ts:83 decodes each chunk on its own, so a multi-byte UTF-8 character split across two chunks becomes U+FFFD replacement characters in the code. The model cannot show that.

**Process, timers and transport**
- Spawning the agent CLI, stdin and stderr, and the SIGTERM-then-SIGKILL escalation in `kill()`: these are operating-system concerns. The model's `kill` sets the flag and clears the timers.
- Process exit, timer firings and socket events are method calls. Real `setTimeout` timing is not modelled.
- The WebSocket transport, `JSON.parse` of messages and the `terminal:*` traffic to the terminal manager are not modelled. Terminal calls are only recorded, and the `CustomEvent`s the hook dispatches for terminal output and errors are left out.
- The hook's 30-second ping interval and `send` are plumbing with nothing to state.
- `JSON.parse` of agent stdout is a function the caller hands in. A line it rejects is the "raw line" case. That covers text that is not JSON, and JSON on which `handleStreamEvent` throws inside the same `try` (src/lib/workflow/agent-runner.ts:88-97), such as the line `null` or an `assistant` record whose `message.content` is a non-empty string. Such a throw comes before any change other than re-arming the inactivity timer, so the model is exact for those lines.

**Concurrency**
- `Promise.allSettled`, the `setTimeout(0)` deferral in `startWorkflow` and the 500 ms pause poll are modelled sequentially.
  - The roles of a stage run one after another.
  - What arrives while the engine awaits is a script: runner outcomes, plus the pause, resume and cancel requests during each wait.
  - A script that runs out leaves the run `Suspended`.
- Interleavings of two workflows are not modelled.

**Database and files**
- Queries.NewestFirst: the listing is reverse insertion order. That equals `ORDER BY created_at DESC` (src/lib/db/queries.ts:164) only when creation stamps rise along insertion, which `Queries.NewestFirstOrder` and `Queries.ListNewestFirst` assume. `created_at` has one-second granularity, and SQLite leaves rows with equal stamps in no defined order. The model fixes one order for ties, and LIMIT/OFFSET paging across such ties can differ in the database.
- SQL itself is not modelled: `LIKE` is a parameter, and `datetime('now')` and `new Date().toISOString()` are stamps handed in.
- The DDL and the constraint errors SQLite could raise are not modelled. The row types are chosen so that a NOT NULL column cannot receive null.
- `cleanupWorkflows` is not part of this model. `CleanupRoute.Post` says with which values it would run.
- The template file read in `loadPromptTemplate`, and the prose of the default prompts, tool descriptions and output structures, are opaque text per role.
- The i18n message tables and `SUPPORTED_LOCALES` are not part of this model, so they are parameters.

**Other parameters**
- `PIPELINE_STAGES` and `getStageForRole` are not defined in the modelled sources, so the stage table is a parameter. `Stages.ValidStages` assumes each stage's `index` equals its position in the table.
- The file system seen by `findProjectRoot` is a predicate, and `dirname` is a function parameter.
- Port binding in `findAvailablePort` is an oracle.

**Client-side gaps**
- ClientSocket.SecondsText: renders `(durationMs / 1000).toFixed(1)` from the exact rational quotient, halves away from zero. IEEE doubles can round a half down, for example 150 ms, so the text can differ there.
- `formatResetTime`'s `toLocaleString` branch depends on the locale, so it is the parameter `localize`. `new Date` of a malformed string is not distinguished.
- Utilizations are `real`: NaN and IEEE rounding are out of scope.
- `Number(...)` of the cleanup body's fields is taken as given: a finite number or a non-finite one.
- `parseInt` is exact on arbitrarily long digit runs, where JavaScript loses precision beyond 2^53.
- `toLowerCase` in the browser-language test is ASCII-only.
- Interpolation variables are taken as text already converted by `String(...)`.
- `I18n.InheritedText` gives V8's text for the `Object.prototype` members that a placeholder can name. Other engines print built-in functions differently. A variable object whose own key is `__proto__` is not modelled.
- `I18n.Translate` assumes message keys and locales are never `Object.prototype` names, whose lookups in the code find inherited members.
- The hook's fetch in the history table is not modelled: `Loaded` takes the reported total, and `workflows`, `loading` and `error` are render state.
- The agent card's and top bar's one-second `setInterval` re-renders are not modelled: the clock is a parameter.

**Server-side gaps**
- `WsServer`: a `workflow:start` whose `projectPath` is present but not a string is excluded by the requires of `HandleClientMessage`. The model's messages carry text fields.
- `WsServer`: the `.catch` on `startWorkflow` and the engine run it triggers are not modelled. The engine's own run is `Engine.WorkflowEngine.ExecutePipeline`.
- `console` logging throughout is not modelled.
