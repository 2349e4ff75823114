/**
 * One invocation of the agent CLI (src/lib/workflow/agent-runner.ts): the
 * stdout line framing, the interpretation of stream records, the timers and
 * the settle-once guard around the run's promise.
 *
 * The process, the real timers and `JSON.parse` are outside the model. The
 * process's callbacks and the timer firings are the methods of the class
 * `AgentRunner`; parsing a line is a function handed in by the caller.
 * It gives `None` for every line the code's `try` sends to the raw-text
 * path: text that is not JSON, and JSON on which `handleStreamEvent` throws
 * (the line `null`, or an `assistant` record whose `message.content` is a
 * non-empty string). Such a throw happens before any change the handler
 * could make other than re-arming the inactivity timer, which the raw path
 * re-arms too, so taking those lines as raw is exact. The value-level
 * functions over `RunnerState` are the specification each method is proved
 * against.
 */
module AgentRunners {
  import opened Optional
  import opened Strings
  import opened Types

  /** A content block of an `assistant` message: its `type` and `text` (a missing text joins as ""). */
  datatype MessageBlock = MessageBlock(blockType: string, text: string)

  /** The `result` field of a result record. */
  datatype ResultValue =
    | NoResult
    | TextResult(text: string)
    /** A non-string JSON value: whether it is truthy, and its `JSON.stringify` spelling. */
    | JsonResult(truthy: bool, json: string)

  /** The inner event of a `stream_event` record. */
  datatype InnerEvent =
    /** `content_block_start`, with the block's `type` (None when the block is absent) and `name`. */
    | BlockStart(blockType: Option<string>, name: Option<string>)
    /** `content_block_delta`, with the delta's `type` and `text` (None when absent). */
    | BlockDelta(deltaType: Option<string>, deltaText: Option<string>)
    | BlockStop
    | OtherInner

  /** A parsed stdout line. */
  datatype StreamRecord =
    | StreamEvent(inner: Option<InnerEvent>)
    | AssistantRecord(content: Option<seq<MessageBlock>>)
    | ResultRecord(result: ResultValue, tokensIn: Option<int>, tokensOut: Option<int>)
    | OtherRecord

  /** What the runner emits to its listeners. */
  datatype RunnerEvent =
    | StreamChunk(chunk: string)
    | ActivityChange(activity: AgentActivity)
    | ResultOutput(output: string, tokensIn: Option<int>, tokensOut: Option<int>)
    | ErrorMessage(message: string)

  /** How the run's promise settled. */
  datatype Outcome = Resolved | Rejected(message: string)

  /** The exit status of the process: a code, or None when it ended by a signal. */
  type ExitCode = Option<int>

  /**
   * The runner's state: the instance fields, the run's local `buffer` and
   * `settled` (as `outcome`), and the events emitted so far. A timer is a
   * flag saying whether it is pending.
   */
  datatype RunnerState = RunnerState(
    role: AgentRole,
    killed: bool,
    output: string,
    resultEmitted: bool,
    activityTimer: bool,
    hardTimer: bool,
    lineBuffer: string,
    outcome: Option<Outcome>,
    events: seq<RunnerEvent>)

  function Initial(role: AgentRole): RunnerState
  {
    RunnerState(role, false, "", false, false, false, "", None, [])
  }

  /** The text of the two timeout errors and the exit error. */
  function HardTimeoutMessage(role: AgentRole): string
  {
    "Agent " + Label(role) + " hard timeout after " + NatToString(Config(role).timeoutMs * 2 / 1000) + "s"
  }

  function InactivityMessage(role: AgentRole): string
  {
    "Agent " + Label(role) + " timed out after " + NatToString(Config(role).timeoutMs / 1000) + "s of inactivity"
  }

  function ExitMessage(role: AgentRole, code: ExitCode): string
  {
    "Agent " + Label(role) + " exited with code " + (if code.Some? then IntToString(code.value) else "null")
  }

  const KilledMessage := "Agent was killed"

  /** `run()` starts: both timers are armed, the line buffer is empty and nothing has settled. */
  function StartRun(s: RunnerState): (r: RunnerState)
    ensures r.hardTimer && r.activityTimer && r.outcome == None && r.lineBuffer == ""
    ensures r.output == s.output && r.events == s.events && r.killed == s.killed
  {
    s.(hardTimer := true, activityTimer := true, lineBuffer := "", outcome := None)
  }

  /** `settle(...)`: the first call records the outcome and clears both timers; later calls do nothing. */
  function Settle(s: RunnerState, o: Outcome): RunnerState
  {
    if s.outcome.Some? then s
    else s.(outcome := Some(o), activityTimer := false, hardTimer := false)
  }

  /** `kill()`: mark killed and clear both timers (the signal to the process is not modelled). */
  function KillState(s: RunnerState): RunnerState
  {
    s.(killed := true, activityTimer := false, hardTimer := false)
  }

  function Emit(s: RunnerState, e: RunnerEvent): RunnerState
  {
    s.(events := s.events + [e])
  }

  /** Append to `output` and emit the same text as a stream chunk. */
  function AppendAndStream(s: RunnerState, text: string): RunnerState
  {
    Emit(s.(output := s.output + text), StreamChunk(text))
  }

  /** The text of an assistant message: its `text` blocks joined with nothing between them. */
  function AssistantText(blocks: seq<MessageBlock>): string
  {
    if blocks == [] then ""
    else (if blocks[0].blockType == "text" then blocks[0].text else "") + AssistantText(blocks[1..])
  }

  function IsTruthy(v: ResultValue): bool
  {
    match v
    case NoResult => false
    case TextResult(t) => t != ""
    case JsonResult(truthy, _) => truthy
  }

  function ResultText(v: ResultValue): string
  {
    match v
    case NoResult => ""
    case TextResult(t) => t
    case JsonResult(_, json) => json
  }

  /** The activity a `content_block_start` announces, if any. */
  function StartActivity(blockType: Option<string>, name: Option<string>): Option<AgentActivity>
  {
    if blockType == Some("thinking") then Some(Thinking)
    else if blockType == Some("tool_use") then
      Some(ToolUse(if name.Some? && name.value != "" then name.value else "unknown"))
    else if blockType == Some("text") then Some(TextOutput)
    else None
  }

  /** The inner event of a `stream_event` record. */
  function ApplyInner(s: RunnerState, inner: InnerEvent): RunnerState
  {
    match inner
    case BlockStart(bt, name) =>
      var a := StartActivity(bt, name);
      if a.Some? then Emit(s, ActivityChange(a.value)) else s
    case BlockDelta(dt, text) =>
      if dt == Some("text_delta") && text.Some? && text.value != "" then AppendAndStream(s, text.value)
      else s
    case BlockStop => Emit(s, ActivityChange(Idle))
    case OtherInner => s
  }

  /** An `assistant` record whose message has content. */
  function ApplyAssistant(s: RunnerState, blocks: seq<MessageBlock>): RunnerState
  {
    var full := AssistantText(blocks);
    if full != "" && !Contains(s.output, Take(full, 100)) then
      var t := if |s.output| > 0 then AppendAndStream(s, "\n\n") else s;
      AppendAndStream(t, full)
    else if |s.output| > 0 then AppendAndStream(s, "\n\n")
    else s
  }

  /** A `result` record. */
  function ApplyResult(s: RunnerState, result: ResultValue, tin: Option<int>, tout: Option<int>): RunnerState
  {
    if IsTruthy(result) && !s.resultEmitted then
      var t := s.(resultEmitted := true);
      var u := if t.output == "" then t.(output := ResultText(result)) else t;
      Emit(u, ResultOutput(u.output, tin, tout))
    else s
  }

  /** `handleStreamEvent(event)`, after the inactivity timer has been re-armed. */
  function ApplyRecord(s: RunnerState, rec: StreamRecord): RunnerState
  {
    match rec
    case StreamEvent(inner) => if inner.None? then s else ApplyInner(s, inner.value)
    case AssistantRecord(content) => if content.None? then s else ApplyAssistant(s, content.value)
    case ResultRecord(result, tin, tout) => ApplyResult(s, result, tin, tout)
    case OtherRecord => s
  }

  /** A parsed record: every record counts as activity and re-arms the inactivity timer. */
  function HandleRecord(s: RunnerState, rec: StreamRecord): RunnerState
  {
    ApplyRecord(s.(activityTimer := true), rec)
  }

  /**
   * A line the parser rejects (not JSON, or JSON the record handler throws
   * on): activity, then the line and a newline go to output and to the stream.
   */
  function HandleRawLine(s: RunnerState, line: string): RunnerState
  {
    AppendAndStream(s.(activityTimer := true), line + "\n")
  }

  /** One complete line: blank lines are skipped, the rest parsed or taken raw. */
  function HandleLine(s: RunnerState, line: string, parse: string -> Option<StreamRecord>): RunnerState
  {
    if IsBlank(line) then s
    else match parse(line)
      case Some(rec) => HandleRecord(s, rec)
      case None => HandleRawLine(s, line)
  }

  /** The complete lines handled in order. */
  function HandleLines(s: RunnerState, lines: seq<string>, parse: string -> Option<StreamRecord>): RunnerState
    decreases |lines|
  {
    if lines == [] then s
    else HandleLine(HandleLines(s, lines[..|lines| - 1], parse), lines[|lines| - 1], parse)
  }

  /** A stdout `data` chunk: keep the unterminated tail buffered, handle every complete line. */
  function OnStdout(s: RunnerState, data: string, parse: string -> Option<StreamRecord>): RunnerState
  {
    var lines := Split(s.lineBuffer + data, '\n');
    HandleLines(s.(lineBuffer := lines[|lines| - 1]), lines[..|lines| - 1], parse)
  }

  /** The process `close` event. */
  function OnClose(s: RunnerState, code: ExitCode): RunnerState
  {
    if s.killed then Settle(s, Rejected(KilledMessage))
    else if code == Some(0) then
      var t := if !s.resultEmitted then Emit(s, ResultOutput(s.output, None, None)) else s;
      Settle(t, Resolved)
    else
      var msg := ExitMessage(s.role, code);
      Settle(Emit(s, ErrorMessage(msg)), Rejected(msg))
  }

  /** The process `error` event. */
  function OnProcessError(s: RunnerState, message: string): RunnerState
  {
    Settle(Emit(s, ErrorMessage(message)), Rejected(message))
  }

  /** The hard timer fires. */
  function OnHardTimeout(s: RunnerState): RunnerState
  {
    var msg := HardTimeoutMessage(s.role);
    Settle(Emit(KillState(s), ErrorMessage(msg)), Rejected(msg))
  }

  /** The inactivity timer fires. */
  function OnInactivity(s: RunnerState): RunnerState
  {
    var msg := InactivityMessage(s.role);
    Settle(Emit(KillState(s), ErrorMessage(msg)), Rejected(msg))
  }

  /** Every input the runner reacts to. */
  datatype RunnerInput =
    | Start
    | Stdout(data: string)
    | Close(code: ExitCode)
    | ProcessError(message: string)
    | HardTimerFires
    | InactivityTimerFires
    | Kill

  /** A timer can only fire while it is pending. */
  predicate CanHappen(s: RunnerState, i: RunnerInput)
  {
    match i
    case HardTimerFires => s.hardTimer
    case InactivityTimerFires => s.activityTimer
    case _ => true
  }

  function Next(s: RunnerState, i: RunnerInput, parse: string -> Option<StreamRecord>): RunnerState
    requires CanHappen(s, i)
  {
    match i
    case Start => StartRun(s)
    case Stdout(d) => OnStdout(s, d, parse)
    case Close(c) => OnClose(s, c)
    case ProcessError(m) => OnProcessError(s, m)
    case HardTimerFires => OnHardTimeout(s)
    case InactivityTimerFires => OnInactivity(s)
    case Kill => KillState(s)
  }

  // ---------------------------------------------------------------------
  // Properties of the specification
  // ---------------------------------------------------------------------

  /** Appending keeps the old output and the old events as prefixes. */
  lemma AppendKeepsPrefixes(s: RunnerState, text: string)
    ensures StartsWith(AppendAndStream(s, text).output, s.output)
    ensures s.events <= AppendAndStream(s, text).events
  {
    assert (s.output + text)[..|s.output|] == s.output;
  }

  /** Prefixes compose. */
  lemma PrefixTrans(a: string, b: string, c: string)
    requires StartsWith(b, a) && StartsWith(c, b)
    ensures StartsWith(c, a)
  {
    assert c[..|a|] == c[..|b|][..|a|];
  }

  /** A predicate for "t differs from s only by appending to output and events, and perhaps the result flag". */
  predicate OnlyAppends(s: RunnerState, t: RunnerState)
  {
    && StartsWith(t.output, s.output)
    && s.events <= t.events
    && t.role == s.role && t.outcome == s.outcome && t.killed == s.killed && t.lineBuffer == s.lineBuffer
    && t.hardTimer == s.hardTimer && t.activityTimer == s.activityTimer
  }

  lemma AssistantOnlyAppends(s: RunnerState, blocks: seq<MessageBlock>)
    ensures OnlyAppends(s, ApplyAssistant(s, blocks))
  {
    var full := AssistantText(blocks);
    AppendKeepsPrefixes(s, "\n\n");
    if full != "" && !Contains(s.output, Take(full, 100)) {
      var t := if |s.output| > 0 then AppendAndStream(s, "\n\n") else s;
      AppendKeepsPrefixes(t, full);
      PrefixTrans(s.output, t.output, AppendAndStream(t, full).output);
    }
  }

  lemma InnerOnlyAppends(s: RunnerState, inner: InnerEvent)
    ensures OnlyAppends(s, ApplyInner(s, inner))
  {
    if inner.BlockDelta? && inner.deltaText.Some? {
      AppendKeepsPrefixes(s, inner.deltaText.value);
    }
  }

  /** A record only appends to `output`, except that the first result fills an empty output. */
  lemma ApplyRecordGrowsOutput(s: RunnerState, rec: StreamRecord)
    ensures OnlyAppends(s, ApplyRecord(s, rec))
  {
    match rec
    case StreamEvent(inner) =>
      if inner.Some? {
        InnerOnlyAppends(s, inner.value);
      }
    case AssistantRecord(content) =>
      if content.Some? {
        AssistantOnlyAppends(s, content.value);
      }
    case ResultRecord(result, tin, tout) =>
    case OtherRecord =>
  }

  /** `output` only ever grows: every input leaves the old output a prefix of the new one. */
  lemma {:induction false} HandleLinesGrowsOutput(s: RunnerState, lines: seq<string>, parse: string -> Option<StreamRecord>)
    ensures StartsWith(HandleLines(s, lines, parse).output, s.output)
    ensures HandleLines(s, lines, parse).outcome == s.outcome
    ensures HandleLines(s, lines, parse).lineBuffer == s.lineBuffer
    ensures HandleLines(s, lines, parse).hardTimer == s.hardTimer
    ensures HandleLines(s, lines, parse).killed == s.killed && HandleLines(s, lines, parse).role == s.role
    ensures s.events <= HandleLines(s, lines, parse).events
    decreases |lines|
  {
    if lines != [] {
      var t := HandleLines(s, lines[..|lines| - 1], parse);
      HandleLinesGrowsOutput(s, lines[..|lines| - 1], parse);
      var line := lines[|lines| - 1];
      if !IsBlank(line) && parse(line).Some? {
        ApplyRecordGrowsOutput(t.(activityTimer := true), parse(line).value);
      }
    }
  }

  lemma OutputOnlyGrows(s: RunnerState, i: RunnerInput, parse: string -> Option<StreamRecord>)
    requires CanHappen(s, i)
    ensures StartsWith(Next(s, i, parse).output, s.output)
    ensures s.events <= Next(s, i, parse).events
  {
    if i.Stdout? {
      var lines := Split(s.lineBuffer + i.data, '\n');
      HandleLinesGrowsOutput(s.(lineBuffer := lines[|lines| - 1]), lines[..|lines| - 1], parse);
    }
  }

  /** The run settles at most once: an outcome, once recorded, never changes. */
  lemma SettlesOnce(s: RunnerState, i: RunnerInput, parse: string -> Option<StreamRecord>)
    requires CanHappen(s, i) && s.outcome.Some? && !i.Start?
    ensures Next(s, i, parse).outcome == s.outcome
  {
    if i.Stdout? {
      var lines := Split(s.lineBuffer + i.data, '\n');
      HandleLinesGrowsOutput(s.(lineBuffer := lines[|lines| - 1]), lines[..|lines| - 1], parse);
    }
  }

  /** Settling clears both timers at that moment. */
  lemma SettlingClearsTimers(s: RunnerState, i: RunnerInput, parse: string -> Option<StreamRecord>)
    requires CanHappen(s, i) && s.outcome.None? && Next(s, i, parse).outcome.Some?
    ensures !Next(s, i, parse).activityTimer && !Next(s, i, parse).hardTimer
  {
    if i.Stdout? {
      var lines := Split(s.lineBuffer + i.data, '\n');
      HandleLinesGrowsOutput(s.(lineBuffer := lines[|lines| - 1]), lines[..|lines| - 1], parse);
    }
  }

  /** The hard timer is armed only by `run()`: no other input arms it. */
  lemma HardTimerNeverRearmed(s: RunnerState, i: RunnerInput, parse: string -> Option<StreamRecord>)
    requires CanHappen(s, i) && !i.Start? && !s.hardTimer
    ensures !Next(s, i, parse).hardTimer
  {
    if i.Stdout? {
      var lines := Split(s.lineBuffer + i.data, '\n');
      HandleLinesGrowsOutput(s.(lineBuffer := lines[|lines| - 1]), lines[..|lines| - 1], parse);
    }
  }

  /** Every parsed record and every raw line re-arms the inactivity timer. */
  lemma ActivityRearmedByEveryLine(s: RunnerState, line: string, parse: string -> Option<StreamRecord>)
    requires !IsBlank(line)
    ensures HandleLine(s, line, parse).activityTimer
  {
    if parse(line).Some? {
      ApplyRecordGrowsOutput(s.(activityTimer := true), parse(line).value);
    }
  }

  /** Only the first truthy result record is honoured; it fills output only when output is empty. */
  lemma FirstResultOnly(s: RunnerState, result: ResultValue, tin: Option<int>, tout: Option<int>)
    ensures var r := ApplyRecord(s, ResultRecord(result, tin, tout));
      && (s.resultEmitted || !IsTruthy(result) ==> r == s)
      && (!s.resultEmitted && IsTruthy(result) ==>
            && r.resultEmitted
            && r.output == (if s.output == "" then ResultText(result) else s.output)
            && r.events == s.events + [ResultOutput(r.output, tin, tout)])
  {
  }

  /** A non-empty text delta appends exactly its text and streams it; start/stop only report activity. */
  lemma DeltaAndBlockRecords(s: RunnerState, inner: InnerEvent)
    ensures var r := ApplyRecord(s, StreamEvent(Some(inner)));
      && (inner.BlockDelta? && inner.deltaType == Some("text_delta") && inner.deltaText.Some? && inner.deltaText.value != "" ==>
            r.output == s.output + inner.deltaText.value && r.events == s.events + [StreamChunk(inner.deltaText.value)])
      && (inner.BlockStart? || inner.BlockStop? ==>
            r.output == s.output && (r.events == s.events || (|r.events| == |s.events| + 1 && r.events[|s.events|].ActivityChange?)))
  {
  }

  /**
   * An assistant record with text appends it (after "\n\n" when output is
   * non-empty) only when output does not already contain its first 100
   * characters; otherwise only the "\n\n" separator is added, and only to a
   * non-empty output.
   */
  lemma AssistantDedupe(s: RunnerState, blocks: seq<MessageBlock>)
    ensures var r := ApplyRecord(s, AssistantRecord(Some(blocks)));
      var full := AssistantText(blocks);
      var sep := if |s.output| > 0 then "\n\n" else "";
      && (full != "" && !Contains(s.output, Take(full, 100)) ==> r.output == s.output + sep + full)
      && (full == "" || Contains(s.output, Take(full, 100)) ==> r.output == s.output + sep)
  {
  }

  /** A line that fails to parse goes to output and to the stream with a newline added. */
  lemma RawLineAppended(s: RunnerState, line: string, parse: string -> Option<StreamRecord>)
    requires !IsBlank(line) && parse(line) == None
    ensures HandleLine(s, line, parse).output == s.output + line + "\n"
    ensures HandleLine(s, line, parse).events == s.events + [StreamChunk(line + "\n")]
  {
  }

  /**
   * Framing: the complete lines handled, each followed by its newline, and
   * then the new buffer make up exactly the old buffer plus the data; the new
   * buffer holds no newline.
   */
  lemma StdoutFraming(s: RunnerState, data: string, parse: string -> Option<StreamRecord>)
    ensures var lines := Split(s.lineBuffer + data, '\n');
      && OnStdout(s, data, parse).lineBuffer == lines[|lines| - 1]
      && '\n' !in OnStdout(s, data, parse).lineBuffer
      && Join(lines, "\n") == s.lineBuffer + data
      && (forall k :: 0 <= k < |lines| ==> '\n' !in lines[k])
  {
    var lines := Split(s.lineBuffer + data, '\n');
    SplitJoin(s.lineBuffer + data, '\n');
    HandleLinesGrowsOutput(s.(lineBuffer := lines[|lines| - 1]), lines[..|lines| - 1], parse);
  }

  /**
   * Close: after a kill the run rejects with "Agent was killed"; exit code 0
   * resolves, emitting the accumulated output first unless a result record
   * was already honoured; any other code rejects with the exit message.
   */
  lemma CloseOutcome(s: RunnerState, code: ExitCode)
    requires s.outcome.None?
    ensures var r := OnClose(s, code);
      && (s.killed ==> r.outcome == Some(Rejected(KilledMessage)) && r.events == s.events)
      && (!s.killed && code == Some(0) ==>
            r.outcome == Some(Resolved)
            && r.events == s.events + (if s.resultEmitted then [] else [ResultOutput(s.output, None, None)]))
      && (!s.killed && code != Some(0) ==>
            r.outcome == Some(Rejected(ExitMessage(s.role, code)))
            && r.events == s.events + [ErrorMessage(ExitMessage(s.role, code))])
  {
  }

  /** The hard timeout is twice the role's budget, and both timeout messages name whole seconds. */
  lemma TimeoutMessages(role: AgentRole)
    ensures HardTimeoutMessage(role) == "Agent " + Label(role) + " hard timeout after " + NatToString(Config(role).timeoutMs / 500) + "s"
    ensures Config(role).timeoutMs * 2 / 1000 * 1000 == Config(role).timeoutMs * 2
  {
    TimeoutsAreWholeSeconds(role);
  }

  // ---------------------------------------------------------------------
  // The object
  // ---------------------------------------------------------------------

  /** `AgentRunner`: the fields the handlers update in place, plus the run's locals. */
  class AgentRunner {
    const role: AgentRole
    var killed: bool
    var output: string
    var resultEmitted: bool
    var activityTimer: bool
    var hardTimer: bool
    /** The run's `buffer` of stdout text after the last newline. */
    var lineBuffer: string
    /** The run's `settled` flag, with the outcome it settled to. */
    var outcome: Option<Outcome>
    /** What has been emitted to listeners, in order. */
    var events: seq<RunnerEvent>

    function State(): RunnerState
      reads this
    {
      RunnerState(role, killed, output, resultEmitted, activityTimer, hardTimer, lineBuffer, outcome, events)
    }

    constructor (role: AgentRole)
      ensures State() == Initial(role)
    {
      this.role := role;
      killed := false;
      output := "";
      resultEmitted := false;
      activityTimer := false;
      hardTimer := false;
      lineBuffer := "";
      outcome := None;
      events := [];
    }

    /** `run()`: arm the hard timer (2 x timeout) and the inactivity timer; a fresh settle guard and buffer. */
    method Run()
      modifies this
      ensures State() == StartRun(old(State()))
    {
      outcome := None;
      hardTimer := true;
      activityTimer := true;
      lineBuffer := "";
    }

    method EmitEvent(e: RunnerEvent)
      modifies this
      ensures State() == Emit(old(State()), e)
    {
      events := events + [e];
    }

    method SettleWith(o: Outcome)
      modifies this
      ensures State() == Settle(old(State()), o)
    {
      if outcome.Some? {
        return;
      }
      outcome := Some(o);
      ClearAllTimers();
    }

    method ClearAllTimers()
      modifies this
      ensures State() == old(State()).(activityTimer := false, hardTimer := false)
    {
      if activityTimer {
        activityTimer := false;
      }
      if hardTimer {
        hardTimer := false;
      }
    }

    method Kill()
      modifies this
      ensures State() == KillState(old(State()))
    {
      killed := true;
      ClearAllTimers();
    }

    method AppendOutput(text: string)
      modifies this
      ensures State() == AppendAndStream(old(State()), text)
    {
      output := output + text;
      EmitEvent(StreamChunk(text));
    }

    /** `handleStreamEvent(event)`. */
    method HandleStreamEvent(rec: StreamRecord)
      modifies this
      ensures State() == HandleRecord(old(State()), rec)
    {
      activityTimer := true;
      match rec {
        case StreamEvent(inner) =>
          if inner.Some? {
            match inner.value {
              case BlockStart(bt, name) =>
                var a := StartActivity(bt, name);
                if a.Some? {
                  EmitEvent(ActivityChange(a.value));
                }
              case BlockDelta(dt, text) =>
                if dt == Some("text_delta") && text.Some? && text.value != "" {
                  AppendOutput(text.value);
                }
              case BlockStop =>
                EmitEvent(ActivityChange(Idle));
              case OtherInner =>
            }
          }
        case AssistantRecord(content) =>
          if content.Some? {
            var full := AssistantText(content.value);
            if full != "" && !Contains(output, Take(full, 100)) {
              if |output| > 0 {
                AppendOutput("\n\n");
              }
              AppendOutput(full);
            } else if |output| > 0 {
              AppendOutput("\n\n");
            }
          }
        case ResultRecord(result, tin, tout) =>
          if IsTruthy(result) && !resultEmitted {
            resultEmitted := true;
            if output == "" {
              output := ResultText(result);
            }
            EmitEvent(ResultOutput(output, tin, tout));
          }
        case OtherRecord =>
      }
    }

    /** The stdout `data` handler: split off complete lines, keep the tail, handle each line in order. */
    method OnData(data: string, parse: string -> Option<StreamRecord>)
      modifies this
      ensures State() == OnStdout(old(State()), data, parse)
    {
      var lines := Split(lineBuffer + data, '\n');
      lineBuffer := lines[|lines| - 1];
      ghost var start := State();
      var i := 0;
      while i < |lines| - 1
        invariant 0 <= i <= |lines| - 1
        invariant State() == HandleLines(start, lines[..i], parse)
      {
        var line := lines[i];
        assert lines[..i + 1][..i] == lines[..i];
        if !IsBlank(line) {
          var rec := parse(line);
          if rec.Some? {
            HandleStreamEvent(rec.value);
          } else {
            activityTimer := true;
            AppendOutput(line + "\n");
          }
        }
        i := i + 1;
      }
      assert lines[..|lines| - 1][..i] == lines[..i];
    }

    /** The process `close` handler. */
    method OnCloseEvent(code: ExitCode)
      modifies this
      ensures State() == OnClose(old(State()), code)
    {
      if killed {
        SettleWith(Rejected(KilledMessage));
        return;
      }
      if code == Some(0) {
        if !resultEmitted {
          EmitEvent(ResultOutput(output, None, None));
        }
        SettleWith(Resolved);
      } else {
        var msg := ExitMessage(role, code);
        EmitEvent(ErrorMessage(msg));
        SettleWith(Rejected(msg));
      }
    }

    /** The process `error` handler. */
    method OnErrorEvent(message: string)
      modifies this
      ensures State() == OnProcessError(old(State()), message)
    {
      EmitEvent(ErrorMessage(message));
      SettleWith(Rejected(message));
    }

    /** The hard timer's callback. */
    method FireHardTimeout()
      requires hardTimer
      modifies this
      ensures State() == OnHardTimeout(old(State()))
    {
      Kill();
      var msg := HardTimeoutMessage(role);
      EmitEvent(ErrorMessage(msg));
      SettleWith(Rejected(msg));
    }

    /** The inactivity timer's callback. */
    method FireInactivityTimeout()
      requires activityTimer
      modifies this
      ensures State() == OnInactivity(old(State()))
    {
      Kill();
      var msg := InactivityMessage(role);
      EmitEvent(ErrorMessage(msg));
      SettleWith(Rejected(msg));
    }
  }
}
