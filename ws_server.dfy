/**
 * The WebSocket server (src/lib/websocket/server.ts): engine events are
 * relayed to clients through the ConnectionManager, and client messages are
 * checked and turned into engine, registry and terminal calls.
 *
 * A client message is the value `JSON.parse` produced, as a `JsValue`.
 * `handleClientMessage` is split into a pure decision (`Decide`: which
 * guard passes, with which arguments) and a method that carries it out.
 * The terminal manager is outside the model: its calls are recorded in
 * `ptyCalls`, and the outcome of creating a terminal is handed in.
 */
module WsServer {
  import opened Optional
  import opened Strings
  import opened Types
  import opened EngineSpec
  import opened Connections
  import Engine

  // ---------------------------------------------------------------------
  // Parsed JSON
  // ---------------------------------------------------------------------

  /** A value `JSON.parse` can return, plus `undefined` for a missing field. */
  datatype JsValue =
    | Undefined
    | Null
    | Bool(b: bool)
    | Num(n: real)
    | NaN
    | Str(s: string)
    | Arr(items: seq<JsValue>)
    | Obj(fields: map<string, JsValue>)

  /** JavaScript truthiness: `undefined`, `null`, `false`, `0`, `NaN` and `""` are falsy. */
  predicate Truthy(v: JsValue)
  {
    match v
    case Undefined => false
    case Null => false
    case Bool(b) => b
    case Num(n) => n != 0.0
    case NaN => false
    case Str(s) => s != ""
    case Arr(_) => true
    case Obj(_) => true
  }

  /**
   * `v.name` for the field names the server reads, none of which an object
   * inherits: only an object has them.
   */
  function Field(v: JsValue, name: string): JsValue
  {
    if v.Obj? && name in v.fields then v.fields[name] else Undefined
  }

  /** `const { name } = msg.payload || {}`. */
  function PayloadField(msg: JsValue, name: string): JsValue
  {
    var payload := Field(msg, "payload");
    if Truthy(payload) then Field(payload, name) else Undefined
  }

  /** `x || fallback`. */
  function OrElse(v: JsValue, fallback: string): (r: JsValue)
    ensures Truthy(v) ==> r == v
    ensures !Truthy(v) ==> r == Str(fallback)
  {
    if Truthy(v) then v else Str(fallback)
  }

  // ---------------------------------------------------------------------
  // Messages to clients
  // ---------------------------------------------------------------------

  /** What the server sends to a client. */
  datatype Outgoing =
    | Relayed(event: EngineEvent)
    | Pong
    /** `workflow:failed` with a null workflow id. */
    | StartFailed(error: string)
    | TerminalCreated(createdId: string)
    | TerminalError(error: string)
    | TerminalClosed(terminalId: JsValue)

  const PromptRequired := "Prompt is required"

  // ---------------------------------------------------------------------
  // Engine events to clients
  // ---------------------------------------------------------------------

  /** The workflow whose subscribers get the event; `workflow:created` goes to everyone. */
  function Route(e: EngineEvent): Option<string>
  {
    if e.WorkflowCreated? then None else Some(e.workflowId)
  }

  /** The messages the engine listeners send for a stretch of engine effects, in order. */
  function Relays(effects: seq<Effect>, order: seq<string>, clients: map<string, Client>, open: set<string>): seq<Delivery<Outgoing>>
  {
    if effects == [] then []
    else
      var last := effects[|effects| - 1];
      Relays(effects[..|effects| - 1], order, clients, open)
      + (if last.Emit? then Deliveries(Audience(order, clients, Route(last.event), open), Relayed(last.event)) else [])
  }

  /**
   * A client receives an engine event exactly when the engine emitted it and
   * the client is registered with an open socket and, unless the event is
   * `workflow:created`, subscribed to the event's workflow.
   */
  lemma {:induction false} RelaysExact(effects: seq<Effect>, order: seq<string>, clients: map<string, Client>, open: set<string>, x: string, e: EngineEvent)
    requires forall y :: y in clients <==> y in order
    ensures Delivery(x, Relayed(e)) in Relays(effects, order, clients, open)
            <==> Emit(e) in effects && x in clients && x in open
                 && (e.WorkflowCreated? || e.workflowId in clients[x].subscribedWorkflows)
  {
    if effects != [] {
      var init := effects[..|effects| - 1];
      var last := effects[|effects| - 1];
      RelaysExact(init, order, clients, open, x, e);
      assert effects == init + [last];
      assert Emit(e) in effects <==> Emit(e) in init || Emit(e) == last;
      if last.Emit? {
        var a := Audience(order, clients, Route(last.event), open);
        DeliveredIff(a, x, Relayed(last.event));
        if Delivery(x, Relayed(e)) in Deliveries(a, Relayed(last.event)) {
          var i :| 0 <= i < |a| && Deliveries(a, Relayed(last.event))[i] == Delivery(x, Relayed(e));
          assert last.event == e;
        }
      } else {
        assert Relays(effects, order, clients, open) == Relays(init, order, clients, open) + [];
      }
    }
  }

  /** Relaying two stretches one after the other relays their concatenation. */
  lemma {:induction false} RelaysAppend(a: seq<Effect>, b: seq<Effect>, order: seq<string>, clients: map<string, Client>, open: set<string>)
    ensures Relays(a + b, order, clients, open) == Relays(a, order, clients, open) + Relays(b, order, clients, open)
    decreases |b|
  {
    if b == [] {
      assert a + b == a;
    } else {
      var init := b[..|b| - 1];
      RelaysAppend(a, init, order, clients, open);
      assert (a + b)[..|a + b| - 1] == a + init;
      assert (a + b)[|a + b| - 1] == b[|b| - 1];
    }
  }

  /** A started workflow is announced to every registered client with an open socket, subscribed or not. */
  lemma StartAnnouncedToAll(s: EngineState, id: string, prompt: string, projectPath: string, dbSteps: seq<AgentStep>,
                            order: seq<string>, clients: map<string, Client>, open: set<string>, x: string)
    requires forall y :: y in clients <==> y in order
    ensures |s.log| <= |StartS(s, id, prompt, projectPath, dbSteps).log|
    ensures Delivery(x, Relayed(WorkflowCreated(id, Title(prompt))))
              in Relays(StartS(s, id, prompt, projectPath, dbSteps).log[|s.log|..], order, clients, open)
            <==> x in clients && x in open
  {
    var added := StartS(s, id, prompt, projectPath, dbSteps).log[|s.log|..];
    assert added[2] == Emit(WorkflowCreated(id, Title(prompt)));
    RelaysExact(added, order, clients, open, x, WorkflowCreated(id, Title(prompt)));
  }

  /** A pause that takes effect is announced exactly to the open subscribers of the workflow. */
  lemma PauseAnnouncedToSubscribers(s: EngineState, id: string, order: seq<string>, clients: map<string, Client>, open: set<string>, x: string)
    requires forall y :: y in clients <==> y in order
    requires id in s.pipelines && s.pipelines[id].status == Running
    ensures |s.log| <= |PauseS(s, id).log|
    ensures Delivery(x, Relayed(WorkflowPaused(id))) in Relays(PauseS(s, id).log[|s.log|..], order, clients, open)
            <==> x in clients && x in open && id in clients[x].subscribedWorkflows
  {
    var added := PauseS(s, id).log[|s.log|..];
    assert added[1] == Emit(WorkflowPaused(id));
    RelaysExact(added, order, clients, open, x, WorkflowPaused(id));
  }

  // ---------------------------------------------------------------------
  // handleClientMessage: the decision
  // ---------------------------------------------------------------------

  /** What a client message asks for once its guard has been checked. */
  datatype Action =
    | Ignore
    | ReplyPong
    | RejectStart
    | Start(prompt: string, projectPath: JsValue)
    | Subscribe(workflowId: JsValue)
    | Pause(workflowId: JsValue)
    | Resume(workflowId: JsValue)
    | Cancel(workflowId: JsValue)
    | CreateTerminal(projectPath: JsValue)
    | WriteTerminal(terminalId: JsValue, data: JsValue)
    | ResizeTerminal(terminalId: JsValue, cols: JsValue, rows: JsValue)
    | CloseTerminal(terminalId: JsValue)

  /** The `switch (msg.type)` of `handleClientMessage` with each case's guard. */
  function Decide(msg: JsValue, defaultProjectPath: string): (a: Action)
    // ping is answered
    ensures Field(msg, "type") == Str("ping") <==> a == ReplyPong
    // a start goes ahead exactly with a non-blank string prompt, and is rejected otherwise
    ensures a.Start? <==> Field(msg, "type") == Str("workflow:start")
                          && PayloadField(msg, "prompt").Str? && !IsBlank(PayloadField(msg, "prompt").s)
    ensures a == RejectStart <==> Field(msg, "type") == Str("workflow:start")
                                  && !(PayloadField(msg, "prompt").Str? && !IsBlank(PayloadField(msg, "prompt").s))
    ensures a.Start? ==> a.prompt == PayloadField(msg, "prompt").s
    // an empty project path falls back to the server's
    ensures a.Start? || a.CreateTerminal? ==> a.projectPath == OrElse(PayloadField(msg, "projectPath"), defaultProjectPath)
    // workflow requests are forwarded only with a workflow id
    ensures a.Subscribe? <==> Field(msg, "type") == Str("workflow:subscribe") && Truthy(PayloadField(msg, "workflowId"))
    ensures a.Pause? <==> Field(msg, "type") == Str("workflow:pause") && Truthy(PayloadField(msg, "workflowId"))
    ensures a.Resume? <==> Field(msg, "type") == Str("workflow:resume") && Truthy(PayloadField(msg, "workflowId"))
    ensures a.Cancel? <==> Field(msg, "type") == Str("workflow:cancel") && Truthy(PayloadField(msg, "workflowId"))
    ensures a.Subscribe? || a.Pause? || a.Resume? || a.Cancel? ==> a.workflowId == PayloadField(msg, "workflowId")
    // terminal requests need their ids, data that is neither null nor undefined, and non-zero sizes
    ensures a.CreateTerminal? <==> Field(msg, "type") == Str("terminal:create")
    ensures a.WriteTerminal? <==> Field(msg, "type") == Str("terminal:input") && Truthy(PayloadField(msg, "terminalId"))
                                  && PayloadField(msg, "data") != Null && PayloadField(msg, "data") != Undefined
    ensures a.ResizeTerminal? <==> Field(msg, "type") == Str("terminal:resize") && Truthy(PayloadField(msg, "terminalId"))
                                   && Truthy(PayloadField(msg, "cols")) && Truthy(PayloadField(msg, "rows"))
    ensures a.CloseTerminal? <==> Field(msg, "type") == Str("terminal:close") && Truthy(PayloadField(msg, "terminalId"))
    // an unknown type, or a message that is not an object, does nothing
    ensures !Field(msg, "type").Str? ==> a == Ignore
  {
    var id := PayloadField(msg, "workflowId");
    var terminalId := PayloadField(msg, "terminalId");
    match Field(msg, "type")
    case Str(t) =>
      if t == "ping" then ReplyPong
      else if t == "workflow:start" then
        var prompt := PayloadField(msg, "prompt");
        if !Truthy(prompt) || !prompt.Str? || IsBlank(prompt.s) then RejectStart
        else Start(prompt.s, OrElse(PayloadField(msg, "projectPath"), defaultProjectPath))
      else if t == "workflow:subscribe" then (if Truthy(id) then Subscribe(id) else Ignore)
      else if t == "workflow:pause" then (if Truthy(id) then Pause(id) else Ignore)
      else if t == "workflow:resume" then (if Truthy(id) then Resume(id) else Ignore)
      else if t == "workflow:cancel" then (if Truthy(id) then Cancel(id) else Ignore)
      else if t == "terminal:create" then CreateTerminal(OrElse(PayloadField(msg, "projectPath"), defaultProjectPath))
      else if t == "terminal:input" then
        var data := PayloadField(msg, "data");
        if Truthy(terminalId) && data != Null && data != Undefined then WriteTerminal(terminalId, data) else Ignore
      else if t == "terminal:resize" then
        var cols := PayloadField(msg, "cols");
        var rows := PayloadField(msg, "rows");
        if Truthy(terminalId) && Truthy(cols) && Truthy(rows) then ResizeTerminal(terminalId, cols, rows) else Ignore
      else if t == "terminal:close" then (if Truthy(terminalId) then CloseTerminal(terminalId) else Ignore)
      else Ignore
    case _ => Ignore
  }

  // ---------------------------------------------------------------------
  // handleClientMessage: the effects
  // ---------------------------------------------------------------------

  /** A call into the terminal manager. */
  datatype PtyCall =
    | Spawn(projectPath: JsValue)
    | Write(terminalId: JsValue, data: JsValue)
    | Resize(terminalId: JsValue, cols: JsValue, rows: JsValue)
    | Kill(terminalId: JsValue)

  /** What `ptyManager.create` did: returned an id, or threw with a message. */
  datatype SpawnOutcome = Spawned(terminalId: string) | SpawnFailed(message: string)

  /**
   * The engine after an action. A workflow id that is not a string is never
   * a key of the engine's maps, so the engine ignores it.
   */
  function EngineAfter(a: Action, s: EngineState, newId: string, dbSteps: seq<AgentStep>): EngineState
    requires a.Start? ==> a.projectPath.Str?
  {
    match a
    case Start(prompt, path) => StartS(s, newId, prompt, path.s, dbSteps)
    case Pause(Str(id)) => ControlS(s, PauseCtl(id))
    case Resume(Str(id)) => ControlS(s, ResumeCtl(id))
    case Cancel(Str(id)) => ControlS(s, CancelCtl(id))
    case _ => s
  }

  /** The registry after an action: the starter follows its new workflow, a subscriber the one it named. */
  function ClientsAfter(a: Action, clientId: string, clients: map<string, Client>, newId: string): map<string, Client>
  {
    match a
    case Start(_, _) => Subscribed(clients, clientId, newId)
    case Subscribe(Str(id)) => Subscribed(clients, clientId, id)
    case _ => clients
  }

  /** `subscribeToWorkflow` on the registry map. */
  function Subscribed(clients: map<string, Client>, clientId: string, workflowId: string): map<string, Client>
  {
    if clientId in clients then
      clients[clientId := Client(clientId, clients[clientId].subscribedWorkflows + {workflowId})]
    else clients
  }

  /** The direct `ws.send` replies to the sending client. */
  function RepliesOf(a: Action, clientId: string): seq<Delivery<Outgoing>>
  {
    match a
    case ReplyPong => [Delivery(clientId, Pong)]
    case RejectStart => [Delivery(clientId, StartFailed(PromptRequired))]
    case _ => []
  }

  /** The terminal manager calls. */
  function PtyCallsOf(a: Action): seq<PtyCall>
  {
    match a
    case CreateTerminal(path) => [Spawn(path)]
    case WriteTerminal(id, data) => [Write(id, data)]
    case ResizeTerminal(id, cols, rows) => [Resize(id, cols, rows)]
    case CloseTerminal(id) => [Kill(id)]
    case _ => []
  }

  /** The terminal messages sent through `sendTo`, which reach only a registered client with an open socket. */
  function TerminalSendsOf(a: Action, clientId: string, spawn: SpawnOutcome, clients: map<string, Client>, open: set<string>): seq<Delivery<Outgoing>>
  {
    var m :=
      match a
      case CreateTerminal(_) =>
        (match spawn
         case Spawned(id) => Some(TerminalCreated(id))
         case SpawnFailed(message) => Some(TerminalError(message)))
      case CloseTerminal(id) => Some(TerminalClosed(id))
      case _ => None;
    if m.Some? && clientId in clients && clientId in open then [Delivery(clientId, m.value)] else []
  }

  class Server {
    const engine: Engine.WorkflowEngine
    const connections: ConnectionManager<Outgoing>
    const defaultProjectPath: string
    /** Messages sent straight on a client's socket, without the manager. */
    var replies: seq<Delivery<Outgoing>>
    var ptyCalls: seq<PtyCall>

    ghost predicate Valid()
      reads this, connections
    {
      connections.Valid()
    }

    /** `setupWebSocketHandlers`. */
    constructor(engine: Engine.WorkflowEngine, connections: ConnectionManager<Outgoing>, defaultProjectPath: string)
      ensures this.engine == engine && this.connections == connections && this.defaultProjectPath == defaultProjectPath
      ensures replies == [] && ptyCalls == []
    {
      this.engine := engine;
      this.connections := connections;
      this.defaultProjectPath := defaultProjectPath;
      replies := [];
      ptyCalls := [];
    }

    /** A new connection is registered. */
    method Connect() returns (clientId: string)
      requires Valid()
      modifies connections
      ensures Valid()
      ensures clientId !in old(connections.clients) && connections.clients == old(connections.clients)[clientId := Client(clientId, {})]
    {
      clientId := connections.AddClient();
    }

    /** A closed connection is removed from the registry. */
    method Disconnect(clientId: string)
      requires Valid()
      modifies connections
      ensures Valid()
      ensures connections.clients == old(connections.clients) - {clientId}
      ensures connections.sent == old(connections.sent)
    {
      connections.RemoveClient(clientId);
    }

    /** The engine listeners: each emitted event goes out as the engine emitted it, in order. */
    method RelayEffects(effects: seq<Effect>, open: set<string>)
      modifies connections
      ensures connections.sent == old(connections.sent) + Relays(effects, connections.order, connections.clients, open)
      ensures connections.clients == old(connections.clients) && connections.order == old(connections.order)
      ensures connections.clientCounter == old(connections.clientCounter)
    {
      var i := 0;
      while i < |effects|
        invariant 0 <= i <= |effects|
        invariant connections.sent == old(connections.sent) + Relays(effects[..i], connections.order, connections.clients, open)
        invariant connections.clients == old(connections.clients) && connections.order == old(connections.order)
        invariant connections.clientCounter == old(connections.clientCounter)
      {
        assert effects[..i + 1][..i] == effects[..i];
        match effects[i] {
          case Emit(e) =>
            if e.WorkflowCreated? {
              connections.BroadcastAll(Relayed(e), open);
            } else {
              connections.BroadcastToWorkflow(e.workflowId, Relayed(e), open);
            }
          case _ =>
        }
        i := i + 1;
      }
      assert effects[..i] == effects;
    }

    /** A pause, resume or cancel request carried to the engine, and the events it causes relayed. */
    method ForwardControl(c: Control, open: set<string>)
      modifies engine, connections
      ensures engine.State() == ControlS(old(engine.State()), c)
      ensures |old(engine.log)| <= |engine.log|
      ensures connections.sent == old(connections.sent)
                                  + Relays(engine.log[|old(engine.log)|..], old(connections.order), old(connections.clients), open)
      ensures connections.clients == old(connections.clients) && connections.order == old(connections.order)
      ensures connections.clientCounter == old(connections.clientCounter)
    {
      var mark := |engine.log|;
      match c {
        case PauseCtl(id) => engine.PauseWorkflow(id);
        case ResumeCtl(id) => engine.ResumeWorkflow(id);
        case CancelCtl(id) => engine.CancelWorkflow(id);
      }
      RelayEffects(engine.log[mark..], open);
    }

    /**
     * `workflow:start` past its guard: the workflow is started, its
     * `workflow:created` goes out, and then the starting client follows it.
     */
    method StartRequest(clientId: string, prompt: string, projectPath: string, newId: string, dbSteps: seq<AgentStep>, open: set<string>)
      requires Valid()
      modifies engine, connections
      ensures Valid()
      ensures engine.State() == StartS(old(engine.State()), newId, prompt, projectPath, dbSteps)
      ensures |old(engine.log)| <= |engine.log|
      ensures connections.sent == old(connections.sent)
                                  + Relays(engine.log[|old(engine.log)|..], old(connections.order), old(connections.clients), open)
      ensures connections.clients == Subscribed(old(connections.clients), clientId, newId)
      ensures connections.order == old(connections.order) && connections.clientCounter == old(connections.clientCounter)
    {
      var mark := |engine.log|;
      var workflowId := engine.StartWorkflow(newId, prompt, projectPath, dbSteps);
      RelayEffects(engine.log[mark..], open);
      connections.SubscribeToWorkflow(clientId, workflowId);
    }

    /** The terminal cases, and the replies sent straight on the socket. */
    method LocalRequest(clientId: string, a: Action, spawn: SpawnOutcome, open: set<string>)
      modifies this, connections
      ensures replies == old(replies) + RepliesOf(a, clientId)
      ensures ptyCalls == old(ptyCalls) + PtyCallsOf(a)
      ensures connections.sent == old(connections.sent) + TerminalSendsOf(a, clientId, spawn, old(connections.clients), open)
      ensures connections.clients == old(connections.clients) && connections.order == old(connections.order)
      ensures connections.clientCounter == old(connections.clientCounter)
    {
      match a {
        case ReplyPong =>
          replies := replies + [Delivery(clientId, Pong)];
        case RejectStart =>
          replies := replies + [Delivery(clientId, StartFailed(PromptRequired))];
        case CreateTerminal(path) =>
          ptyCalls := ptyCalls + [Spawn(path)];
          match spawn {
            case Spawned(terminalId) =>
              connections.SendTo(clientId, TerminalCreated(terminalId), open);
            case SpawnFailed(message) =>
              connections.SendTo(clientId, TerminalError(message), open);
          }
        case WriteTerminal(terminalId, data) =>
          ptyCalls := ptyCalls + [Write(terminalId, data)];
        case ResizeTerminal(terminalId, cols, rows) =>
          ptyCalls := ptyCalls + [Resize(terminalId, cols, rows)];
        case CloseTerminal(terminalId) =>
          ptyCalls := ptyCalls + [Kill(terminalId)];
          connections.SendTo(clientId, TerminalClosed(terminalId), open);
        case _ =>
      }
    }

    /**
     * `handleClientMessage` for a message from `clientId`, with the new
     * workflow's id and step rows, the terminal outcome, and the open
     * sockets handed in. Engine events caused by the request are relayed
     * as they are emitted.
     */
    method HandleClientMessage(clientId: string, msg: JsValue, newId: string, dbSteps: seq<AgentStep>, spawn: SpawnOutcome, open: set<string>)
      requires Valid()
      requires Decide(msg, defaultProjectPath).Start? ==> Decide(msg, defaultProjectPath).projectPath.Str?
      modifies this, engine, connections
      ensures Valid()
      ensures engine.State() == EngineAfter(Decide(msg, defaultProjectPath), old(engine.State()), newId, dbSteps)
      ensures replies == old(replies) + RepliesOf(Decide(msg, defaultProjectPath), clientId)
      ensures ptyCalls == old(ptyCalls) + PtyCallsOf(Decide(msg, defaultProjectPath))
      ensures connections.clients == ClientsAfter(Decide(msg, defaultProjectPath), clientId, old(connections.clients), newId)
      ensures |old(engine.log)| <= |engine.log|
      ensures connections.sent == old(connections.sent)
                                  + Relays(engine.log[|old(engine.log)|..], old(connections.order), old(connections.clients), open)
                                  + TerminalSendsOf(Decide(msg, defaultProjectPath), clientId, spawn, old(connections.clients), open)
      ensures connections.order == old(connections.order) && connections.clientCounter == old(connections.clientCounter)
    {
      var a := Decide(msg, defaultProjectPath);
      match a {
        case Start(prompt, path) =>
          StartRequest(clientId, prompt, path.s, newId, dbSteps, open);
        case Subscribe(id) =>
          if id.Str? {
            connections.SubscribeToWorkflow(clientId, id.s);
          }
        case Pause(id) =>
          if id.Str? {
            ForwardControl(PauseCtl(id.s), open);
          }
        case Resume(id) =>
          if id.Str? {
            ForwardControl(ResumeCtl(id.s), open);
          }
        case Cancel(id) =>
          if id.Str? {
            ForwardControl(CancelCtl(id.s), open);
          }
        case _ =>
          LocalRequest(clientId, a, spawn, open);
      }
    }
  }
}
