/**
 * The persisted layout store (src/stores/uiStore.ts): two panel heights and
 * the visibility of the two bottom panels. At least one bottom panel is
 * always visible: an action that would hide the last one shows both.
 */
module UiStore {
  datatype UiState = UiState(
    agentPanelHeight: int,
    bottomPanelHeight: int,
    terminalVisible: bool,
    eventLogVisible: bool)

  const DefaultUi := UiState(400, 300, true, true)

  /** At least one bottom panel is on screen. */
  predicate SomePanelVisible(s: UiState)
  {
    s.terminalVisible || s.eventLogVisible
  }

  /** `setAgentPanelHeight`: the height as given, without clamping. */
  function SetAgentPanelHeight(s: UiState, height: int): (r: UiState)
    ensures r.agentPanelHeight == height && r.(agentPanelHeight := s.agentPanelHeight) == s
  {
    s.(agentPanelHeight := height)
  }

  /** `setBottomPanelHeight`: the height as given, without clamping. */
  function SetBottomPanelHeight(s: UiState, height: int): (r: UiState)
    ensures r.bottomPanelHeight == height && r.(bottomPanelHeight := s.bottomPanelHeight) == s
  {
    s.(bottomPanelHeight := height)
  }

  /** The shared rule: store the requested visibility unless both panels would then be hidden. */
  function Show(s: UiState, terminal: bool, eventLog: bool): (r: UiState)
    ensures SomePanelVisible(r)
    ensures terminal || eventLog ==> r.terminalVisible == terminal && r.eventLogVisible == eventLog
    ensures !terminal && !eventLog ==> r.terminalVisible && r.eventLogVisible
    ensures r.agentPanelHeight == s.agentPanelHeight && r.bottomPanelHeight == s.bottomPanelHeight
  {
    if !terminal && !eventLog then s.(terminalVisible := true, eventLogVisible := true)
    else s.(terminalVisible := terminal, eventLogVisible := eventLog)
  }

  /** `toggleTerminal`. */
  function ToggleTerminal(s: UiState): (r: UiState)
    ensures SomePanelVisible(r)
    ensures !(s.terminalVisible && !s.eventLogVisible) ==> r == s.(terminalVisible := !s.terminalVisible)
    ensures s.terminalVisible && !s.eventLogVisible ==> r == s.(terminalVisible := true, eventLogVisible := true)
  {
    var next := !s.terminalVisible;
    if !next && !s.eventLogVisible then s.(terminalVisible := true, eventLogVisible := true)
    else s.(terminalVisible := next)
  }

  /** `toggleEventLog`. */
  function ToggleEventLog(s: UiState): (r: UiState)
    ensures SomePanelVisible(r)
    ensures !(s.eventLogVisible && !s.terminalVisible) ==> r == s.(eventLogVisible := !s.eventLogVisible)
    ensures s.eventLogVisible && !s.terminalVisible ==> r == s.(terminalVisible := true, eventLogVisible := true)
  {
    var next := !s.eventLogVisible;
    if !next && !s.terminalVisible then s.(terminalVisible := true, eventLogVisible := true)
    else s.(eventLogVisible := next)
  }

  /** `setTerminalVisible`. */
  function SetTerminalVisible(s: UiState, visible: bool): (r: UiState)
    ensures SomePanelVisible(r)
    ensures visible || s.eventLogVisible ==> r == s.(terminalVisible := visible)
    ensures !visible && !s.eventLogVisible ==> r == s.(terminalVisible := true, eventLogVisible := true)
  {
    if !visible && !s.eventLogVisible then s.(terminalVisible := true, eventLogVisible := true)
    else s.(terminalVisible := visible)
  }

  /** `setEventLogVisible`. */
  function SetEventLogVisible(s: UiState, visible: bool): (r: UiState)
    ensures SomePanelVisible(r)
    ensures visible || s.terminalVisible ==> r == s.(eventLogVisible := visible)
    ensures !visible && !s.terminalVisible ==> r == s.(terminalVisible := true, eventLogVisible := true)
  {
    if !visible && !s.terminalVisible then s.(terminalVisible := true, eventLogVisible := true)
    else s.(eventLogVisible := visible)
  }

  /** Each visibility action is the shared rule applied to the pair of flags it asks for. */
  lemma ActionsFollowShow(s: UiState, visible: bool)
    ensures ToggleTerminal(s) == Show(s, !s.terminalVisible, s.eventLogVisible)
    ensures ToggleEventLog(s) == Show(s, s.terminalVisible, !s.eventLogVisible)
    ensures SetTerminalVisible(s, visible) == Show(s, visible, s.eventLogVisible)
    ensures SetEventLogVisible(s, visible) == Show(s, s.terminalVisible, visible)
  {
  }

  /** An action of the layout store. */
  datatype UiAction =
    | AgentHeight(height: int)
    | BottomHeight(height: int)
    | ToggleTerminalPanel
    | ToggleEventLogPanel
    | TerminalShown(visible: bool)
    | EventLogShown(visible: bool)

  function ApplyUi(s: UiState, a: UiAction): UiState
  {
    match a
    case AgentHeight(h) => SetAgentPanelHeight(s, h)
    case BottomHeight(h) => SetBottomPanelHeight(s, h)
    case ToggleTerminalPanel => ToggleTerminal(s)
    case ToggleEventLogPanel => ToggleEventLog(s)
    case TerminalShown(v) => SetTerminalVisible(s, v)
    case EventLogShown(v) => SetEventLogVisible(s, v)
  }

  function ApplyAll(s: UiState, actions: seq<UiAction>): UiState
    decreases |actions|
  {
    if actions == [] then s else ApplyAll(ApplyUi(s, actions[0]), actions[1..])
  }

  /** From any state with a visible panel, the defaults among them, no sequence of actions ever hides both bottom panels. */
  lemma {:induction false} NeverBothHidden(s: UiState, actions: seq<UiAction>)
    requires SomePanelVisible(s)
    ensures SomePanelVisible(ApplyAll(s, actions))
    decreases |actions|
  {
    if actions != [] {
      NeverBothHidden(ApplyUi(s, actions[0]), actions[1..]);
    }
  }

  /** The defaults show both panels. */
  lemma DefaultsShowBoth()
    ensures DefaultUi.agentPanelHeight == 400 && DefaultUi.bottomPanelHeight == 300
    ensures DefaultUi.terminalVisible && DefaultUi.eventLogVisible && SomePanelVisible(DefaultUi)
  {
  }
}
