/**
 * One agent's card (src/components/agent/AgentCard.tsx): the duration or
 * live timer in its header and the retry badge. Times are whole
 * milliseconds; `Date.now()` is the parameter `now`.
 */
module AgentCard {
  import opened Optional
  import opened Strings
  import opened Types
  import opened AgentStore

  /** The "<s>s" or "<m>m <s mod 60>s" rule both the duration and the live timer use, on whole seconds. */
  function SecondsDisplay(s: int): (r: string)
  {
    if s < 60 then IntToString(s) + "s" else IntToString(s / 60) + "m " + IntToString(s % 60) + "s"
  }

  /** `formatDuration` of the card: empty without a duration. */
  function FormatDuration(ms: Option<int>): (r: string)
    ensures ms.None? <==> r == ""
    ensures ms.Some? ==> r == SecondsDisplay(ms.value / 1000)
  {
    match ms
    case None => ""
    case Some(v) =>
      var r := SecondsDisplay(v / 1000);
      assert r[|r| - 1] == 's';
      r
  }

  /** `LiveTimer`: nothing without a (truthy) start time, else the elapsed whole seconds. */
  function LiveTimer(startedAt: Option<int>, now: int): (r: Option<string>)
    ensures r.None? <==> startedAt.None? || startedAt.value == 0
    ensures r.Some? ==> r.value == SecondsDisplay((now - startedAt.value) / 1000)
  {
    match startedAt
    case None => None
    case Some(t) => if t == 0 then None else Some(SecondsDisplay((now - t) / 1000))
  }

  /** What the header shows beside the status badge. */
  datatype TimeView = Live(timer: Option<string>) | Duration(shown: string) | NoTime

  /** A running agent gets the live timer; any other agent its duration, when it has one. */
  function HeaderTime(agent: AgentView, now: int): (v: TimeView)
    ensures v.Live? <==> agent.status == StepRunning
    ensures v.Duration? <==> agent.status != StepRunning && agent.durationMs.Some?
    ensures v.Live? ==> v.timer == LiveTimer(agent.startedAt, now)
    ensures v.Duration? ==> v.shown == FormatDuration(agent.durationMs)
  {
    if agent.status == StepRunning then Live(LiveTimer(agent.startedAt, now))
    else if agent.durationMs.Some? then Duration(FormatDuration(agent.durationMs))
    else NoTime
  }

  /** The retry badge, "retry <n>", shown exactly when the retry count is positive. */
  function RetryBadge(retryCount: int): (r: Option<string>)
    ensures r.Some? <==> retryCount > 0
    ensures r.Some? ==> r.value == "retry " + IntToString(retryCount)
  {
    if retryCount > 0 then Some("retry " + IntToString(retryCount)) else None
  }

  /** Under a minute the display is the seconds alone; from a minute on, minutes and the remaining seconds. */
  lemma SecondsDisplayParts(s: int)
    ensures s < 60 ==> SecondsDisplay(s) == IntToString(s) + "s"
    ensures s >= 60 ==> SecondsDisplay(s) == IntToString(s / 60) + "m " + IntToString(s % 60) + "s"
                        && s / 60 >= 1 && 0 <= s % 60 < 60 && s == 60 * (s / 60) + s % 60
  {
  }

  /** A restarted agent keeps its badge: the badge survives `step:started`. */
  lemma BadgeSurvivesRestart(agents: Agents, role: AgentRole, now: int)
    requires Complete(agents)
    ensures RetryBadge(SetAgentStarted(agents, role, now)[role].retryCount) == RetryBadge(agents[role].retryCount)
  {
  }
}
