/**
 * The top bar (src/components/layout/TopNav.tsx): the workflow's status
 * badge, the count of completed agents and the elapsed time. Times are
 * whole milliseconds; `Date.now()` is the parameter `now`.
 */
module TopNav {
  import opened Optional
  import opened Strings
  import opened Types
  import opened AgentStore
  import opened WorkflowStore
  import HistoryTable
  import AgentCard

  /** `formatDuration` of the bar. */
  function FormatDuration(ms: int): string
  {
    var s := ms / 1000;
    var m := s / 60;
    if m > 0 then IntToString(m) + "m " + IntToString(s % 60) + "s" else IntToString(s) + "s"
  }

  /**
   * The three `formatDuration`s agree: the bar's and the history table's on
   * every duration, and the card's on every duration it is given.
   */
  lemma DurationFormattersAgree(ms: int)
    ensures FormatDuration(ms) == HistoryTable.FormatDuration(ms)
    ensures FormatDuration(ms) == AgentCard.FormatDuration(Some(ms))
    ensures FormatDuration(ms) == AgentCard.SecondsDisplay(ms / 1000)
  {
    var s := ms / 1000;
    assert s / 60 > 0 <==> s >= 60;
  }

  /** The roles of `roles` whose agent has completed. */
  function CompletedRoles(agents: Agents, roles: seq<AgentRole>): (r: seq<AgentRole>)
    requires Complete(agents)
    ensures |r| <= |roles|
    ensures forall x :: x in r <==> x in roles && agents[x].status == StepCompleted
  {
    if roles == [] then []
    else (if agents[roles[0]].status == StepCompleted then [roles[0]] else []) + CompletedRoles(agents, roles[1..])
  }

  /** `completedCount`. */
  function CompletedCount(agents: Agents): (n: nat)
    requires Complete(agents)
    ensures n <= |AgentOrder|
  {
    |CompletedRoles(agents, AgentOrder)|
  }

  /** The count is between 0 and 5, and is 5 exactly when every agent has completed. */
  lemma CompletedCountBounds(agents: Agents)
    requires Complete(agents)
    ensures CompletedCount(agents) <= 5
    ensures CompletedCount(agents) == 5 <==> forall r: AgentRole :: agents[r].status == StepCompleted
    ensures CompletedCount(agents) == 0 <==> forall r: AgentRole :: agents[r].status != StepCompleted
  {
    AgentOrderIsEnumeration();
    CompletedAllIff(agents, AgentOrder);
    var c := CompletedRoles(agents, AgentOrder);
    if forall i :: 0 <= i < |AgentOrder| ==> agents[AgentOrder[i]].status == StepCompleted {
      forall r: AgentRole ensures agents[r].status == StepCompleted {
        assert AgentOrder[IndexOf(r)] == r;
      }
    }
    if |c| == 0 {
      forall r: AgentRole ensures agents[r].status != StepCompleted {
        assert r !in c;
      }
    } else {
      assert c[0] in c;
    }
  }

  /** Every role of a list of distinct roles is counted exactly when the count is the list's length. */
  lemma {:induction false} CompletedAllIff(agents: Agents, roles: seq<AgentRole>)
    requires Complete(agents)
    ensures |CompletedRoles(agents, roles)| == |roles| <==> forall i :: 0 <= i < |roles| ==> agents[roles[i]].status == StepCompleted
  {
    if roles != [] {
      CompletedAllIff(agents, roles[1..]);
      assert forall i :: 1 <= i < |roles| ==> roles[i] == roles[1..][i - 1];
      if |CompletedRoles(agents, roles)| == |roles| {
        assert agents[roles[0]].status == StepCompleted;
      }
    }
  }

  /** What the right-hand side of the bar shows. */
  datatype StatusArea =
    | Hidden
    | Shown(badge: string, agentsText: string, elapsed: ElapsedView)

  /** The elapsed-time part. */
  datatype ElapsedView = NoElapsed | LiveElapsed(text: string) | FixedElapsed(text: string)

  /** The right-hand side for a workflow and the agent records. */
  function StatusAreaOf(w: WorkflowView, agents: Agents, now: int): (v: StatusArea)
    requires Complete(agents)
    ensures v.Hidden? <==> w.status == Pending
    ensures v.Shown? ==> v.badge == UpperAscii(StatusName(w.status))
    ensures v.Shown? ==> v.agentsText == NatToString(CompletedCount(agents)) + "/5 agents"
    ensures v.Shown? ==> (v.elapsed.NoElapsed? <==> w.startedAt.None? || w.startedAt.value == 0)
    ensures v.Shown? && v.elapsed.LiveElapsed? ==> (w.status == Running || w.status == Paused)
                                                   && v.elapsed.text == FormatDuration(now - w.startedAt.value)
    ensures v.Shown? && v.elapsed.FixedElapsed? ==>
              && w.status != Running && w.status != Paused
              && v.elapsed.text == FormatDuration((if w.completedAt.Some? then w.completedAt.value else now) - w.startedAt.value)
  {
    if w.status == Pending then Hidden
    else
      var elapsed :=
        if w.startedAt.None? || w.startedAt.value == 0 then NoElapsed
        else if w.status == Running || w.status == Paused then LiveElapsed(FormatDuration(now - w.startedAt.value))
        else FixedElapsed(FormatDuration((if w.completedAt.Some? then w.completedAt.value else now) - w.startedAt.value));
      Shown(UpperAscii(StatusName(w.status)), NatToString(CompletedCount(agents)) + "/" + NatToString(|AgentOrder|) + " agents", elapsed)
  }

  /** A finished workflow shows the fixed time from start to completion, whatever the clock says. */
  lemma FinishedElapsedIsFixed(w: WorkflowView, agents: Agents, now: int, later: int)
    requires Complete(agents)
    requires IsTerminal(w.status) && w.startedAt.Some? && w.startedAt.value != 0 && w.completedAt.Some?
    ensures StatusAreaOf(w, agents, now).elapsed == FixedElapsed(FormatDuration(w.completedAt.value - w.startedAt.value))
    ensures StatusAreaOf(w, agents, later).elapsed == StatusAreaOf(w, agents, now).elapsed
  {
    var a := StatusAreaOf(w, agents, now);
    var b := StatusAreaOf(w, agents, later);
    assert a.Shown? && b.Shown?;
    assert !a.elapsed.NoElapsed? && !a.elapsed.LiveElapsed?;
    assert !b.elapsed.NoElapsed? && !b.elapsed.LiveElapsed?;
  }
}
