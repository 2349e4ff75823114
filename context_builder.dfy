/**
 * The user-turn prompt handed to one agent (src/lib/workflow/context-builder.ts):
 * project path, user request, the outputs of earlier agents, the agent's own
 * role and the agents that follow it in AGENT_ORDER.
 */
module ContextBuilder {
  import opened Strings
  import opened Types

  /** `AgentContext`: the output of an earlier agent. */
  datatype AgentContext = AgentContext(role: AgentRole, output: string)

  const Arrow := " \U{2192} "

  function PathPart(projectPath: string): string
  {
    "# Project Path\n" + projectPath + "\n"
  }

  function RequestPart(userPrompt: string): string
  {
    "# User Request\n" + userPrompt + "\n"
  }

  const PreviousHeader := "# Previous Agent Outputs\n"

  function OutputSection(ctx: AgentContext): string
  {
    "## " + Label(ctx.role) + " Agent Output\n" + ctx.output + "\n"
  }

  /** One section per earlier output, in input order. */
  function OutputSections(previous: seq<AgentContext>): (parts: seq<string>)
    ensures |parts| == |previous|
    ensures forall k :: 0 <= k < |previous| ==> parts[k] == OutputSection(previous[k])
  {
    if previous == [] then [] else [OutputSection(previous[0])] + OutputSections(previous[1..])
  }

  /** The labels of a list of roles, in order. */
  function Labels(roles: seq<AgentRole>): (ls: seq<string>)
    ensures |ls| == |roles|
    ensures forall k :: 0 <= k < |roles| ==> ls[k] == Label(roles[k])
  {
    if roles == [] then [] else [Label(roles[0])] + Labels(roles[1..])
  }

  /** `AGENT_ORDER.slice(indexOf(role) + 1)`: the roles after this one in the fixed order. */
  function RemainingAgents(role: AgentRole): seq<AgentRole>
  {
    AgentOrder[IndexOf(role) + 1..]
  }

  function RolePart(role: AgentRole): string
  {
    "# Your Role: " + Label(role) + " Agent"
  }

  const FinalAgentLine := "You are the final agent in the pipeline."

  function FollowOnPart(role: AgentRole): string
  {
    var remaining := Labels(RemainingAgents(role));
    if |remaining| > 0 then "After you complete your work, the following agents will run: " + Join(remaining, Arrow)
    else FinalAgentLine
  }

  /** The `parts` array, in push order. */
  function Parts(role: AgentRole, userPrompt: string, previous: seq<AgentContext>, projectPath: string): seq<string>
  {
    [PathPart(projectPath), RequestPart(userPrompt)]
    + (if |previous| > 0 then [PreviousHeader] + OutputSections(previous) else [])
    + [RolePart(role), FollowOnPart(role)]
  }

  /** `buildAgentPrompt(role, userPrompt, previousOutputs, projectPath)`. */
  function BuildAgentPrompt(role: AgentRole, userPrompt: string, previous: seq<AgentContext>, projectPath: string): string
  {
    Join(Parts(role, userPrompt, previous, projectPath), "\n\n")
  }

  /**
   * The layout of the parts: path, then request; the previous-outputs header
   * and one section per earlier output, in input order, exactly when there
   * are earlier outputs; the role line and the follow-on line always last.
   */
  lemma PartsLayout(role: AgentRole, userPrompt: string, previous: seq<AgentContext>, projectPath: string)
    ensures var parts := Parts(role, userPrompt, previous, projectPath);
      var n := if |previous| > 0 then |previous| + 1 else 0;
      && |parts| == 4 + n
      && parts[0] == PathPart(projectPath) && parts[1] == RequestPart(userPrompt)
      && (|previous| > 0 ==> parts[2] == PreviousHeader)
      && (forall k :: 0 <= k < |previous| ==> parts[3 + k] == OutputSection(previous[k]))
      && parts[2 + n] == RolePart(role) && parts[3 + n] == FollowOnPart(role)
  {
  }

  /** None of the four fixed parts is the previous-outputs header. */
  lemma FixedPartsAreNotHeader(role: AgentRole, userPrompt: string, projectPath: string)
    ensures PathPart(projectPath) != PreviousHeader && RequestPart(userPrompt) != PreviousHeader
    ensures RolePart(role) != PreviousHeader && FollowOnPart(role) != PreviousHeader
  {
    HeadsDiffer("# Project Path\n", projectPath + "\n", 4);
    HeadsDiffer("# User Request\n", userPrompt + "\n", 2);
    HeadsDiffer("# Your Role: ", Label(role) + " Agent", 2);
    FollowOnNotHeader(role);
  }

  /** The previous-outputs header is among the parts iff there are earlier outputs. */
  lemma PreviousHeaderIffOutputs(role: AgentRole, userPrompt: string, previous: seq<AgentContext>, projectPath: string)
    ensures PreviousHeader in Parts(role, userPrompt, previous, projectPath) <==> |previous| > 0
  {
    var parts := Parts(role, userPrompt, previous, projectPath);
    if |previous| > 0 {
      PartsLayout(role, userPrompt, previous, projectPath);
      assert parts[2] == PreviousHeader;
    } else {
      FixedPartsAreNotHeader(role, userPrompt, projectPath);
      var fixed := [PathPart(projectPath), RequestPart(userPrompt), RolePart(role), FollowOnPart(role)];
      assert parts == fixed;
      assert forall k :: 0 <= k < 4 ==> fixed[k] != PreviousHeader;
    }
  }

  /** A part starting with `head` is not the previous-outputs header when they differ at position i. */
  lemma HeadsDiffer(head: string, rest: string, i: nat)
    requires i < |head| && i < |PreviousHeader| && head[i] != PreviousHeader[i]
    ensures head + rest != PreviousHeader
  {
    assert (head + rest)[i] == head[i];
  }

  /** The follow-on line is longer than the previous-outputs header, so never equal to it. */
  lemma FollowOnNotHeader(role: AgentRole)
    ensures |FollowOnPart(role)| > |PreviousHeader|
  {
    var remaining := Labels(RemainingAgents(role));
    var lead := "After you complete your work, the following agents will run: ";
    assert |lead| > 30 && |FinalAgentLine| > 30 && |PreviousHeader| == 25;
    if |remaining| > 0 {
      assert FollowOnPart(role) == lead + Join(remaining, Arrow);
    }
  }

  /** The prompt text starts with the path part and the request part, separated by a blank line. */
  lemma {:induction false} PromptStartsWithPathAndRequest(role: AgentRole, userPrompt: string, previous: seq<AgentContext>, projectPath: string)
    ensures StartsWith(BuildAgentPrompt(role, userPrompt, previous, projectPath),
                       PathPart(projectPath) + "\n\n" + RequestPart(userPrompt) + "\n\n")
  {
    var parts := Parts(role, userPrompt, previous, projectPath);
    var head := [PathPart(projectPath), RequestPart(userPrompt)];
    var tail := parts[2..];
    assert parts == head + tail;
    JoinAppend(head, tail, "\n\n");
    assert Join(head, "\n\n") == PathPart(projectPath) + "\n\n" + RequestPart(userPrompt) by {
      assert head[1..] == [RequestPart(userPrompt)];
    }
    var p := PathPart(projectPath) + "\n\n" + RequestPart(userPrompt) + "\n\n";
    assert Join(parts, "\n\n") == p + Join(tail, "\n\n");
    assert (p + Join(tail, "\n\n"))[..|p|] == p;
  }

  /**
   * The follow-on list names the roles after this one in AGENT_ORDER, not
   * by stage: RD's list starts with its parallel peer UI, and SEC is told it
   * is the final agent.
   */
  lemma RemainingAgentsAreLater(role: AgentRole)
    ensures forall q :: q in RemainingAgents(role) <==> IndexOf(q) > IndexOf(role)
  {
    forall q | IndexOf(q) > IndexOf(role)
      ensures q in RemainingAgents(role)
    {
      assert RemainingAgents(role)[IndexOf(q) - IndexOf(role) - 1] == q;
    }
    forall q | q in RemainingAgents(role)
      ensures IndexOf(q) > IndexOf(role)
    {
      var k :| 0 <= k < |RemainingAgents(role)| && RemainingAgents(role)[k] == q;
      assert AgentOrder[IndexOf(role) + 1 + k] == q;
    }
  }

  /** RD's list starts with its parallel peer UI; SEC is told it is the final agent; everyone else gets the list. */
  lemma FollowOnExamples(role: AgentRole)
    ensures FollowOnPart(Rd) == "After you complete your work, the following agents will run: UI" + Arrow + "TEST" + Arrow + "SEC"
    ensures FollowOnPart(Sec) == FinalAgentLine
    ensures role != Sec ==> StartsWith(FollowOnPart(role), "After you complete your work, the following agents will run: ")
  {
    var lead := "After you complete your work, the following agents will run: ";
    assert Labels(RemainingAgents(Rd)) == ["UI", "TEST", "SEC"];
    assert Join(["UI", "TEST", "SEC"], Arrow) == "UI" + Arrow + "TEST" + Arrow + "SEC";
    assert Labels(RemainingAgents(Sec)) == [];
    if role != Sec {
      assert |Labels(RemainingAgents(role))| > 0;
      StartsWithAppend(lead, Join(Labels(RemainingAgents(role)), Arrow));
    }
  }
}
