/**
 * The system prompt of one agent (src/lib/agents/prompts.ts): the role's
 * template followed by the operational context — project path, pipeline
 * position, tool permissions, timeout, expected output and language rule —
 * joined with newlines.
 *
 * The template file read, the built-in default prompts and the fixed prose
 * blocks are opaque text handed in by the caller; the stage table is a
 * parameter (see module Stages).
 */
module Prompts {
  import opened Optional
  import opened Strings
  import opened Types
  import opened Stages
  import opened ContextBuilder

  /** The per-role prose blocks and the fixed language rule, as uninterpreted text. */
  datatype Prose = Prose(
    defaultPrompt: AgentRole -> string,
    toolDescription: AgentRole -> string,
    outputStructure: AgentRole -> string,
    languageRule: string)

  /** `loadPromptTemplate(role)`: the file's text when it can be read (`read` is Some), else the built-in default. */
  function LoadPromptTemplate(role: AgentRole, read: Option<string>, prose: Prose): (t: string)
    ensures read.Some? ==> t == read.value
    ensures read.None? ==> t == prose.defaultPrompt(role)
  {
    match read
    case Some(text) => text
    case None => prose.defaultPrompt(role)
  }

  const FirstStageRest := "(first stage). There is no prior context."
  const FirstStageSentence := "You are in Stage 1 of 3 " + FirstStageRest

  /** The pipeline-position sentence: a fixed one for the first stage, "Stage i+1 of N" for the others. */
  function PositionSentence(table: StageTable, role: AgentRole): string
    requires ValidStages(table)
  {
    var i := StageOf(table, role);
    if i == 0 then FirstStageSentence
    else "You are in Stage " + NatToString(i + 1) + " of " + NatToString(|table|) + "."
  }

  /** The other roles of a stage, in stage order. */
  function Without(roles: seq<AgentRole>, role: AgentRole): (rs: seq<AgentRole>)
    ensures forall q :: q in rs <==> q in roles && q != role
  {
    if roles == [] then []
    else (if roles[0] != role then [roles[0]] else []) + Without(roles[1..], role)
  }

  /** The roles running in parallel with `role`. */
  function Peers(table: StageTable, role: AgentRole): seq<AgentRole>
    requires ValidStages(table)
  {
    Without(table[StageOf(table, role)], role)
  }

  /** Roles of strictly earlier stages, in stage order. */
  function Upstream(table: StageTable, role: AgentRole): seq<AgentRole>
    requires ValidStages(table)
  {
    RolesOf(table, 0, StageOf(table, role))
  }

  /** Roles of strictly later stages, in stage order. */
  function Downstream(table: StageTable, role: AgentRole): seq<AgentRole>
    requires ValidStages(table)
  {
    RolesOf(table, StageOf(table, role) + 1, |table|)
  }

  const FinalStageLine := "You are in the FINAL stage of the pipeline."

  /** The position sentence and the optional parallel, prior and later lines. */
  function PositionLines(table: StageTable, role: AgentRole): seq<string>
    requires ValidStages(table)
  {
    var peers := Labels(Peers(table, role));
    var up := Labels(Upstream(table, role));
    var down := Labels(Downstream(table, role));
    [PositionSentence(table, role)]
    + (if |peers| > 0 then ["Running IN PARALLEL with: " + Join(peers, ", ")] else [])
    + (if |up| > 0 then ["Agents that ran before you (prior stages): " + Join(up, ", ")] else [])
    + (if |down| > 0 then ["Agents that will run after this stage: " + Join(down, ", ")] else [FinalStageLine])
  }

  /** The template, a horizontal rule between blank lines, and the operational-context heading. */
  function Header(template: string): seq<string>
  {
    [template, "", "---", "", "# Operational Context"]
  }

  function ToolsLine(role: AgentRole): string
  {
    "You have access to: " + Join(Config(role).tools, ", ")
  }

  function TimeoutLine(role: AgentRole): string
  {
    "You have " + NatToString(Config(role).timeoutMs / 1000) + " seconds to complete your work."
  }

  /** The `sections` array. */
  function Sections(table: StageTable, role: AgentRole, projectPath: string, template: string, prose: Prose): seq<string>
    requires ValidStages(table)
  {
    Header(template)
    + ["", "## Project Path", projectPath, "", "## Pipeline Position"]
    + PositionLines(table, role)
    + ["", "## Tool Permissions", prose.toolDescription(role),
       "", "## Available Tools", ToolsLine(role),
       "", "## Timeout", TimeoutLine(role),
       "", "## Expected Output Structure", prose.outputStructure(role),
       "", "## Output Language", prose.languageRule]
  }

  /** `getSystemPrompt(role, projectPath)`, with the template already loaded. */
  function SystemPrompt(table: StageTable, role: AgentRole, projectPath: string, template: string, prose: Prose): string
    requires ValidStages(table)
  {
    Join(Sections(table, role, projectPath, template, prose), "\n")
  }

  /** Five parts joined: each separator sits between two neighbours. */
  lemma JoinFive(a: string, b: string, c: string, d: string, e: string, sep: string)
    ensures Join([a, b, c, d, e], sep) == a + sep + (b + sep + (c + sep + (d + sep + e)))
  {
    JoinCons(d, [e], sep);
    assert [d] + [e] == [d, e];
    JoinCons(c, [d, e], sep);
    assert [c] + [d, e] == [c, d, e];
    JoinCons(b, [c, d, e], sep);
    assert [b] + [c, d, e] == [b, c, d, e];
    JoinCons(a, [b, c, d, e], sep);
    assert [a] + [b, c, d, e] == [a, b, c, d, e];
  }

  /** The header lines joined: the template, a blank line, a rule, a blank line and the heading. */
  lemma HeaderText(template: string)
    ensures Join(Header(template), "\n") == template + "\n\n---\n\n# Operational Context"
  {
    var o := "# Operational Context";
    JoinFive(template, "", "---", "", o, "\n");
    assert "\n" + ("" + "\n" + ("---" + "\n" + ("" + "\n" + o))) == "\n\n---\n\n# Operational Context";
  }

  /** The prompt begins with the template, a rule line and the operational-context heading. */
  lemma SystemPromptStartsWithTemplate(table: StageTable, role: AgentRole, projectPath: string, template: string, prose: Prose)
    requires ValidStages(table)
    ensures StartsWith(SystemPrompt(table, role, projectPath, template, prose),
                       template + "\n\n---\n\n# Operational Context\n")
  {
    var sections := Sections(table, role, projectPath, template, prose);
    var tail := sections[5..];
    assert sections == Header(template) + tail;
    JoinAppend(Header(template), tail, "\n");
    HeaderText(template);
    StartsWithAppend(template + "\n\n---\n\n# Operational Context\n", Join(tail, "\n"));
  }

  /** "You are in Stage <n> of <count>": the opening both forms of the position sentence share. */
  function StageOpening(n: nat, count: nat): string
  {
    "You are in Stage " + NatToString(n) + " of " + NatToString(count)
  }

  /**
   * With three stages, every role's sentence opens with its own stage number
   * and the stage count, and the count ends there (a space or the final
   * full stop follows): the fixed first-stage sentence agrees with the
   * general form.
   */
  lemma PositionSentenceThreeStages(table: StageTable, role: AgentRole)
    requires ValidStages(table) && |table| == 3
    ensures var o := StageOpening(StageOf(table, role) + 1, 3);
            PositionSentence(table, role) == o + "." || StartsWith(PositionSentence(table, role), o + " ")
  {
    if StageOf(table, role) == 0 {
      OpeningOneOfThree();
      StartsWithAppend(StageOpening(1, 3) + " ", FirstStageRest);
    }
  }

  /** The fixed first-stage sentence opens with "You are in Stage 1 of 3". */
  lemma OpeningOneOfThree()
    ensures StageOpening(1, 3) == "You are in Stage 1 of 3"
    ensures FirstStageSentence == StageOpening(1, 3) + " " + FirstStageRest
  {
    assert NatToString(1) == "1" && NatToString(3) == "3";
  }

  /**
   * With any other number of stages, the first stage's sentence still says
   * "of 3": it does not open with the real count followed by a space or a
   * full stop.
   */
  lemma FirstStageMiscounted(table: StageTable, role: AgentRole)
    requires ValidStages(table) && |table| != 3 && StageOf(table, role) == 0
    ensures PositionSentence(table, role) == FirstStageSentence
    ensures StartsWith(PositionSentence(table, role), StageOpening(1, 3) + " ")
    ensures !StartsWith(PositionSentence(table, role), StageOpening(1, |table|) + " ")
    ensures !StartsWith(PositionSentence(table, role), StageOpening(1, |table|) + ".")
  {
    OpeningOneOfThree();
    StartsWithAppend(StageOpening(1, 3) + " ", FirstStageRest);
    var p := "You are in Stage " + NatToString(1) + " of ";
    var d := NatToString(|table|);
    assert NatToString(3) == "3";
    if d == "3" {
      NatToStringInjective(|table|, 3);
    }
    assert StageOpening(1, 3) == p + "3";
    DifferentCount(p, d, FirstStageRest, ' ');
    DifferentCount(p, d, FirstStageRest, '.');
  }

  /** A text reading "<p>3 <rest>" does not start with "<p><d><c>" for any other digit string d and non-digit c. */
  lemma DifferentCount(p: string, d: string, rest: string, c: char)
    requires d != "3" && |d| >= 1 && (forall i :: 0 <= i < |d| ==> '0' <= d[i] <= '9')
    requires !('0' <= c <= '9')
    ensures !StartsWith(p + "3" + " " + rest, p + d + [c])
  {
    var s := p + "3" + " " + rest;
    var t := p + d + [c];
    assert s[|p|] == '3' && s[|p| + 1] == ' ';
    if |d| == 1 {
      assert d == [d[0]];
      assert t[|p|] == d[0];
    } else {
      assert t[|p| + 1] == d[1];
    }
  }

  /**
   * The parallel line names exactly the other roles of the role's stage, the
   * prior line exactly the roles of earlier stages, the later line exactly
   * the roles of later stages; a line is left out when its list is empty,
   * except the later line, which is then the final-stage sentence.
   */
  lemma PositionLinesName(table: StageTable, role: AgentRole, q: AgentRole)
    requires ValidStages(table)
    ensures q in Peers(table, role) <==> q != role && StageOf(table, q) == StageOf(table, role)
    ensures q in Upstream(table, role) <==> StageOf(table, q) < StageOf(table, role)
    ensures q in Downstream(table, role) <==> StageOf(table, q) > StageOf(table, role)
    ensures var lines := PositionLines(table, role);
      && lines[0] == PositionSentence(table, role)
      && (Downstream(table, role) == [] ==> lines[|lines| - 1] == FinalStageLine)
      && (Downstream(table, role) != [] ==>
            lines[|lines| - 1] == "Agents that will run after this stage: " + Join(Labels(Downstream(table, role)), ", "))
  {
  }

  /** In the described three-stage table, RD and UI run in parallel and SEC is in the final stage. */
  lemma DescribedTablePositions()
    ensures ValidStages(DescribedStages)
    ensures Peers(DescribedStages, Rd) == [Ui] && Peers(DescribedStages, Ui) == [Rd]
    ensures Upstream(DescribedStages, Pm) == [] && Downstream(DescribedStages, Sec) == []
    ensures PositionSentence(DescribedStages, Test) == "You are in Stage 3 of 3."
  {
    DescribedStagesValid();
    assert StageOf(DescribedStages, Rd) == 1 && StageOf(DescribedStages, Ui) == 1;
    assert StageOf(DescribedStages, Test) == 2 && StageOf(DescribedStages, Sec) == 2;
    assert StageOf(DescribedStages, Pm) == 0;
    assert Without([Rd, Ui], Rd) == [Ui] by {
      assert [Rd, Ui][1..] == [Ui];
    }
    assert Without([Rd, Ui], Ui) == [Rd] by {
      assert [Rd, Ui][1..] == [Ui];
    }
    assert NatToString(3) == "3";
  }

  /** The tools line lists the role's tools with ", "; the timeout line states whole seconds. */
  lemma ToolsAndTimeoutLines(role: AgentRole)
    ensures ToolsLine(Pm) == "You have access to: Read"
    ensures ToolsLine(Rd) == "You have access to: Read, Edit, Bash"
    ensures TimeoutLine(role) == "You have " + NatToString(Config(role).timeoutMs / 1000) + " seconds to complete your work."
    ensures Config(role).timeoutMs / 1000 * 1000 == Config(role).timeoutMs
  {
    TimeoutsAreWholeSeconds(role);
    assert Join(["Read", "Edit", "Bash"], ", ") == "Read" + ", " + "Edit" + ", " + "Bash";
  }
}
