/**
 * What the AgentQ graph nodes read out of a model reply and write into the scratchpad
 * (AgentQ/agentq/prompt_utils.py): the scratchpad entry formats of `ScratchpadManager`, the
 * action taken from a reply, and the completion decision of a critique.
 */
module AgentQPrompt {
  import opened Wrappers
  import opened Text
  import opened AgentQCommands
  import opened AgentQBlocks
  import opened AgentQState

  // ---------------------------------------------------------------- scratchpad entries

  /** `[TAG-n] body`: an entry stamped with the loop it was written in. */
  function EntryOf(tag: string, n: int, body: string): string {
    "[" + tag + "-" + IntToString(n) + "] " + body
  }

  function PlanEntry(plan: string): string {
    "[PLAN] " + plan
  }

  function ThoughtEntry(n: int, thought: string): string {
    EntryOf("THOUGHT", n, thought)
  }

  /** The action as `add_action` writes it: its type, then ` -> target` and ` (content)` when
      those are present and not empty. A parsed command always has a type, so the `UNKNOWN`
      default does not arise. */
  function ActionText(cmd: Command): string {
    cmd.kind
    + (if cmd.target.Some? && cmd.target.value != "" then " -> " + cmd.target.value else "")
    + (if cmd.content.Some? && cmd.content.value != "" then " (" + cmd.content.value + ")" else "")
  }

  function ActionEntry(n: int, cmd: Command): string {
    EntryOf("ACTION", n, ActionText(cmd))
  }

  /** An observation keeps its first 100 characters, followed by `...` in every case. */
  function ObservationEntry(n: int, observation: string): string {
    EntryOf("OBSERVATION", n, Take(observation, 100) + "...")
  }

  function ExplanationEntry(n: int, explanation: string): string {
    EntryOf("EXPLANATION", n, explanation)
  }

  function CritiqueEntry(n: int, critique: string, done: bool): string {
    EntryOf("CRITIQUE", n, (if done then "COMPLETE" else "CONTINUE") + " - " + critique)
  }

  /** Reads an entry stamped `[tag-n] ` back into its loop number and body. */
  function ReadEntry(e: string, tag: string): Option<(nat, string)> {
    var head := "[" + tag + "-";
    if !StartsWith(e, head) then None
    else
      var d := RunFrom(e, |head|, IsDigit);
      if d == |head| || d + 2 > |e| || e[d..d + 2] != "] " then None
      else Some((DigitsValue(e[|head|..d]), e[d + 2..]))
  }

  /** An entry written for a loop reads back as that loop and that body, so the scratchpad
      says which loop wrote each line. */
  lemma ReadEntryOf(tag: string, n: nat, body: string)
    ensures ReadEntry(EntryOf(tag, n, body), tag) == Some((n, body))
  {
    var head := "[" + tag + "-";
    var digits := NatToString(n);
    var e := EntryOf(tag, n, body);
    assert e == head + digits + "] " + body;
    assert e[..|head|] == head;
    var d := |head| + |digits|;
    forall j | |head| <= j < d ensures IsDigit(e[j]) {
      assert e[j] == digits[j - |head|];
    }
    assert e[d] == ']';
    RunUntilNot(e, |head|, d);
    assert e[|head|..d] == digits;
    assert e[d..d + 2] == "] ";
    assert e[d + 2..] == body;
    DigitsValueOfNatToString(n);
  }

  lemma {:induction false} RunUntilNot(s: string, p: nat, q: nat)
    requires p <= q < |s|
    requires forall j :: p <= j < q ==> IsDigit(s[j])
    requires !IsDigit(s[q])
    ensures RunFrom(s, p, IsDigit) == q
    decreases q - p
  {
    if p < q {
      RunUntilNot(s, p + 1, q);
    }
  }

  /** The observation entry holds the observation whole when it is at most 100 characters
      long, and otherwise exactly its first 100 characters. */
  lemma ObservationKept(n: nat, observation: string)
    ensures ObservationEntry(n, observation)
      == EntryOf("OBSERVATION", n, (if |observation| <= 100 then observation else observation[..100]) + "...")
  {
  }

  /** The action entry starts with the type of the command, and mentions the target only
      when it has one. */
  lemma ActionTextShape(cmd: Command)
    ensures StartsWith(ActionText(cmd), cmd.kind)
    ensures (cmd.target.None? && cmd.content.None?) ==> ActionText(cmd) == cmd.kind
  {
    var t := ActionText(cmd);
    assert t == cmd.kind + t[|cmd.kind|..];
  }

  /** The critique entry reads back with a body that starts with COMPLETE exactly when the
      critique ended the run. */
  lemma CritiqueEntryStatus(n: nat, critique: string, done: bool)
    ensures ReadEntry(CritiqueEntry(n, critique, done), "CRITIQUE").Some?
    ensures StartsWith(ReadEntry(CritiqueEntry(n, critique, done), "CRITIQUE").value.1, "COMPLETE") <==> done
  {
    var word := if done then "COMPLETE" else "CONTINUE";
    ReadEntryOf("CRITIQUE", n, word + " - " + critique);
    var b := word + " - " + critique;
    assert b[..8] == word;
  }

  // ---------------------------------------------------------------- ScratchpadManager

  /** `add_plan`. */
  method AddPlan(state: GraphState, plan: string)
    modifies state`scratchpad
    ensures state.scratchpad == old(state.scratchpad) + [PlanEntry(plan)]
  {
    state.AddToScratchpad(PlanEntry(plan));
  }

  /** `add_thought`, stamped with the current loop count. */
  method AddThought(state: GraphState, thought: string)
    modifies state`scratchpad
    ensures state.scratchpad == old(state.scratchpad) + [ThoughtEntry(old(state.loopCount), thought)]
  {
    state.AddToScratchpad(ThoughtEntry(state.loopCount, thought));
  }

  /** `add_action`. */
  method AddAction(state: GraphState, cmd: Command)
    modifies state`scratchpad
    ensures state.scratchpad == old(state.scratchpad) + [ActionEntry(old(state.loopCount), cmd)]
  {
    state.AddToScratchpad(ActionEntry(state.loopCount, cmd));
  }

  /** `add_observation`. */
  method AddObservation(state: GraphState, observation: string)
    modifies state`scratchpad
    ensures state.scratchpad == old(state.scratchpad) + [ObservationEntry(old(state.loopCount), observation)]
  {
    state.AddToScratchpad(ObservationEntry(state.loopCount, observation));
  }

  /** `add_explanation`. */
  method AddExplanation(state: GraphState, explanation: string)
    modifies state`scratchpad
    ensures state.scratchpad == old(state.scratchpad) + [ExplanationEntry(old(state.loopCount), explanation)]
  {
    state.AddToScratchpad(ExplanationEntry(state.loopCount, explanation));
  }

  /** `add_critique`. */
  method AddCritique(state: GraphState, critique: string, done: bool)
    modifies state`scratchpad
    ensures state.scratchpad == old(state.scratchpad) + [CritiqueEntry(old(state.loopCount), critique, done)]
  {
    state.AddToScratchpad(CritiqueEntry(state.loopCount, critique, done));
  }

  // ---------------------------------------------------------------- extract_action_from_response

  /** The action a reply asks for: the first command of its COMMANDS block when there is one,
      and only when the block is empty the whole reply read as one command line. A first
      command that does not parse gives no action; the later commands are not tried. */
  function ActionOf(response: string): Option<Command> {
    var cmds := CommandsOf(OutputBlocks(response)["COMMANDS"]);
    if |cmds| > 0 then ParseCommandLine(cmds[0])
    else if Strip(response) != "" then ParseCommandLine(Strip(response))
    else None
  }

  /** `extract_action_from_response`. */
  method ExtractAction(response: string) returns (action: Option<Command>)
    ensures action == ActionOf(response)
  {
    var cmds, _ := ExtractCommandsAndStatus(response);
    if |cmds| > 0 {
      action := ParseCommandLine(cmds[0]);
    } else {
      var line := Strip(response);
      action := if line != "" then ParseCommandLine(line) else None;
    }
  }

  /** A reply with a COMMANDS block acts on its first command and on nothing else. */
  lemma FirstCommandDecides(response: string)
    requires |CommandsOf(OutputBlocks(response)["COMMANDS"])| > 0
    ensures var first := CommandsOf(OutputBlocks(response)["COMMANDS"])[0];
      first != "" && ActionOf(response) == ParseCommandLine(first)
  {
    CommandsShape(OutputBlocks(response)["COMMANDS"]);
  }

  /** Whatever the reply, the action it yields is one the command grammar produces. */
  lemma ActionIsParsed(response: string)
    ensures var a := ActionOf(response);
      a.Some? ==> a.value.kind in PatternKinds && (a.value.via.Some? ==> a.value.kind in ByIdKinds)
  {
    var cmds := CommandsOf(OutputBlocks(response)["COMMANDS"]);
    if |cmds| > 0 {
      ParsedCommandShape(cmds[0]);
    } else {
      ParsedCommandShape(Strip(response));
    }
  }

  /** A reply of nothing but whitespace has no header, so no COMMANDS block, and asks for no
      action. */
  lemma BlankReplyNoAction(response: string)
    requires Strip(response) == ""
    ensures ActionOf(response).None?
  {
    BlankHasNoHeader(response);
    NoHeaderNoBlocks(response);
    assert OutputBlocks(response)["COMMANDS"] == "";
    assert SplitLines("") == [];
    assert RawCommands([]) == [];
  }

  lemma BlankHasNoHeader(response: string)
    requires Strip(response) == ""
    ensures forall i :: 0 <= i <= |response| ==> HeaderAt(response, i).None?
  {
    StripBlank(response);
    forall i | 0 <= i <= |response| ensures HeaderAt(response, i).None? {
      if i < |response| {
        assert IsSpace(response[i]);
      }
    }
  }

  lemma StripBlank(s: string)
    requires Strip(s) == ""
    ensures forall j :: 0 <= j < |s| ==> IsSpace(s[j])
  {
  }

  // ---------------------------------------------------------------- extract_critique_decision

  const CompleteKeywords: seq<string> := ["\U{C644}\U{B8CC}", "\U{B05D}", "\U{C131}\U{ACF5}", "\U{B2EC}\U{C131}", "\U{CDA9}\U{BD84}"]
  const ContinueKeywords: seq<string> := ["\U{ACC4}\U{C18D}", "\U{B354}", "\U{CD94}\U{AC00}", "\U{D544}\U{C694}", "\U{BD80}\U{C871}"]

  /** How many of the keywords occur in the text. */
  function Score(keywords: seq<string>, s: string): (n: nat)
    ensures n <= |keywords|
  {
    if keywords == [] then 0
    else Score(keywords[..|keywords| - 1], s) + (if Contains(s, keywords[|keywords| - 1]) then 1 else 0)
  }

  /** The critique says the work is complete: COMPLETE anywhere, in any case, wins; else
      CONTINUE anywhere means go on; else the Korean completion words must outnumber the
      Korean continuation words. */
  function CritiqueDecision(response: string): bool {
    var upper := Upper(response);
    if Contains(upper, "COMPLETE") then true
    else if Contains(upper, "CONTINUE") then false
    else Score(CompleteKeywords, response) > Score(ContinueKeywords, response)
  }

  /** COMPLETE wins over CONTINUE when the reply holds both. */
  lemma CompleteBeatsContinue(before: string, middle: string, after: string)
    ensures CritiqueDecision(before + "CONTINUE" + middle + "complete" + after)
  {
    var r := before + "CONTINUE" + middle + "complete" + after;
    var i := |before| + 8 + |middle|;
    assert Upper(r)[i..i + 8] == "COMPLETE";
    ContainsWitness(Upper(r), "COMPLETE", i);
  }

  /** The word COMPLETE is found inside other words, so a critique calling the work
      incomplete still ends the run. */
  lemma IncompleteReadsAsComplete()
    ensures CritiqueDecision("The work is incomplete")
  {
    var r := "The work is incomplete";
    assert Upper(r)[14..22] == "COMPLETE";
    ContainsWitness(Upper(r), "COMPLETE", 14);
  }

  /** With neither English word in the reply, the work is complete exactly when more of the
      Korean completion words occur in it than Korean continuation words; a tie goes on. */
  lemma KeywordVote(response: string)
    requires !Contains(Upper(response), "COMPLETE") && !Contains(Upper(response), "CONTINUE")
    ensures CritiqueDecision(response) <==> Score(CompleteKeywords, response) > Score(ContinueKeywords, response)
  {
  }

  /** The English words are matched without case, and the Korean keywords have no case, so
      the decision does not depend on the case of the reply's letters. */
  lemma CritiqueIgnoresCase(response: string)
    ensures CritiqueDecision(Lower(response)) == CritiqueDecision(response)
  {
    var l := Lower(response);
    assert Upper(l) == Upper(response);
    ScoreIgnoresCase(CompleteKeywords, response);
    ScoreIgnoresCase(ContinueKeywords, response);
  }

  predicate NoAsciiLetter(w: string) {
    forall j :: 0 <= j < |w| ==> !IsAsciiLetter(w[j])
  }

  lemma {:induction false} ScoreIgnoresCase(keywords: seq<string>, s: string)
    requires forall k :: 0 <= k < |keywords| ==> NoAsciiLetter(keywords[k])
    ensures Score(keywords, Lower(s)) == Score(keywords, s)
  {
    if keywords != [] {
      ScoreIgnoresCase(keywords[..|keywords| - 1], s);
      ContainsIgnoresCase(s, keywords[|keywords| - 1]);
    }
  }

  lemma ContainsIgnoresCase(s: string, w: string)
    requires NoAsciiLetter(w)
    ensures Contains(Lower(s), w) == Contains(s, w)
  {
    var l := Lower(s);
    ContainsIff(l, w);
    ContainsIff(s, w);
    forall i | 0 <= i && i + |w| <= |s| ensures OccursAt(l, w, i) <==> OccursAt(s, w, i) {
      if OccursAt(l, w, i) {
        forall j | 0 <= j < |w| ensures s[i + j] == w[j] {
          assert l[i + j] == w[j];
        }
        assert s[i..i + |w|] == w;
      }
      if OccursAt(s, w, i) {
        forall j | 0 <= j < |w| ensures l[i + j] == w[j] {
          assert s[i + j] == w[j];
        }
        assert l[i..i + |w|] == w;
      }
    }
  }
}
