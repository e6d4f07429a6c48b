/**
 * The KnowAgent nodes (KnowAgent/nodes.py): the decide node, which asks the model for an
 * action path, a thought and an action and then applies a fallback for unusable actions and a
 * guard against endless searching; and the tool nodes, which record an observation.
 */
module KnowNodes {
  import opened Wrappers
  import opened Text
  import opened KnowTools
  import opened KnowPrompt

  /** The agent state (KnowAgent/state.py), with the `consecutive_search` counter the decide
      node keeps beside it (0 while absent). */
  datatype AgentState = AgentState(
    question: string,
    scratchpad: string,
    step: int,
    actionType: Option<string>,
    argument: Option<string>,
    lastPassages: seq<string>,
    finished: bool,
    answer: Option<string>,
    consecutiveSearch: int)

  const Allowed: set<string> := {"Retrieve", "Search", "Lookup", "Finish"}

  // ---------------------------------------------------------------- node_decide

  /** The best-effort answer: the last passage's first 300 characters, with `...` when it is
      longer, or `none` when there is no passage. */
  function Candidate(lastPassages: seq<string>, none: string): string {
    if lastPassages == [] then none
    else
      var last := lastPassages[|lastPassages| - 1];
      Take(last, 300) + (if |last| > 300 then "..." else "")
  }

  lemma CandidateShape(lastPassages: seq<string>, none: string)
    ensures lastPassages == [] ==> Candidate(lastPassages, none) == none
    ensures lastPassages != [] ==>
      var last := lastPassages[|lastPassages| - 1];
      var c := Candidate(lastPassages, none);
      (|last| <= 300 ==> c == last)
      && (|last| > 300 ==> |c| == 303 && c == last[..300] + "..." && EndsWith(c, "..."))
  {
    if lastPassages != [] {
      var last := lastPassages[|lastPassages| - 1];
      var c := Candidate(lastPassages, none);
      if |last| > 300 {
        assert c[|c| - 3..] == "...";
      }
    }
  }

  /** The fallback for an action that is not one of the four, or whose argument is blank:
      search for the question on the first step, finish with the candidate afterwards. */
  function Fallback(actionType: string, argument: string, step: int, question: string,
                    lastPassages: seq<string>): (string, string) {
    if actionType !in Allowed || Strip(argument) == "" then
      if step <= 1 then ("Search", question) else ("Finish", Candidate(lastPassages, "Unknown"))
    else (actionType, argument)
  }

  /** Whether the guard forces Finish: the auto-finish step is reached by an action that does
      not finish, or a search brings the run of searches to the limit. */
  predicate GuardFires(actionType: string, step: int, newConsec: int, maxConsec: int, autoFinish: int) {
    (step >= autoFinish && actionType != "Finish") || (newConsec >= maxConsec && actionType == "Search")
  }

  /** The guard: the action, its argument and the new count of consecutive searches. */
  function Guard(actionType: string, argument: string, step: int, question: string,
                 lastPassages: seq<string>, prevConsec: int, maxConsec: int, autoFinish: int): (string, string, int) {
    var newConsec := if actionType == "Search" then prevConsec + 1 else 0;
    if GuardFires(actionType, step, newConsec, maxConsec, autoFinish) then
      ("Finish", Candidate(lastPassages, if question != "" then question else "Unknown"), 0)
    else (actionType, argument, newConsec)
  }

  /** The decision the node stores: the parsed action through the fallback, then the guard. */
  function Resolve(parsed: (string, string), step: int, question: string, lastPassages: seq<string>,
                   prevConsec: int, maxConsec: int, autoFinish: int): (string, string, int) {
    var (t, a) := Fallback(parsed.0, parsed.1, step, question, lastPassages);
    Guard(t, a, step, question, lastPassages, prevConsec, maxConsec, autoFinish)
  }

  /** Whatever the model answered, the stored action type is one of the four. */
  lemma DecisionIsAllowed(parsed: (string, string), step: int, question: string, lastPassages: seq<string>,
                          prevConsec: int, maxConsec: int, autoFinish: int)
    ensures Resolve(parsed, step, question, lastPassages, prevConsec, maxConsec, autoFinish).0 in Allowed
  {
  }

  /** The fallback replaces exactly the unusable actions: by Search for the question on the
      first step, by Finish with the candidate (or `Unknown`) later; usable ones pass. */
  lemma FallbackRule(actionType: string, argument: string, step: int, question: string, lastPassages: seq<string>)
    ensures actionType in Allowed && Strip(argument) != "" ==>
      Fallback(actionType, argument, step, question, lastPassages) == (actionType, argument)
    ensures (actionType !in Allowed || Strip(argument) == "") && step <= 1 ==>
      Fallback(actionType, argument, step, question, lastPassages) == ("Search", question)
    ensures (actionType !in Allowed || Strip(argument) == "") && step > 1 ==>
      Fallback(actionType, argument, step, question, lastPassages) == ("Finish", Candidate(lastPassages, "Unknown"))
    ensures Fallback(actionType, argument, step, question, lastPassages).0 in Allowed
  {
  }

  /**
   * The guard forces Finish with the candidate (falling back to the question, then `Unknown`)
   * and resets the count exactly when it fires; otherwise the action passes and the count is
   * the previous one plus one for a search and zero for anything else.
   */
  lemma GuardRule(actionType: string, argument: string, step: int, question: string,
                  lastPassages: seq<string>, prevConsec: int, maxConsec: int, autoFinish: int)
    ensures var newConsec := if actionType == "Search" then prevConsec + 1 else 0;
      var g := Guard(actionType, argument, step, question, lastPassages, prevConsec, maxConsec, autoFinish);
      (GuardFires(actionType, step, newConsec, maxConsec, autoFinish) ==>
         g == ("Finish", Candidate(lastPassages, if question != "" then question else "Unknown"), 0))
      && (!GuardFires(actionType, step, newConsec, maxConsec, autoFinish) ==> g == (actionType, argument, newConsec))
  {
  }

  /**
   * The guard's promises over a run. From the auto-finish step on, every decision is Finish.
   * A search is stored only while the run of searches stays below the limit, counted one up
   * from the previous decision; any other result stores zero. So with a positive limit the
   * stored count never reaches it.
   */
  lemma GuardBounds(parsed: (string, string), step: int, question: string, lastPassages: seq<string>,
                    prevConsec: int, maxConsec: int, autoFinish: int)
    ensures var (t, a, c) := Resolve(parsed, step, question, lastPassages, prevConsec, maxConsec, autoFinish);
      (step >= autoFinish ==> t == "Finish")
      && (t == "Search" ==> c == prevConsec + 1 && c < maxConsec)
      && (t != "Search" ==> c == 0)
      && (maxConsec > 0 ==> c < maxConsec)
  {
  }

  /** The three lines a decision appends to the scratchpad. */
  function PathLine(step: int, actionPath: string): string {
    "\nActionPath " + IntToString(step) + ": " + actionPath
  }

  function ThoughtLine(step: int, thought: string): string {
    "\nThought " + IntToString(step) + ": " + thought
  }

  /** The Action line records the action as parsed, before the fallback and the guard. */
  function ActionLine(step: int, parsed: (string, string)): string {
    "\nAction " + IntToString(step) + ": " + parsed.0 + "[" + parsed.1 + "]"
  }

  /** One prompt for a stage that exists, built on the scratchpad truncated to `contextLen`
      tokens (whole without a tokenizer), and the model's reply to it. */
  method AskStage(llm: string -> string, instructions: string, question: string, scratchpad: string,
                  step: int, stage: string, contextLen: int, tokenizer: Option<string -> nat>)
    returns (p: string, reply: string)
    requires StageParts(stage).Some?
    ensures EndsWith(p, StageCue(StageParts(stage).value.0, IntToString(step)))
    ensures reply == llm(p)
    ensures p == BuildPrompt(instructions, question, Truncation(scratchpad, contextLen, tokenizer), step, stage).value
    ensures tokenizer.None? ==> p == BuildPrompt(instructions, question, scratchpad, step, stage).value
  {
    var truncated, lines, cut := TruncateScratchpad(scratchpad, contextLen, tokenizer);
    BuildPromptShape(instructions, question, truncated, step, stage);
    p := BuildPrompt(instructions, question, truncated, step, stage).value;
    reply := llm(p);
  }

  /**
   * `node_decide`. The model (`llm`, from prompt to reply text) is asked three times, each
   * prompt built on the scratchpad so far, truncated to `contextLen` tokens; the replies for the
   * path and the thought are stripped, the action is parsed. The stored scratchpad is the full
   * one followed by the three lines, and the stored action is the decision after the fallback
   * and the guard. `asked` holds the three prompts, each built on the truncation of the
   * scratchpad it is asked with; without a tokenizer they carry the whole scratchpad.
   */
  method NodeDecide(state: AgentState, llm: string -> string, instructions: string,
                    maxConsecSearch: int, autoFinishStep: int, contextLen: int, tokenizer: Option<string -> nat>)
    returns (s: AgentState, asked: seq<string>, actionPath: string, thought: string, actionText: string)
    ensures |asked| == 3
    ensures EndsWith(asked[0], StageCue("ActionPath", IntToString(state.step)))
    ensures EndsWith(asked[1], StageCue("Thought", IntToString(state.step)))
    ensures EndsWith(asked[2], StageCue("Action", IntToString(state.step)))
    ensures actionPath == Strip(llm(asked[0])) && thought == Strip(llm(asked[1])) && actionText == llm(asked[2])
    ensures var afterPath := state.scratchpad + PathLine(state.step, actionPath);
      asked[0] == BuildPrompt(instructions, state.question, Truncation(state.scratchpad, contextLen, tokenizer),
                              state.step, "action_path").value
      && asked[1] == BuildPrompt(instructions, state.question, Truncation(afterPath, contextLen, tokenizer),
                                 state.step, "thought").value
      && asked[2] == BuildPrompt(instructions, state.question,
                                 Truncation(afterPath + ThoughtLine(state.step, thought), contextLen, tokenizer),
                                 state.step, "action").value
    ensures var (t, a, c) := Resolve(ParseAction(actionText), state.step, state.question, state.lastPassages,
                                     state.consecutiveSearch, maxConsecSearch, autoFinishStep);
      s == state.(scratchpad := state.scratchpad + PathLine(state.step, actionPath) + ThoughtLine(state.step, thought)
                                + ActionLine(state.step, ParseAction(actionText)),
                  actionType := Some(t), argument := Some(a), consecutiveSearch := c)
  {
    var step := state.step;
    var current := state.scratchpad;

    var p0, r0 := AskStage(llm, instructions, state.question, current, step, "action_path", contextLen, tokenizer);
    actionPath := Strip(r0);
    current := current + PathLine(step, actionPath);

    var p1, r1 := AskStage(llm, instructions, state.question, current, step, "thought", contextLen, tokenizer);
    thought := Strip(r1);
    current := current + ThoughtLine(step, thought);

    var p2, r2 := AskStage(llm, instructions, state.question, current, step, "action", contextLen, tokenizer);
    actionText := r2;
    var parsed := ParseAction(actionText);
    current := current + ActionLine(step, parsed);
    asked := [p0, p1, p2];

    var actionType, argument, newConsec := ApplyGuards(parsed, step, state.question, state.lastPassages,
                                                       state.consecutiveSearch, maxConsecSearch, autoFinishStep);
    s := state.(scratchpad := current, actionType := Some(actionType), argument := Some(argument),
                consecutiveSearch := newConsec);
  }

  /** The fallback, then the guard, applied to the parsed action as `node_decide` does it. */
  method ApplyGuards(parsed: (string, string), step: int, question: string, lastPassages: seq<string>,
                     prevConsec: int, maxConsec: int, autoFinish: int)
    returns (actionType: string, argument: string, newConsec: int)
    ensures (actionType, argument, newConsec) == Resolve(parsed, step, question, lastPassages, prevConsec, maxConsec, autoFinish)
  {
    actionType := parsed.0;
    argument := parsed.1;
    if actionType !in Allowed || Strip(argument) == "" {
      if step <= 1 {
        actionType := "Search";
        argument := question;
      } else {
        actionType := "Finish";
        argument := Candidate(lastPassages, "Unknown");
      }
    }

    newConsec := if actionType == "Search" then prevConsec + 1 else 0;
    if (step >= autoFinish && actionType != "Finish") || (newConsec >= maxConsec && actionType == "Search") {
      actionType := "Finish";
      argument := Candidate(lastPassages, if question != "" then question else "Unknown");
      newConsec := 0;
    }
  }

  // ---------------------------------------------------------------- tool nodes

  /** `argument or ""`. */
  function ArgumentText(state: AgentState): string {
    if state.argument.Some? then state.argument.value else ""
  }

  /** The scratchpad with one more line: a line break goes first only when the scratchpad is
      not empty and does not already end with one. */
  function AppendLine(scratchpad: string, line: string): string {
    (if scratchpad != "" && !EndsWith(scratchpad, "\n") then scratchpad + "\n" else scratchpad) + line
  }

  function ObservationLine(step: int, obs: string): string {
    "Observation " + IntToString(step) + ": " + obs
  }

  /** What every tool node does with its observation. */
  function Observed(state: AgentState, obs: string): AgentState {
    state.(scratchpad := AppendLine(state.scratchpad, ObservationLine(state.step, obs)),
           lastPassages := if obs != "" then state.lastPassages + [obs] else state.lastPassages,
           step := state.step + 1)
  }

  /** `node_retrieve`, with the encyclopedia service `fetch`. */
  function NodeRetrieve(state: AgentState, fetch: string -> string): AgentState {
    Observed(state, WikipediaRetrieve(ArgumentText(state), fetch))
  }

  /** `node_search`, with the web search service `search`. */
  function NodeSearch(state: AgentState, search: string -> string): AgentState {
    Observed(state, WebSearch(ArgumentText(state), search))
  }

  /** The passage a lookup reads: the last one, or none. */
  function LastPassage(state: AgentState): string {
    if state.lastPassages == [] then "" else state.lastPassages[|state.lastPassages| - 1]
  }

  /** `node_lookup`. */
  function NodeLookup(state: AgentState): AgentState {
    Observed(state, LookupKeyword(LastPassage(state), ArgumentText(state)))
  }

  /** `node_finish`. */
  function NodeFinish(state: AgentState): (s: AgentState)
    ensures s.finished && s.answer == Some(ArgumentText(state)) && s.step == state.step + 1
  {
    state.(scratchpad := AppendLine(state.scratchpad, ObservationLine(state.step, "Finished.")),
           finished := true, answer := Some(ArgumentText(state)), step := state.step + 1)
  }

  /** The appended line follows the old scratchpad, separated by one line break when needed
      and by none when the scratchpad is empty or already ends with one. */
  lemma AppendLineShape(scratchpad: string, line: string)
    ensures StartsWith(AppendLine(scratchpad, line), scratchpad)
    ensures EndsWith(AppendLine(scratchpad, line), line)
    ensures scratchpad == "" || EndsWith(scratchpad, "\n") ==> AppendLine(scratchpad, line) == scratchpad + line
    ensures scratchpad != "" && !EndsWith(scratchpad, "\n") ==> AppendLine(scratchpad, line) == scratchpad + "\n" + line
  {
    var r := AppendLine(scratchpad, line);
    var head := if scratchpad != "" && !EndsWith(scratchpad, "\n") then scratchpad + "\n" else scratchpad;
    assert r == head + line;
    assert r[..|scratchpad|] == scratchpad;
    assert r[|r| - |line|..] == line;
  }

  /**
   * Each tool node advances the step by one, appends `Observation {step}: …` after the old
   * scratchpad, adds the observation to the passages exactly when it is not empty, and changes
   * nothing else.
   */
  lemma ObservedUpdate(state: AgentState, obs: string)
    ensures var s := Observed(state, obs);
      s.step == state.step + 1
      && StartsWith(s.scratchpad, state.scratchpad)
      && EndsWith(s.scratchpad, ObservationLine(state.step, obs))
      && (obs != "" <==> |s.lastPassages| == |state.lastPassages| + 1)
      && (obs != "" ==> s.lastPassages == state.lastPassages + [obs])
      && (obs == "" ==> s.lastPassages == state.lastPassages)
      && s.question == state.question && s.finished == state.finished && s.answer == state.answer
      && s.actionType == state.actionType && s.argument == state.argument
      && s.consecutiveSearch == state.consecutiveSearch
  {
    AppendLineShape(state.scratchpad, ObservationLine(state.step, obs));
  }

  /** A lookup always has something to say, so it always adds a passage. */
  lemma LookupAlwaysRecords(state: AgentState)
    ensures |NodeLookup(state).lastPassages| == |state.lastPassages| + 1
    ensures NodeLookup(state).lastPassages[|state.lastPassages|] == LookupKeyword(LastPassage(state), ArgumentText(state))
  {
    var text := LastPassage(state);
    var kw := ArgumentText(state);
    var obs := LookupKeyword(text, kw);
    assert obs != "" by {
      if text != "" && kw != "" {
        LookupKeywordCases(text, kw);
        if obs != NoSentence {
          ContainsIff(Lower(obs), Lower(kw));
        }
      }
    }
    ObservedUpdate(state, obs);
  }

  /** An empty argument asks no service: retrieve and search record their fixed notes, which
      also become passages. */
  lemma EmptyArgumentAsksNoService(state: AgentState, fetch: string -> string, search: string -> string)
    requires Strip(ArgumentText(state)) == ""
    ensures NodeRetrieve(state, fetch).lastPassages == state.lastPassages + ["No entity provided."]
    ensures NodeSearch(state, search).lastPassages == state.lastPassages + ["No query provided."]
  {
  }
}
