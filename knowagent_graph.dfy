/**
 * The KnowAgent graph (KnowAgent/graph.py): decide first, then the tool the decision names,
 * back to decide after each tool until the run is finished, and Finish ends it.
 */
module KnowGraph {
  import opened Wrappers
  import opened Text
  import opened KnowNodes

  datatype KNode = Decide | Retrieve | Search | Lookup | Finish | End

  /** One character of `str.title()` on ASCII: a letter is upper case at the start of a run of
      letters and lower case inside it; anything else is kept. */
  function TitleChar(s: string, i: nat): char
    requires i < |s|
  {
    if IsAsciiLetter(s[i]) then
      if i > 0 && IsAsciiLetter(s[i - 1]) then LowerChar(s[i]) else UpperChar(s[i])
    else s[i]
  }

  /** `str.title()`. */
  function Title(s: string): (r: string)
    ensures |r| == |s|
    ensures forall i :: 0 <= i < |s| ==> r[i] == TitleChar(s, i)
  {
    seq(|s|, i requires 0 <= i < |s| => TitleChar(s, i))
  }

  /** `route_from_decide`: the node named by the title-cased action type; anything else, and a
      missing type, goes to search. */
  function RouteFromDecide(actionType: Option<string>): KNode {
    var t := Title(if actionType.Some? then actionType.value else "");
    if t == "Retrieve" then Retrieve
    else if t == "Search" then Search
    else if t == "Lookup" then Lookup
    else if t == "Finish" then Finish
    else Search
  }

  /** `continue_or_end`. */
  function ContinueOrEnd(state: AgentState): KNode {
    if state.finished then End else Decide
  }

  /** The node after `from`, once it has produced `state`; End has none. */
  function Next(from: KNode, state: AgentState): Option<KNode> {
    match from
    case Decide => Some(RouteFromDecide(state.actionType))
    case Retrieve => Some(ContinueOrEnd(state))
    case Search => Some(ContinueOrEnd(state))
    case Lookup => Some(ContinueOrEnd(state))
    case Finish => Some(End)
    case End => None
  }

  /** The node each allowed action type names. */
  function ToolFor(t: string): KNode {
    if t == "Retrieve" then Retrieve
    else if t == "Search" then Search
    else if t == "Lookup" then Lookup
    else Finish
  }

  /** Title-casing does not see the case of the letters it is given. */
  lemma TitleIgnoresCase(s: string)
    ensures Title(Lower(s)) == Title(s)
  {
    var l := Lower(s);
    forall i | 0 <= i < |s| ensures TitleChar(l, i) == TitleChar(s, i) {
      assert l[i] == LowerChar(s[i]);
      if i > 0 {
        assert l[i - 1] == LowerChar(s[i - 1]);
      }
    }
  }

  /** The router ignores case: `search`, `SEARCH` and `Search` all go to search. */
  lemma RouteIgnoresCase(t: string)
    ensures RouteFromDecide(Some(Lower(t))) == RouteFromDecide(Some(t))
  {
    TitleIgnoresCase(t);
  }

  /** Every decision the decide node can store reaches the tool it names: the four types are
      their own title case. */
  lemma DecisionsReachTheirTool(t: string)
    requires t in Allowed
    ensures RouteFromDecide(Some(t)) == ToolFor(t)
  {
    if t == "Retrieve" {
      assert Title(t) == "Retrieve";
    } else if t == "Search" {
      assert Title(t) == "Search";
    } else if t == "Lookup" {
      assert Title(t) == "Lookup";
    } else {
      assert Title(t) == "Finish";
    }
  }

  /** A type that does not title-case to one of the four, and a missing one, go to search. */
  lemma UnknownTypesSearch(actionType: Option<string>)
    requires Title(if actionType.Some? then actionType.value else "") !in Allowed
    ensures RouteFromDecide(actionType) == Search
  {
  }

  /** The tools keep the finished flag, so from a run that has not finished they return to
      decide; Finish ends the run, and its state is marked finished. */
  lemma ToolsReturnToDecide(state: AgentState, fetch: string -> string, search: string -> string)
    requires !state.finished
    ensures Next(Retrieve, NodeRetrieve(state, fetch)) == Some(Decide)
    ensures Next(Search, NodeSearch(state, search)) == Some(Decide)
    ensures Next(Lookup, NodeLookup(state)) == Some(Decide)
    ensures Next(Finish, NodeFinish(state)) == Some(End) && NodeFinish(state).finished
  {
  }

  /** From the auto-finish step on, the decide node routes to Finish, whatever the model
      answered, and Finish ends the run. */
  lemma AutoFinishEndsRun(parsed: (string, string), step: int, question: string, lastPassages: seq<string>,
                          prevConsec: int, maxConsec: int, autoFinish: int)
    requires step >= autoFinish
    ensures RouteFromDecide(Some(Resolve(parsed, step, question, lastPassages, prevConsec, maxConsec, autoFinish).0)) == Finish
  {
    GuardBounds(parsed, step, question, lastPassages, prevConsec, maxConsec, autoFinish);
    DecisionsReachTheirTool("Finish");
  }

  // ---------------------------------------------------------------- run_knowagent

  const DefaultMaxSteps := 12
  const DefaultMaxConsecSearch := 3
  const DefaultAutoFinishStep := 6
  const DefaultContextLen := 2000

  /** The state a run starts from: step 1, an empty scratchpad, no passages, not finished. */
  function InitialState(question: string): (s: AgentState)
    ensures s.question == question && s.scratchpad == "" && s.step == 1
    ensures s.lastPassages == [] && !s.finished
    ensures s.actionType.None? && s.argument.None? && s.answer.None? && s.consecutiveSearch == 0
  {
    AgentState(question, "", 1, None, None, [], false, None, 0)
  }

  /** The run starts at decide, and its recursion limit is the step budget itself. */
  datatype RunConfig = RunConfig(entry: KNode, recursionLimit: int)

  function Config(maxSteps: int): (c: RunConfig)
    ensures c.entry == Decide && c.recursionLimit == maxSteps
  {
    RunConfig(Decide, maxSteps)
  }
}
