/**
 * The rule-based AgentQ agent (AgentQ/agentq/agent.py): a fixed plan, then rounds of
 * Thought, Action, Explanation and Critique over one `AgentState`, until the critique says done
 * or the loop budget is spent. The browser is an oracle: `execute` stands for `execute_action`
 * and `textAfter` for the page text `extract_text_content` reads after an action.
 */
module AgentQAgent {
  import opened Wrappers
  import opened Text

  /** `ActionType` of AgentQ/agentq/models.py. */
  datatype ActionType = Navigate | Click | TypeText | Screenshot | GetDom | Search | Wait

  /** `Action`: what to do, on which target, with which content, and its timeout in ms. */
  datatype Action = Action(kind: ActionType, target: Option<string>, content: Option<string>, timeout: Option<int>)

  const DefaultTimeout := 5000
  const DefaultMaxLoops := 5

  /** An action built with the model's default timeout. */
  function MakeAction(kind: ActionType, target: Option<string>, content: Option<string>): (a: Action)
    ensures a.kind == kind && a.target == target && a.content == content
    ensures a.timeout == Some(DefaultTimeout)
  {
    Action(kind, target, content, Some(DefaultTimeout))
  }

  /** The dictionary `execute_action` returns: whether it worked, a message, and its data. */
  datatype ExecResult = ExecResult(success: bool, message: string, data: Option<string>)

  /** `AgentState` of AgentQ/agentq/models.py; the steps assign its fields in place. */
  class AgentState {
    var userInput: string
    var plan: Option<string>
    var thought: Option<string>
    var action: Option<Action>
    var observation: Option<string>
    var explanation: Option<string>
    var done: bool
    var loopCount: int
    var maxLoops: int

    constructor(input: string, maxLoopCount: int)
      ensures userInput == input && maxLoops == maxLoopCount
      ensures plan.None? && thought.None? && action.None? && observation.None? && explanation.None?
      ensures !done && loopCount == 0
    {
      userInput := input;
      maxLoops := maxLoopCount;
      plan, thought, action, observation, explanation := None, None, None, None, None;
      done := false;
      loopCount := 0;
    }
  }

  /** `AgentResponse`: the verdict of a run, its message, the state it ran on. */
  datatype AgentResponse = AgentResponse(success: bool, message: string, state: AgentState?, error: Option<string>)

  // ---------------------------------------------------------------- the fixed texts

  const SearchWord := "\U{AC80}\U{C0C9}"
  const FindWord := "\U{CC3E}"
  const MoveWord := "\U{C774}\U{B3D9}"
  const GoWord := "\U{AC00}"
  const FailWord := "\U{C2E4}\U{D328}"
  const ErrorWord := "\U{C624}\U{B958}"
  const PleaseWord := "\U{D574}\U{C918}"
  const SearchDone := "\U{AC80}\U{C0C9} \U{C644}\U{B8CC}"
  const PageDone := "\U{D398}\U{C774}\U{C9C0} \U{C815}\U{BCF4} \U{C218}\U{C9D1} \U{C644}\U{B8CC}"

  const SearchPlan := "1. \U{AC80}\U{C0C9}\U{C5B4} \U{CD94}\U{CD9C}\n2. Google\U{C5D0}\U{C11C} \U{AC80}\U{C0C9}\n3. \U{ACB0}\U{ACFC} \U{BD84}\U{C11D}\n4. \U{B2F5}\U{BCC0} \U{C81C}\U{ACF5}"
  const NavigatePlan := "1. \U{BAA9}\U{D45C} URL \U{D655}\U{C778}\n2. \U{D398}\U{C774}\U{C9C0} \U{C774}\U{B3D9}\n3. \U{D398}\U{C774}\U{C9C0} \U{B85C}\U{B529} \U{D655}\U{C778}\n4. \U{ACB0}\U{ACFC} \U{BCF4}\U{ACE0}"
  const DefaultPlan := "1. \U{C694}\U{CCAD} \U{BD84}\U{C11D}\n2. \U{C801}\U{C808}\U{D55C} \U{C561}\U{C158} \U{ACB0}\U{C815}\n3. \U{C561}\U{C158} \U{C2E4}\U{D589}\n4. \U{ACB0}\U{ACFC} \U{D655}\U{C778}"

  const GoogleUrl := "https://www.google.com"
  const SearchThoughtTail := "'\U{B97C} \U{AC80}\U{C0C9}\U{D574}\U{C57C}\U{ACA0}\U{B2E4}."
  const NavigateThoughtTail := "'\U{B85C} \U{C774}\U{B3D9}\U{D574}\U{C57C}\U{ACA0}\U{B2E4}."
  const InspectThought := "\U{D604}\U{C7AC} \U{D398}\U{C774}\U{C9C0} \U{C815}\U{BCF4}\U{B97C} \U{D655}\U{C778}\U{D574}\U{C57C}\U{ACA0}\U{B2E4}."
  const RetryThought := "\U{C774}\U{C804} \U{C2DC}\U{B3C4}\U{AC00} \U{C2E4}\U{D328}\U{D588}\U{C73C}\U{B2C8} \U{B2E4}\U{B978} \U{BC29}\U{BC95}\U{C744} \U{C2DC}\U{B3C4}\U{D574}\U{C57C}\U{ACA0}\U{B2E4}."
  const EnoughThought := "\U{CDA9}\U{BD84}\U{D55C} \U{C815}\U{BCF4}\U{B97C} \U{C5BB}\U{C5C8}\U{C73C}\U{B2C8} \U{C644}\U{B8CC}\U{D574}\U{C57C}\U{ACA0}\U{B2E4}."

  const NoActionObservation := "\U{C2E4}\U{D589}\U{D560} \U{C561}\U{C158}\U{C774} \U{C5C6}\U{C2B5}\U{B2C8}\U{B2E4}."
  const ResultLabel := ". \U{ACB0}\U{ACFC}: "
  const NoContent := "\U{B0B4}\U{C6A9} \U{C5C6}\U{C74C}"
  const LengthLabel := ". \U{B0B4}\U{C6A9} \U{AE38}\U{C774}: "
  const CharUnit := "\U{C790}"
  const ActionFailed := "\U{C561}\U{C158} \U{C2E4}\U{D328}: "

  const NoObservation := "\U{AD00}\U{CC30} \U{ACB0}\U{ACFC}\U{AC00} \U{C5C6}\U{C2B5}\U{B2C8}\U{B2E4}."
  const ProblemPrefix := "\U{C791}\U{C5C5} \U{C911} \U{BB38}\U{C81C}\U{AC00} \U{BC1C}\U{C0DD}\U{D588}\U{C2B5}\U{B2C8}\U{B2E4}: "
  const SearchSucceeded := "\U{AC80}\U{C0C9}\U{C774} \U{C131}\U{ACF5}\U{C801}\U{C73C}\U{B85C} \U{C644}\U{B8CC}\U{B418}\U{C5C8}\U{C2B5}\U{B2C8}\U{B2E4}. "
  const SearchFailed := "\U{AC80}\U{C0C9}\U{C5D0} \U{C2E4}\U{D328}\U{D588}\U{C2B5}\U{B2C8}\U{B2E4}."
  const CompletedPrefix := "\U{C791}\U{C5C5}\U{C774} \U{C644}\U{B8CC}\U{B418}\U{C5C8}\U{C2B5}\U{B2C8}\U{B2E4}: "
  const CompletedDefault := "\U{C791}\U{C5C5}\U{C774} \U{C644}\U{B8CC}\U{B418}\U{C5C8}\U{C2B5}\U{B2C8}\U{B2E4}."
  const MaxLoopsHead := "\U{CD5C}\U{B300} \U{B8E8}\U{D504} \U{D69F}\U{C218}("
  const MaxLoopsTail := ")\U{C5D0} \U{B3C4}\U{B2EC}\U{D588}\U{C2B5}\U{B2C8}\U{B2E4}."

  // ---------------------------------------------------------------- plan

  /** The input asks for a search. */
  predicate AsksSearch(lowered: string) {
    Contains(lowered, SearchWord) || Contains(lowered, FindWord)
  }

  /** `_plan_step`: one of three fixed plans, chosen by keywords of the lowered input. */
  function PlanFor(input: string): string {
    var u := Lower(input);
    if AsksSearch(u) then SearchPlan
    else if Contains(u, MoveWord) || Contains(u, GoWord) then NavigatePlan
    else DefaultPlan
  }

  // ---------------------------------------------------------------- thought

  /** The previous round failed: there is no observation, or it mentions failure. */
  predicate Failed(observation: Option<string>) {
    observation.None? || observation.value == "" || Contains(observation.value, FailWord)
  }

  /** `_thought_step`: the thought and the planned action of a round. */
  function ThoughtFor(loopCount: int, input: string, observation: Option<string>): (string, Option<Action>) {
    var u := Lower(input);
    if loopCount == 1 then
      if AsksSearch(u) then
        var q := SearchQuery(u);
        ("'" + q + SearchThoughtTail, Some(MakeAction(Search, None, Some(q))))
      else if Contains(u, MoveWord) then
        ("'" + GoogleUrl + NavigateThoughtTail, Some(MakeAction(Navigate, Some(GoogleUrl), None)))
      else
        (InspectThought, Some(MakeAction(GetDom, None, None)))
    else if Failed(observation) then
      (RetryThought, Some(MakeAction(Screenshot, None, None)))
    else
      (EnoughThought, None)
  }

  /** The first round always acts, by searching, navigating or reading the page; its plan and
      its action agree on whether the input asks for a search. */
  lemma FirstRoundActs(input: string, observation: Option<string>)
    ensures var a := ThoughtFor(1, input, observation).1;
      a.Some? && (a.value.kind == Search || a.value.kind == Navigate || a.value.kind == GetDom)
    ensures var a := ThoughtFor(1, input, observation).1;
      a.Some? && (a.value.kind == Search <==> PlanFor(input) == SearchPlan)
    ensures var a := ThoughtFor(1, input, observation).1;
      a.Some? && a.value.kind == Navigate ==> PlanFor(input) == NavigatePlan
  {
    assert |SearchPlan| != |NavigatePlan| && |SearchPlan| != |DefaultPlan|;
  }

  /** After the first round the agent only takes a screenshot, and only when the previous
      round failed; otherwise it plans no action, which ends the run. */
  lemma LaterRoundsRetryOnFailure(loopCount: int, input: string, observation: Option<string>)
    requires loopCount != 1
    ensures var a := ThoughtFor(loopCount, input, observation).1;
      (a.Some? <==> Failed(observation)) && (a.Some? ==> a.value == MakeAction(Screenshot, None, None))
  {
  }

  // ---------------------------------------------------------------- action

  /** The length the GET_DOM report quotes: the page content's, or 0 when there is none. */
  function ContentLength(data: Option<string>): (n: nat)
    ensures data.Some? ==> n == |data.value|
    ensures data.None? ==> n == 0
  {
    if data.Some? then |data.value| else 0
  }

  /** `_action_step` once `execute_action` has answered `r` for `a`; `text` is the page text read
      after a successful search. */
  function ObservationFor(a: Action, r: ExecResult, text: Option<string>): string {
    if !r.success then ActionFailed + r.message
    else if a.kind == Search then
      SearchDone + ResultLabel + (if text.Some? && text.value != "" then Take(text.value, 200) else NoContent) + "..."
    else if a.kind == GetDom then
      PageDone + LengthLabel + NatToString(ContentLength(r.data)) + CharUnit
    else r.message
  }

  /** What `_action_step` observes for the planned action, if any. */
  function Observe(action: Option<Action>, execute: Action -> ExecResult, textAfter: Action -> Option<string>): string {
    if action.None? then NoActionObservation
    else ObservationFor(action.value, execute(action.value), textAfter(action.value))
  }

  /** `sub` inside a prefix is inside the whole text. */
  lemma ContainsInPrefix(p: string, x: string, sub: string, i: nat)
    requires OccursAt(p, sub, i)
    ensures Contains(p + x, sub)
  {
    assert (p + x)[i..i + |sub|] == p[i..i + |sub|];
    ContainsWitness(p + x, sub, i);
  }

  lemma FailureMarked(message: string)
    ensures Contains(ActionFailed + message, FailWord)
  {
    assert ActionFailed[3..5] == FailWord;
    ContainsInPrefix(ActionFailed, message, FailWord, 3);
  }

  /** A failed action is reported as a failure, explained as a problem, and makes the next round
      retry with a screenshot. */
  lemma FailedActionRetries(a: Action, r: ExecResult, text: Option<string>, input: string, loopCount: int)
    requires !r.success && loopCount != 1
    ensures ObservationFor(a, r, text) == ActionFailed + r.message
    ensures ExplanationFor(Some(ObservationFor(a, r, text)), Some(a)) == ProblemPrefix + ObservationFor(a, r, text)
    ensures ThoughtFor(loopCount, input, Some(ObservationFor(a, r, text))).1 == Some(MakeAction(Screenshot, None, None))
  {
    FailureMarked(r.message);
  }

  /** A successful search or page read is reported with its completion marker, and so ends the
      run at the critique of the same round. */
  lemma SuccessEndsRun(a: Action, r: ExecResult, text: Option<string>, loopCount: int)
    requires r.success && (a.kind == Search || a.kind == GetDom)
    ensures CritiqueDone(Some(ObservationFor(a, r, text)), loopCount, Some(a))
  {
    var o := ObservationFor(a, r, text);
    if a.kind == Search {
      var rest := ResultLabel + (if text.Some? && text.value != "" then Take(text.value, 200) else NoContent) + "...";
      assert o == SearchDone + rest;
      ContainsInPrefix(SearchDone, rest, SearchDone, 0);
    } else {
      var rest := LengthLabel + NatToString(ContentLength(r.data)) + CharUnit;
      assert o == PageDone + rest;
      ContainsInPrefix(PageDone, rest, PageDone, 0);
    }
  }

  // ---------------------------------------------------------------- explanation

  /** `_explanation_step`. */
  function ExplanationFor(observation: Option<string>, action: Option<Action>): string {
    if observation.None? || observation.value == "" then NoObservation
    else
      var o := observation.value;
      if Contains(o, FailWord) || Contains(o, ErrorWord) then ProblemPrefix + o
      else if action.Some? && action.value.kind == Search then
        (if Contains(o, SearchDone) then SearchSucceeded + o else SearchFailed)
      else CompletedPrefix + o
  }

  /** The explanation is never empty, so a finished run reports it rather than the default. */
  lemma ExplanationNonEmpty(observation: Option<string>, action: Option<Action>)
    ensures ExplanationFor(observation, action) != ""
  {
  }

  // ---------------------------------------------------------------- critique

  /** `_critique_step`: done on a completion marker, from the second round on, or when the round
      planned no action. */
  predicate CritiqueDone(observation: Option<string>, loopCount: int, action: Option<Action>) {
    var o := if observation.Some? then observation.value else "";
    Contains(o, SearchDone) || Contains(o, PageDone) || loopCount >= 2 || action.None?
  }

  // ---------------------------------------------------------------- the final response

  function ExplanationOr(explanation: Option<string>): string {
    if explanation.Some? && explanation.value != "" then explanation.value else CompletedDefault
  }

  function MaxLoopsMessage(maxLoops: int): string {
    MaxLoopsHead + IntToString(maxLoops) + MaxLoopsTail
  }

  // ---------------------------------------------------------------- search query

  const QueryKeywords: seq<string> := [SearchWord, FindWord, "\U{C54C}\U{B824}\U{C918}", "\U{BB50}\U{C57C}", "\U{C5B4}\U{B514}", "\U{C5B8}\U{C81C}", "\U{B204}\U{AD6C}"]

  lemma QueryKeywordsNonEmpty()
    ensures forall k :: 0 <= k < |QueryKeywords| ==> |QueryKeywords[k]| > 0
  {
  }

  /** `s.split(kw)[1]` when `kw` occurs in `s`: the text between its first and second
      occurrences, or up to the end. */
  function SegmentAfter(s: string, kw: string): (r: string)
    requires |kw| > 0 && Contains(s, kw)
    ensures !Contains(r, kw)
  {
    var i := IndexFrom(s, kw, 0).value;
    BeforeFirst(s[i + |kw|..], kw)
  }

  /** Splitting on a keyword that occurs gives at least two parts, and the second is
      `SegmentAfter`. */
  lemma SegmentIsSecondPart(s: string, kw: string)
    requires |kw| > 0 && Contains(s, kw)
    ensures |Split(s, kw)| > 1 && Split(s, kw)[1] == SegmentAfter(s, kw)
  {
  }

  /** Python's `s.replace(w, "")`: occurrences of `w` removed left to right without overlap. */
  function RemoveAll(s: string, w: string): (r: string)
    requires |w| > 0
    ensures |r| <= |s|
    ensures forall j :: 0 <= j < |r| ==> r[j] in s
    ensures |w| == 1 ==> w[0] !in r
    decreases |s|
  {
    if |s| < |w| then s
    else if s[..|w|] == w then RemoveAll(s[|w|..], w)
    else [s[0]] + RemoveAll(s[1..], w)
  }

  /** Text without an occurrence of `w` is left alone by removing `w`. */
  lemma {:induction false} RemoveAllNoop(s: string, w: string)
    requires |w| > 0
    requires forall j :: !OccursAt(s, w, j)
    ensures RemoveAll(s, w) == s
    decreases |s|
  {
    if |s| >= |w| {
      assert !OccursAt(s, w, 0);
      forall j ensures !OccursAt(s[1..], w, j) {
        if 0 <= j && j + |w| <= |s| - 1 {
          assert s[1..][j..j + |w|] == s[j + 1..j + 1 + |w|];
          assert !OccursAt(s, w, j + 1);
        }
      }
      RemoveAllNoop(s[1..], w);
    }
  }

  /** Every character `Strip` keeps comes from its input. */
  lemma StripKeeps(s: string)
    ensures forall j :: 0 <= j < |Strip(s)| ==> Strip(s)[j] in s
  {
    var a := PrefixRun(s, IsSpace);
    var t := s[a..];
    assert Strip(s) == t[..|t| - SuffixRun(t, IsSpace)];
    forall j | 0 <= j < |Strip(s)| ensures Strip(s)[j] in s {
      assert Strip(s)[j] == s[a + j];
    }
  }

  /** The removal of '?', '.' and "please", then a strip. */
  function Cleaned(q: string): (r: string)
    ensures '?' !in r && '.' !in r
  {
    var t := RemoveAll(RemoveAll(RemoveAll(q, "?"), "."), PleaseWord);
    StripKeeps(t);
    Strip(t)
  }

  function CleanSegment(s: string, kw: string): string
    requires |kw| > 0 && Contains(s, kw)
  {
    Cleaned(Strip(SegmentAfter(s, kw)))
  }

  /** A keyword that occurs and leaves something once its segment is cleaned. */
  predicate Usable(s: string, kw: string) {
    |kw| > 0 && Contains(s, kw) && CleanSegment(s, kw) != ""
  }

  /** The index of the first element that satisfies `p`, if there is one. */
  function FirstWhere<T>(keys: seq<T>, p: T -> bool): (r: Option<nat>)
    ensures r.Some? ==> r.value < |keys| && p(keys[r.value]) && forall j :: 0 <= j < r.value ==> !p(keys[j])
    ensures r.None? ==> forall j :: 0 <= j < |keys| ==> !p(keys[j])
  {
    if keys == [] then None
    else if p(keys[0]) then Some(0)
    else match FirstWhere(keys[1..], p)
      case None => None
      case Some(k) => Some(k + 1)
  }

  function UsableIn(s: string): string -> bool {
    kw => Usable(s, kw)
  }

  /** The cleaned segment of the first usable keyword, if any: never empty, and free of '?'
      and '.'. */
  function QueryFrom(s: string, keys: seq<string>): (r: Option<string>)
    ensures r.Some? ==> r.value != "" && '?' !in r.value && '.' !in r.value
  {
    match FirstWhere(keys, UsableIn(s))
    case None => None
    case Some(k) => Some(CleanSegment(s, keys[k]))
  }

  /** `_extract_search_query` on the lowered input. */
  function SearchQuery(s: string): string {
    match QueryFrom(s, QueryKeywords)
    case Some(q) => q
    case None => Strip(RemoveAll(s, "?"))
  }

  /** The search query never holds a '?', whichever way it was found. */
  lemma QueryHasNoQuestionMark(s: string)
    ensures '?' !in SearchQuery(s)
  {
    StripKeeps(RemoveAll(s, "?"));
  }

  /** `FirstWhere` is the first index that satisfies `p`, and finds none exactly when no
      element does. */
  lemma FirstWhereAt<T>(keys: seq<T>, p: T -> bool, i: nat)
    requires i < |keys| && p(keys[i])
    requires forall j :: 0 <= j < i ==> !p(keys[j])
    ensures FirstWhere(keys, p) == Some(i)
  {
  }

  lemma FirstWhereNone<T>(keys: seq<T>, p: T -> bool)
    requires forall j :: 0 <= j < |keys| ==> !p(keys[j])
    ensures FirstWhere(keys, p).None?
  {
  }

  predicate NoneUsableBefore(s: string, keys: seq<string>, i: nat)
    requires i <= |keys|
  {
    forall j :: 0 <= j < i ==> !UsableIn(s)(keys[j])
  }

  lemma NoneUsableStep(s: string, keys: seq<string>, i: nat)
    requires i < |keys| && NoneUsableBefore(s, keys, i) && !Usable(s, keys[i])
    ensures NoneUsableBefore(s, keys, i + 1)
  {
    assert !UsableIn(s)(keys[i]);
  }

  /** The keyword loop of `_extract_search_query`: the first keyword, in order, whose cleaned
      segment is not empty gives the query. */
  method FirstQuery(userInput: string, keys: seq<string>) returns (query: Option<string>)
    requires forall k :: 0 <= k < |keys| ==> |keys[k]| > 0
    ensures query == QueryFrom(userInput, keys)
  {
    var i := 0;
    while i < |keys|
      invariant 0 <= i <= |keys|
      invariant NoneUsableBefore(userInput, keys, i)
    {
      var keyword := keys[i];
      if Contains(userInput, keyword) {
        var parts := Split(userInput, keyword);
        SegmentIsSecondPart(userInput, keyword);
        if |parts| > 1 {
          var q := Strip(parts[1]);
          q := Cleaned(q);
          if q != "" {
            FirstWhereAt(keys, UsableIn(userInput), i);
            return Some(q);
          }
        }
      }
      NoneUsableStep(userInput, keys, i);
      i := i + 1;
    }
    FirstWhereNone(keys, UsableIn(userInput));
    return None;
  }

  /** `_extract_search_query`: the keyword's query, or else the whole input without '?'. */
  method ExtractSearchQuery(userInput: string) returns (query: string)
    ensures query == SearchQuery(userInput)
  {
    QueryKeywordsNonEmpty();
    var found := FirstQuery(userInput, QueryKeywords);
    if found.Some? {
      return found.value;
    }
    query := Strip(RemoveAll(userInput, "?"));
  }

  // ---------------------------------------------------------------- the agent

  /** `AgentQ`: the agent and the state of its current run. */
  class AgentQ {
    var state: AgentState?

    constructor()
      ensures state == null
    {
      state := null;
    }

    /** `_plan_step`. */
    method PlanStep()
      requires state != null
      modifies state`plan
      ensures state.plan == Some(PlanFor(state.userInput))
    {
      var u := Lower(state.userInput);
      if Contains(u, SearchWord) || Contains(u, FindWord) {
        state.plan := Some(SearchPlan);
      } else if Contains(u, MoveWord) || Contains(u, GoWord) {
        state.plan := Some(NavigatePlan);
      } else {
        state.plan := Some(DefaultPlan);
      }
    }

    /** `_thought_step`: the thought and action `ThoughtFor` gives for this round. */
    method ThoughtStep()
      requires state != null
      modifies state`thought, state`action
      ensures state.thought == Some(ThoughtFor(state.loopCount, state.userInput, state.observation).0)
      ensures state.action == ThoughtFor(state.loopCount, state.userInput, state.observation).1
    {
      var u := Lower(state.userInput);
      if state.loopCount == 1 {
        if Contains(u, SearchWord) || Contains(u, FindWord) {
          var q := ExtractSearchQuery(u);
          state.thought := Some("'" + q + SearchThoughtTail);
          state.action := Some(MakeAction(Search, None, Some(q)));
        } else if Contains(u, MoveWord) {
          var url := GoogleUrl;
          state.thought := Some("'" + url + NavigateThoughtTail);
          state.action := Some(MakeAction(Navigate, Some(url), None));
        } else {
          state.thought := Some(InspectThought);
          state.action := Some(MakeAction(GetDom, None, None));
        }
      } else if state.observation.None? || state.observation.value == "" || Contains(state.observation.value, FailWord) {
        state.thought := Some(RetryThought);
        state.action := Some(MakeAction(Screenshot, None, None));
      } else {
        state.thought := Some(EnoughThought);
        state.action := None;
      }
    }

    /** `_action_step`: with no action nothing is executed; otherwise the action is executed
        once and its result reported. `calls` lists the actions handed to `execute_action`. */
    method ActionStep(execute: Action -> ExecResult, textAfter: Action -> Option<string>) returns (calls: seq<Action>)
      requires state != null
      modifies state`observation
      ensures state.action.None? ==> calls == [] && state.observation == Some(NoActionObservation)
      ensures state.action.Some? ==> calls == [state.action.value]
      ensures state.action.Some? ==>
        state.observation == Some(ObservationFor(state.action.value, execute(state.action.value), textAfter(state.action.value)))
    {
      if state.action.None? {
        state.observation := Some(NoActionObservation);
        return [];
      }
      var a := state.action.value;
      var result := execute(a);
      calls := [a];
      if result.success {
        if a.kind == Search {
          var text := textAfter(a);
          state.observation := Some(SearchDone + ResultLabel + (if text.Some? && text.value != "" then Take(text.value, 200) else NoContent) + "...");
        } else if a.kind == GetDom {
          var content := result.data;
          state.observation := Some(PageDone + LengthLabel + NatToString(if content.Some? then |content.value| else 0) + CharUnit);
        } else {
          state.observation := Some(result.message);
        }
      } else {
        state.observation := Some(ActionFailed + result.message);
      }
    }

    /** `_explanation_step`. */
    method ExplanationStep()
      requires state != null
      modifies state`explanation
      ensures state.explanation == Some(ExplanationFor(state.observation, state.action))
    {
      if state.observation.None? || state.observation.value == "" {
        state.explanation := Some(NoObservation);
      } else {
        var o := state.observation.value;
        if Contains(o, FailWord) || Contains(o, ErrorWord) {
          state.explanation := Some(ProblemPrefix + o);
        } else if state.action.Some? && state.action.value.kind == Search {
          if Contains(o, SearchDone) {
            state.explanation := Some(SearchSucceeded + o);
          } else {
            state.explanation := Some(SearchFailed);
          }
        } else {
          state.explanation := Some(CompletedPrefix + o);
        }
      }
    }

    /** `_critique_step`. */
    method CritiqueStep()
      requires state != null
      modifies state`done
      ensures state.done == CritiqueDone(state.observation, state.loopCount, state.action)
    {
      var o := if state.observation.Some? then state.observation.value else "";
      state.done := Contains(o, SearchDone) || Contains(o, PageDone) || state.loopCount >= 2 || state.action.None?;
    }

    /** `execute`: plan once, then run rounds while not done and under the loop budget. The run
        succeeds exactly when the critique said done; it never takes more than two rounds nor
        more than the budget, and with a budget of two or more (the default is five) it always
        succeeds. */
    method Execute(userInput: string, maxLoops: int, execute: Action -> ExecResult, textAfter: Action -> Option<string>)
      returns (response: AgentResponse)
      modifies this
      ensures state != null && fresh(state) && response.state == state && response.error.None?
      ensures state.userInput == userInput && state.maxLoops == maxLoops
      ensures state.plan == Some(PlanFor(userInput))
      ensures response.success == state.done
      ensures response.success ==> response.message == ExplanationOr(state.explanation)
      ensures !response.success ==> response.message == MaxLoopsMessage(maxLoops)
      ensures !response.success ==> state.loopCount == (if maxLoops > 0 then maxLoops else 0)
      ensures 0 <= state.loopCount <= 2 && state.loopCount <= (if maxLoops > 0 then maxLoops else 0)
      ensures maxLoops > 0 ==> state.loopCount >= 1
      ensures maxLoops >= 2 ==> response.success
    {
      var s := new AgentState(userInput, maxLoops);
      state := s;
      PlanStep();
      RunRounds(execute, textAfter);
      if s.done {
        response := AgentResponse(true, ExplanationOr(s.explanation), s, None);
      } else {
        response := AgentResponse(false, MaxLoopsMessage(s.maxLoops), s, None);
      }
    }

    /** The main loop of `execute`, from a fresh state: rounds run while not done and under the
        budget, one more loop counted per round. */
    method RunRounds(execute: Action -> ExecResult, textAfter: Action -> Option<string>)
      requires state != null && state.loopCount == 0 && !state.done
      modifies state`loopCount, state`thought, state`action, state`observation, state`explanation, state`done
      ensures 0 <= state.loopCount <= 2 && state.loopCount <= (if state.maxLoops > 0 then state.maxLoops else 0)
      ensures state.maxLoops > 0 ==> state.loopCount >= 1
      ensures state.done || state.loopCount == (if state.maxLoops > 0 then state.maxLoops else 0)
      ensures state.maxLoops >= 2 ==> state.done
    {
      while !state.done && state.loopCount < state.maxLoops
        invariant 0 <= state.loopCount <= 2 && state.loopCount <= (if state.maxLoops > 0 then state.maxLoops else 0)
        invariant state.loopCount == 0 ==> !state.done
        invariant state.loopCount == 2 ==> state.done
        decreases state.maxLoops - state.loopCount
      {
        var _ := Round(execute, textAfter);
        if state.done {
          break;
        }
      }
    }

    /** One round of the main loop: one more loop counted, then Thought, Action, Explanation
        and Critique, each reading what the previous one wrote. */
    method Round(execute: Action -> ExecResult, textAfter: Action -> Option<string>) returns (calls: seq<Action>)
      requires state != null
      modifies state`loopCount, state`thought, state`action, state`observation, state`explanation, state`done
      ensures state.loopCount == old(state.loopCount) + 1
      ensures state.thought == Some(ThoughtFor(state.loopCount, state.userInput, old(state.observation)).0)
      ensures state.action == ThoughtFor(state.loopCount, state.userInput, old(state.observation)).1
      ensures state.observation == Some(Observe(state.action, execute, textAfter))
      ensures calls == if state.action.Some? then [state.action.value] else []
      ensures state.explanation == Some(ExplanationFor(state.observation, state.action))
      ensures state.done == CritiqueDone(state.observation, state.loopCount, state.action)
    {
      calls := Act(execute, textAfter);
      ExplanationStep();
      CritiqueStep();
    }

    /** The first half of a round: the loop is counted, the next action chosen and executed. */
    method Act(execute: Action -> ExecResult, textAfter: Action -> Option<string>) returns (calls: seq<Action>)
      requires state != null
      modifies state`loopCount, state`thought, state`action, state`observation
      ensures state.loopCount == old(state.loopCount) + 1
      ensures state.thought == Some(ThoughtFor(state.loopCount, state.userInput, old(state.observation)).0)
      ensures state.action == ThoughtFor(state.loopCount, state.userInput, old(state.observation)).1
      ensures state.observation == Some(Observe(state.action, execute, textAfter))
      ensures calls == if state.action.Some? then [state.action.value] else []
    {
      state.loopCount := state.loopCount + 1;
      ThoughtStep();
      calls := ActionStep(execute, textAfter);
    }
  }
}
