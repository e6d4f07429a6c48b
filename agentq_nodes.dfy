/**
 * The AgentQ graph nodes (AgentQ/agentq/nodes.py) that count loops and decide when the run
 * ends: thought, action and critique, and the two routing functions.
 *
 * The model reply and the tool call are parameters: a reply is `Ok(text)` or `Err(message)`
 * for the exception the call raised, and the tool is a function from a command to its
 * result or to the message of the exception it raised. `clean_response` is a parameter too.
 * The state is updated in place, and the dictionary a node returns is applied to it as well.
 */
module AgentQNodes {
  import opened Wrappers
  import opened Text
  import opened AgentQCommands
  import opened AgentQState
  import opened AgentQPrompt

  /** The `data` of a tool result: absent or empty, a page (`url`, `title` and `content`,
      each only when the dictionary has the key), or a text. */
  datatype ToolData = NoData | PageData(url: Option<string>, title: Option<string>, content: Option<string>) | TextData(text: string)

  /** What `execute_action` returns. */
  datatype ToolResult = ToolResult(success: bool, message: string, data: ToolData)

  const ThoughtErrorPrefix := "Thought \U{B178}\U{B4DC} \U{C2E4}\U{D589} \U{C911} \U{C624}\U{B958}: "
  const ThoughtFailed := "\U{B2E4}\U{C74C} \U{D589}\U{B3D9}\U{C744} \U{ACB0}\U{C815}\U{D558}\U{B294}\U{B370} \U{C2E4}\U{D328}\U{D588}\U{C2B5}\U{B2C8}\U{B2E4}."
  const NoAction := "\U{C2E4}\U{D589}\U{D560} \U{C561}\U{C158}\U{C774} \U{C5C6}\U{C2B5}\U{B2C8}\U{B2E4}."
  const PageContentLabel := "\n\U{D398}\U{C774}\U{C9C0} \U{B0B4}\U{C6A9}: "
  const TextLabel := "\n\U{ACB0}\U{ACFC}: "
  const ActionFailedPrefix := "\U{C561}\U{C158} \U{C2E4}\U{D328}: "
  const ActionCrashedPrefix := "\U{C561}\U{C158} \U{C2E4}\U{D589} \U{C911} \U{C624}\U{B958}\U{AC00} \U{BC1C}\U{C0DD}\U{D588}\U{C2B5}\U{B2C8}\U{B2E4}: "
  const ActionErrorPrefix := "Action \U{B178}\U{B4DC} \U{C2E4}\U{D589} \U{C911} \U{C624}\U{B958}: "
  const CritiqueErrorPrefix := "Critique \U{B178}\U{B4DC} \U{C2E4}\U{D589} \U{C911} \U{C624}\U{B958}: "
  const OpenTableNote := "\nHeuristic: OpenTable success indicators found."
  const OpenTableWords: seq<string> := ["reservation confirmed", "complete reservation", "you're all set"]

  /** The note added when the loop budget ends the run. */
  function MaxLoopsNote(maxLoops: int): string {
    "\n\U{CD5C}\U{B300} \U{B8E8}\U{D504} \U{D69F}\U{C218}(" + IntToString(maxLoops)
    + ")\U{C5D0} \U{B3C4}\U{B2EC}\U{D558}\U{C5EC} \U{C885}\U{B8CC}\U{D569}\U{B2C8}\U{B2E4}."
  }

  // ---------------------------------------------------------------- thought_node

  /** What `thought_node` writes to the scratchpad after an answer: the thought, and the action
      when there is one, both under loop `n`. */
  function ThoughtEntries(n: int, thought: string, action: Option<Command>): seq<string> {
    [ThoughtEntry(n, thought)] + (if action.Some? then [ActionEntry(n, action.value)] else [])
  }

  /** `thought_node`: it counts one more loop first, then stores the thought and the action the
      reply asks for and writes them to the scratchpad under the new loop number; when the
      model call fails, it stores the fixed failure thought and no action, and counts the
      error. It returns the action, which it also stores. */
  method ThoughtNode(state: GraphState, reply: Result<string>, clean: string -> string) returns (action: Option<Command>)
    modifies state`loopCount, state`thought, state`action, state`scratchpad, state`lastError, state`errorCount
    ensures state.loopCount == old(state.loopCount) + 1
    ensures state.action == action
    ensures reply.Ok? ==> action == ActionOf(reply.value)
    ensures reply.Err? ==> action.None?
    ensures reply.Ok? ==>
      && state.thought == Some(clean(reply.value))
      && state.scratchpad == old(state.scratchpad) + ThoughtEntries(state.loopCount, clean(reply.value), action)
      && state.lastError == old(state.lastError) && state.errorCount == old(state.errorCount)
    ensures reply.Err? ==>
      && state.thought == Some(ThoughtFailed) && state.scratchpad == old(state.scratchpad)
      && state.lastError == Some(ThoughtErrorPrefix + reply.error) && state.errorCount == old(state.errorCount) + 1
  {
    match reply
    case Ok(response) =>
      // The extraction reads only the reply, so taking it before the count changes nothing.
      action := ExtractAction(response);
      state.IncrementLoopCount();
      RecordThought(state, clean(response), action);
    case Err(e) =>
      state.IncrementLoopCount();
      state.AddError(ThoughtErrorPrefix + e);
      state.thought := Some(ThoughtFailed);
      state.action := None;
      action := None;
  }

  /** Stores the thought and the action and writes them to the scratchpad. */
  method RecordThought(state: GraphState, thought: string, action: Option<Command>)
    modifies state`thought, state`action, state`scratchpad
    ensures state.thought == Some(thought) && state.action == action
    ensures state.scratchpad == old(state.scratchpad) + ThoughtEntries(state.loopCount, thought, action)
  {
    state.thought := Some(thought);
    state.action := action;
    AddThought(state, thought);
    if action.Some? {
      AddAction(state, action.value);
    }
  }

  /** The entries read back as the thought and, exactly when there is an action, the action,
      both under the loop number they were written for. */
  lemma ThoughtEntriesStamped(n: nat, thought: string, action: Option<Command>)
    ensures var es := ThoughtEntries(n, thought, action);
      && |es| == (if action.Some? then 2 else 1)
      && ReadEntry(es[0], "THOUGHT") == Some((n, thought))
      && (action.Some? ==> ReadEntry(es[1], "ACTION") == Some((n, ActionText(action.value))))
  {
    ReadEntryOf("THOUGHT", n, thought);
    if action.Some? {
      ReadEntryOf("ACTION", n, ActionText(action.value));
    }
  }

  // ---------------------------------------------------------------- action_node

  /** The observation a finished tool call makes: the message, with a page's content or a
      text result shown up to its first 200 characters; a failure is reported with its
      message. */
  function ToolObservation(r: ToolResult): string {
    if !r.success then ActionFailedPrefix + r.message
    else match r.data
      case PageData(_, _, content) =>
        if content.Some? then r.message + PageContentLabel + Take(content.value, 200) + "..." else r.message
      case TextData(text) =>
        if text != "" then r.message + TextLabel + Take(text, 200) + "..." else r.message
      case NoData => r.message
  }

  /** A page field after a tool call: replaced when the call succeeded with a page that has
      the key, kept otherwise. */
  function PageField(r: ToolResult, value: ToolData -> Option<string>, previous: Option<string>): Option<string> {
    if r.success && r.data.PageData? && value(r.data).Some? then value(r.data) else previous
  }

  function UrlOf(d: ToolData): Option<string> { if d.PageData? then d.url else None }
  function TitleOf(d: ToolData): Option<string> { if d.PageData? then d.title else None }
  /** The stored page content: its first 500 characters. */
  function ContentOf(d: ToolData): Option<string> {
    if d.PageData? && d.content.Some? then Some(Take(d.content.value, 500)) else None
  }

  /** `action_node`. Without an action it records the fixed observation and calls no tool;
      otherwise it hands the action to the tool once, records what came back, and clears the
      last error on success or counts the error the tool raised. Each call writes one
      observation entry. It returns the commands handed to the tool. */
  method ActionNode(state: GraphState, execute: Command -> Result<ToolResult>) returns (calls: seq<Command>)
    modifies state`observation, state`scratchpad, state`currentUrl, state`pageTitle, state`pageContent
    modifies state`lastError, state`errorCount
    ensures state.observation.Some?
    ensures state.scratchpad == old(state.scratchpad) + [ObservationEntry(state.loopCount, state.observation.value)]
    ensures old(state.action).None? ==>
      && calls == [] && state.observation == Some(NoAction)
      && unchanged(state`currentUrl, state`pageTitle, state`pageContent, state`lastError, state`errorCount)
    ensures old(state.action).Some? ==> calls == [old(state.action).value]
    ensures old(state.action).Some? && execute(old(state.action).value).Ok? ==>
      var r := execute(old(state.action).value).value;
      && state.observation == Some(ToolObservation(r))
      && state.currentUrl == PageField(r, UrlOf, old(state.currentUrl))
      && state.pageTitle == PageField(r, TitleOf, old(state.pageTitle))
      && state.pageContent == PageField(r, ContentOf, old(state.pageContent))
      && state.lastError == (if r.success then None else old(state.lastError))
      && state.errorCount == old(state.errorCount)
    ensures old(state.action).Some? && execute(old(state.action).value).Err? ==>
      var e := execute(old(state.action).value).error;
      && state.observation == Some(ActionCrashedPrefix + e)
      && state.lastError == Some(ActionErrorPrefix + e) && state.errorCount == old(state.errorCount) + 1
      && unchanged(state`currentUrl, state`pageTitle, state`pageContent)
  {
    if state.action.None? {
      state.observation := Some(NoAction);
      AddObservation(state, NoAction);
      return [];
    }
    var cmd := state.action.value;
    calls := [cmd];
    var outcome := execute(cmd);
    match outcome
    case Ok(r) =>
      RecordToolResult(state, r);
    case Err(e) =>
      var observation := ActionCrashedPrefix + e;
      state.observation := Some(observation);
      state.AddError(ActionErrorPrefix + e);
      AddObservation(state, observation);
  }

  /** The part of `action_node` after the tool returned. */
  method RecordToolResult(state: GraphState, r: ToolResult)
    modifies state`observation, state`scratchpad, state`currentUrl, state`pageTitle, state`pageContent, state`lastError
    ensures state.observation == Some(ToolObservation(r))
    ensures state.scratchpad == old(state.scratchpad) + [ObservationEntry(state.loopCount, ToolObservation(r))]
    ensures state.currentUrl == PageField(r, UrlOf, old(state.currentUrl))
    ensures state.pageTitle == PageField(r, TitleOf, old(state.pageTitle))
    ensures state.pageContent == PageField(r, ContentOf, old(state.pageContent))
    ensures state.lastError == (if r.success then None else old(state.lastError))
  {
    var observation := r.message;
    if r.success {
      match r.data
      case PageData(url, title, content) =>
        if url.Some? {
          state.currentUrl := url;
        }
        if title.Some? {
          state.pageTitle := title;
        }
        if content.Some? {
          state.pageContent := Some(Take(content.value, 500));
          observation := observation + PageContentLabel + Take(content.value, 200) + "...";
        }
      case TextData(text) =>
        if text != "" {
          observation := observation + TextLabel + Take(text, 200) + "...";
        }
      case NoData =>
    } else {
      observation := ActionFailedPrefix + r.message;
    }
    state.observation := Some(observation);
    AddObservation(state, observation);
    if r.success {
      state.ClearError();
    }
  }

  /** A successful call keeps its message at the head of the observation, and stores as page
      content a prefix of the page's content of at most 500 characters. */
  lemma ToolSuccess(r: ToolResult, previous: Option<string>)
    requires r.success
    ensures StartsWith(ToolObservation(r), r.message)
    ensures r.data.PageData? && r.data.content.Some? ==>
      var c := PageField(r, ContentOf, previous);
      c.Some? && |c.value| <= 500 && StartsWith(r.data.content.value, c.value)
  {
    var obs := ToolObservation(r);
    assert obs[..|r.message|] == r.message;
  }

  /** A failed call is reported as a failure with its message, and the page fields stay as
      they were. */
  lemma ToolFailure(r: ToolResult, previous: Option<string>)
    requires !r.success
    ensures ToolObservation(r) == ActionFailedPrefix + r.message
    ensures PageField(r, UrlOf, previous) == previous
    ensures PageField(r, TitleOf, previous) == previous
    ensures PageField(r, ContentOf, previous) == previous
  {
  }

  /** The observation entry of a call reads back under the loop it was written in, and shows
      the observation whole when it is short. */
  lemma ObservationStamped(n: nat, observation: string)
    requires |observation| <= 100
    ensures ReadEntry(ObservationEntry(n, observation), "OBSERVATION") == Some((n, observation + "..."))
  {
    ReadEntryOf("OBSERVATION", n, Take(observation, 100) + "...");
  }

  // ---------------------------------------------------------------- critique_node

  /** The OpenTable rule: a page of opentable.com whose content mentions a finished
      reservation. */
  predicate OpenTableSuccess(url: Option<string>, content: Option<string>) {
    var u := if url.Some? then url.value else "";
    var text := Lower(if content.Some? then content.value else "");
    Contains(u, "opentable.com") && exists k :: 0 <= k < |OpenTableWords| && Contains(text, OpenTableWords[k])
  }

  /** The decision of `critique_node` on a reply, and the critique it records. */
  function Critique(response: string, clean: string -> string, url: Option<string>, content: Option<string>,
                    loopCount: int, maxLoops: int): (bool, string)
  {
    var heuristic := OpenTableSuccess(url, content);
    var atLimit := loopCount >= maxLoops;
    var noted := if heuristic then clean(response) + OpenTableNote else clean(response);
    (CritiqueDecision(response) || heuristic || atLimit, if atLimit then noted + MaxLoopsNote(maxLoops) else noted)
  }

  /** `critique_node`: after an answer the decision is stored and written to the scratchpad;
      a failed model call ends the run and counts the error. */
  method CritiqueNode(state: GraphState, reply: Result<string>, clean: string -> string)
    modifies state`done, state`scratchpad, state`lastError, state`errorCount
    ensures reply.Ok? ==>
      var (done, critique) := Critique(reply.value, clean, state.currentUrl, state.pageContent, state.loopCount, state.maxLoops);
      && state.done == done
      && state.scratchpad == old(state.scratchpad) + [CritiqueEntry(state.loopCount, critique, done)]
      && unchanged(state`lastError, state`errorCount)
    ensures reply.Err? ==>
      && state.done && state.scratchpad == old(state.scratchpad)
      && state.lastError == Some(CritiqueErrorPrefix + reply.error) && state.errorCount == old(state.errorCount) + 1
  {
    match reply
    case Ok(response) =>
      var done, critique := Decide(response, clean, state.currentUrl, state.pageContent, state.loopCount, state.maxLoops);
      state.done := done;
      AddCritique(state, critique, done);
    case Err(e) =>
      state.done := true;
      state.AddError(CritiqueErrorPrefix + e);
  }

  /** The decision and the critique text, taking the OpenTable rule and the loop budget into
      account. */
  method Decide(response: string, clean: string -> string, currentUrl: Option<string>, pageContent: Option<string>,
                loopCount: int, maxLoops: int) returns (done: bool, critique: string)
    ensures (done, critique) == Critique(response, clean, currentUrl, pageContent, loopCount, maxLoops)
  {
    critique := clean(response);
    done := CritiqueDecision(response);
    var url := if currentUrl.Some? then currentUrl.value else "";
    var text := Lower(if pageContent.Some? then pageContent.value else "");
    var found := false;
    if Contains(url, "opentable.com") {
      found := AnyOccurs(text, OpenTableWords);
      if found {
        done := true;
        critique := critique + OpenTableNote;
      }
    }
    assert found == OpenTableSuccess(currentUrl, pageContent);
    if loopCount >= maxLoops {
      done := true;
      critique := critique + MaxLoopsNote(maxLoops);
    }
  }

  /** `any(k in text for k in words)`. */
  method AnyOccurs(text: string, words: seq<string>) returns (found: bool)
    ensures found <==> exists k :: 0 <= k < |words| && Contains(text, words[k])
  {
    found := false;
    var k := 0;
    while k < |words| && !found
      invariant 0 <= k <= |words|
      invariant found <==> exists j :: 0 <= j < k && Contains(text, words[j])
    {
      found := Contains(text, words[k]);
      k := k + 1;
    }
  }

  /** The run ends once the loop budget is used up, whatever the critique says, and the
      critique then says why. */
  lemma LoopBudgetEndsRun(response: string, clean: string -> string, url: Option<string>, content: Option<string>,
                          loopCount: int, maxLoops: int)
    requires loopCount >= maxLoops
    ensures var (done, critique) := Critique(response, clean, url, content, loopCount, maxLoops);
      done && EndsWith(critique, MaxLoopsNote(maxLoops))
  {
  }

  /** Within the budget, the run ends exactly when the reply says so or the OpenTable rule
      fires, and the scratchpad entry says COMPLETE exactly then. */
  lemma CritiqueDoneIff(response: string, clean: string -> string, url: Option<string>, content: Option<string>,
                        loopCount: nat, maxLoops: int)
    ensures var (done, critique) := Critique(response, clean, url, content, loopCount, maxLoops);
      && (done <==> CritiqueDecision(response) || OpenTableSuccess(url, content) || loopCount >= maxLoops)
      && ReadEntry(CritiqueEntry(loopCount, critique, done), "CRITIQUE").Some?
      && (StartsWith(ReadEntry(CritiqueEntry(loopCount, critique, done), "CRITIQUE").value.1, "COMPLETE") <==> done)
  {
    var (done, critique) := Critique(response, clean, url, content, loopCount, maxLoops);
    CritiqueEntryStatus(loopCount, critique, done);
  }

  /** The OpenTable rule reads the page's content without case, and never fires away from
      opentable.com. */
  lemma OpenTableCase(url: Option<string>, content: string)
    ensures OpenTableSuccess(url, Some(Lower(content))) == OpenTableSuccess(url, Some(content))
    ensures (url.None? || !Contains(url.value, "opentable.com")) ==> !OpenTableSuccess(url, Some(content))
  {
    LowerIdempotent(content);
  }

  // ---------------------------------------------------------------- routing

  /** `should_continue`: the run ends when it is done, and goes back to thought otherwise. */
  function ShouldContinue(done: bool): (next: string)
    ensures next == "end" <==> done
    ensures next == "thought" <==> !done
  {
    if done then "end" else "thought"
  }

  /** `check_max_loops`: once the budget is used up the action is skipped and the critique
      ends the run. */
  function CheckMaxLoops(loopCount: int, maxLoops: int): (next: string)
    ensures next == "critique" <==> loopCount >= maxLoops
    ensures next == "action" <==> loopCount < maxLoops
  {
    if loopCount >= maxLoops then "critique" else "action"
  }

  /** A thought routed to critique because of the budget ends the run there, whatever the
      critique answers. */
  lemma BudgetRouteEnds(response: string, clean: string -> string, url: Option<string>, content: Option<string>,
                        loopCount: int, maxLoops: int)
    requires CheckMaxLoops(loopCount, maxLoops) == "critique"
    ensures ShouldContinue(Critique(response, clean, url, content, loopCount, maxLoops).0) == "end"
  {
    LoopBudgetEndsRun(response, clean, url, content, loopCount, maxLoops);
  }
}
