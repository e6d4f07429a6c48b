/**
 * The LangGraph state of AgentQ (AgentQ/agentq/state.py): one dictionary that the graph nodes
 * update in place, and the helpers that append to its scratchpad and keep its loop and error
 * counters.
 */
module AgentQState {
  import opened Wrappers
  import opened Text
  import opened AgentQCommands

  /** The defaults of `create_initial_state` and `get_scratchpad_content`. */
  const DefaultMaxLoops := 5
  const DefaultMaxEntries := 10

  class GraphState {
    var userInput: string
    var objective: string
    var plan: Option<string>
    var thought: Option<string>
    var action: Option<Command>
    var observation: Option<string>
    var explanation: Option<string>
    var done: bool
    var loopCount: int
    var maxLoops: int
    var currentUrl: Option<string>
    var pageTitle: Option<string>
    var pageContent: Option<string>
    var candidateCommands: seq<string>
    var lastCommand: Option<string>
    var status: Option<string>
    var minLoops: int
    var noProgressStreak: int
    var scratchpad: seq<string>
    var lastError: Option<string>
    var errorCount: int
    var sessionId: Option<string>

    /** `create_initial_state`: the objective is the question, nothing has happened yet, and
        at least three loops are asked for. The start time is not modelled. */
    constructor(input: string, maxLoopCount: int, session: Option<string>)
      ensures userInput == input && objective == input
      ensures plan.None? && thought.None? && action.None? && observation.None? && explanation.None?
      ensures !done && loopCount == 0 && maxLoops == maxLoopCount
      ensures currentUrl.None? && pageTitle.None? && pageContent.None?
      ensures candidateCommands == [] && lastCommand.None? && status.None?
      ensures minLoops == 3 && noProgressStreak == 0
      ensures scratchpad == [] && lastError.None? && errorCount == 0 && sessionId == session
    {
      userInput := input;
      objective := input;
      plan, thought, action, observation, explanation := None, None, None, None, None;
      done := false;
      loopCount := 0;
      maxLoops := maxLoopCount;
      currentUrl, pageTitle, pageContent := None, None, None;
      candidateCommands := [];
      lastCommand, status := None, None;
      minLoops := 3;
      noProgressStreak := 0;
      scratchpad := [];
      lastError := None;
      errorCount := 0;
      sessionId := session;
    }

    /** `add_to_scratchpad`: one entry at the end, and nothing else changes. */
    method AddToScratchpad(content: string)
      modifies this`scratchpad
      ensures scratchpad == old(scratchpad) + [content]
    {
      scratchpad := scratchpad + [content];
    }

    /** `get_scratchpad_content`. */
    function ScratchpadContent(maxEntries: int): string
      reads this
    {
      ScratchpadText(scratchpad, maxEntries)
    }

    /** `increment_loop_count`: one more loop, and nothing else changes. */
    method IncrementLoopCount()
      modifies this`loopCount
      ensures loopCount == old(loopCount) + 1
    {
      loopCount := loopCount + 1;
    }

    /** `add_error`: the error is remembered and counted. */
    method AddError(error: string)
      modifies this`lastError, this`errorCount
      ensures lastError == Some(error) && errorCount == old(errorCount) + 1
    {
      lastError := Some(error);
      errorCount := errorCount + 1;
    }

    /** `clear_error`: the last error is forgotten, but the count of errors stays. */
    method ClearError()
      modifies this`lastError
      ensures lastError.None?
    {
      lastError := None;
    }
  }

  // ---------------------------------------------------------------- the scratchpad text

  /** Python's `s[i:]` for any integer `i`: a negative `i` counts from the end. */
  function Suffix<T>(s: seq<T>, i: int): (r: seq<T>)
    ensures |r| <= |s| && r == s[|s| - |r|..]
    ensures |r| == if i < 0 then (if -i < |s| then -i else |s|) else if i < |s| then |s| - i else 0
  {
    if i < 0 then (if -i >= |s| then s else s[|s| + i..])
    else if i >= |s| then []
    else s[i..]
  }

  /** `scratchpad[-max_entries:]`. */
  function RecentEntries(pad: seq<string>, maxEntries: int): seq<string> {
    Suffix(pad, -maxEntries)
  }

  function Bulleted(entries: seq<string>): (r: seq<string>)
    ensures |r| == |entries|
    ensures forall j :: 0 <= j < |entries| ==> r[j] == "- " + entries[j]
  {
    seq(|entries|, j requires 0 <= j < |entries| => "- " + entries[j])
  }

  /** `get_scratchpad_content`: the recent entries, each behind "- ", one per line. */
  function ScratchpadText(pad: seq<string>, maxEntries: int): string {
    Join(Bulleted(RecentEntries(pad, maxEntries)), "\n")
  }

  /** A positive `max_entries` keeps the last `max_entries` entries (all of them when there are
      fewer). */
  lemma RecentAreLast(pad: seq<string>, maxEntries: int)
    requires maxEntries > 0
    ensures var r := RecentEntries(pad, maxEntries);
      |r| == (if maxEntries < |pad| then maxEntries else |pad|) && r == pad[|pad| - |r|..]
  {
  }

  /** `max_entries == 0` gives `scratchpad[-0:]`, which is the whole scratchpad, not none of
      it; a negative `max_entries` drops that many entries from the front instead. */
  lemma RecentZeroOrNegative(pad: seq<string>, maxEntries: int)
    requires maxEntries <= 0
    ensures RecentEntries(pad, maxEntries) == if -maxEntries >= |pad| then [] else pad[-maxEntries..]
  {
  }

  /** A line ended by "\n" is split off the front of the text. */
  lemma SplitLinesCons(p: string, t: string)
    requires forall j :: 0 <= j < |p| ==> !IsLineBreak(p[j])
    ensures SplitLines(p + "\n" + t) == [p] + SplitLines(t)
  {
    var s := p + "\n" + t;
    NextBreakAt(s, |p|);
    assert s[..|p|] == p;
    assert s[|p| + 1..] == t;
  }

  lemma NextBreakAt(s: string, i: nat)
    requires i < |s| && s[i] == '\n' && forall j :: 0 <= j < i ==> !IsLineBreak(s[j])
    ensures NextBreak(s, 0) == i
  {
  }

  /** Lines joined with "\n" split back into the same lines, provided none is empty or holds a
      line break. */
  lemma {:induction false} SplitLinesOfJoin(lines: seq<string>)
    requires forall k :: 0 <= k < |lines| ==> lines[k] != ""
    requires NoBreaks(lines)
    ensures SplitLines(Join(lines, "\n")) == lines
  {
    if |lines| == 1 {
      SplitLinesSingle(lines[0]);
    } else if |lines| > 1 {
      var rest := lines[1..];
      assert Join(lines, "\n") == lines[0] + "\n" + Join(rest, "\n");
      assert lines == [lines[0]] + rest;
      SplitLinesCons(lines[0], Join(rest, "\n"));
      SplitLinesOfJoin(rest);
    }
  }

  predicate NoBreaks(lines: seq<string>) {
    forall k, j :: 0 <= k < |lines| && 0 <= j < |lines[k]| ==> !IsLineBreak(lines[k][j])
  }

  lemma BulletNoBreak(e: string)
    requires forall j :: 0 <= j < |e| ==> !IsLineBreak(e[j])
    ensures forall j :: 0 <= j < |"- " + e| ==> !IsLineBreak(("- " + e)[j])
  {
  }

  lemma BulletedNoBreaks(entries: seq<string>)
    requires NoBreaks(entries)
    ensures NoBreaks(Bulleted(entries))
  {
    var b := Bulleted(entries);
    forall k | 0 <= k < |b| ensures forall j :: 0 <= j < |b[k]| ==> !IsLineBreak(b[k][j]) {
      BulletNoBreak(entries[k]);
    }
  }

  lemma SuffixNoBreaks(pad: seq<string>, i: int)
    requires NoBreaks(pad)
    ensures NoBreaks(Suffix(pad, i))
  {
    var r := Suffix(pad, i);
    forall k | 0 <= k < |r| ensures r[k] == pad[|pad| - |r| + k] {
    }
  }

  /** The text reads back line by line as the recent entries behind "- ", when no entry holds
      a line break. */
  lemma ScratchpadTextLines(pad: seq<string>, maxEntries: int)
    requires NoBreaks(pad)
    ensures SplitLines(ScratchpadText(pad, maxEntries)) == Bulleted(RecentEntries(pad, maxEntries))
  {
    var b := Bulleted(RecentEntries(pad, maxEntries));
    SuffixNoBreaks(pad, -maxEntries);
    BulletedNoBreaks(RecentEntries(pad, maxEntries));
    assert forall k :: 0 <= k < |b| ==> b[k] != "";
    SplitLinesOfJoin(b);
  }
}
