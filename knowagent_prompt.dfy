/**
 * KnowAgent prompt helpers (KnowAgent/prompt_utils.py): keeping the scratchpad under a token
 * budget by cutting its longest observations first, and assembling the prompt for each of
 * the three stages of a decision.
 */
module KnowPrompt {
  import opened Wrappers
  import opened Text
  import opened Seqs

  // ---------------------------------------------------------------- truncate_scratchpad

  predicate IsObservation(line: string) { StartsWith(line, "Observation") }

  /** The observation lines, in scratchpad order. */
  function Observations(lines: seq<string>): (r: seq<string>)
    ensures forall k :: 0 <= k < |r| ==> IsObservation(r[k])
    ensures |r| <= |lines|
  {
    if lines == [] then []
    else Observations(lines[..|lines| - 1]) + (if IsObservation(lines[|lines| - 1]) then [lines[|lines| - 1]] else [])
  }

  const NoteText := " [truncated wikipedia excerpt]"

  /** What a cut observation line becomes: its label up to the first colon, and a note. */
  function Truncated(line: string): string {
    BeforeFirst(line, ":") + ":" + NoteText
  }

  /** The text before the first `c` of `x + [c] + y`, where `x` holds no `c`, is `x`. */
  lemma BeforeFirstOfHead(x: string, c: char, y: string)
    requires !Contains(x, [c])
    ensures BeforeFirst(x + [c] + y, [c]) == x
  {
    var s := x + [c] + y;
    ContainsIff(x, [c]);
    forall j | 0 <= j < |x| ensures !OccursAt(s, [c], j) {
      assert s[j] == x[j];
      assert !OccursAt(x, [c], j);
    }
    assert OccursAt(s, [c], |x|);
    assert IndexFrom(s, [c], 0) == Some(|x|);
    assert s[..|x|] == x;
  }

  /** Cutting a line that is already cut changes nothing. */
  lemma TruncatedIdempotent(line: string)
    ensures Truncated(Truncated(line)) == Truncated(line)
  {
    BeforeFirstOfHead(BeforeFirst(line, ":"), ':', NoteText);
  }

  /** Each line is either kept or, when it is an observation, cut. */
  predicate LineFate(orig: seq<string>, cur: seq<string>) {
    |cur| == |orig|
    && forall i :: 0 <= i < |orig| ==>
      cur[i] == orig[i] || (IsObservation(orig[i]) && cur[i] == Truncated(orig[i]))
  }

  /** The sort key: a line's token count. */
  function TokenKey(tok: string -> nat): string -> int {
    x => tok(x) as int
  }

  /** The position of the first line equal to `x`, or the number of lines when none is. */
  function FirstEqual(lines: seq<string>, x: string): (k: nat)
    ensures k <= |lines|
    ensures k < |lines| ==> lines[k] == x
    ensures forall j :: 0 <= j < k ==> lines[j] != x
    decreases |lines|
  {
    if lines == [] then 0
    else if lines[0] == x then 0
    else 1 + FirstEqual(lines[1..], x)
  }

  /** One pop of the queue: the first line equal to the popped observation is cut; when no line
      equals it, nothing changes. */
  function CutFirst(lines: seq<string>, x: string): seq<string> {
    var k := FirstEqual(lines, x);
    if k < |lines| then lines[k := Truncated(x)] else lines
  }

  /** The lines after the first `k` pops of the queue `sorted`. */
  function AfterPops(orig: seq<string>, sorted: seq<string>, k: nat): seq<string>
    requires k <= |sorted|
  {
    if k == 0 then orig else CutFirst(AfterPops(orig, sorted, k - 1), sorted[k - 1])
  }

  /** The joined lines after `k` pops are over the budget. */
  predicate OverBudget(orig: seq<string>, sorted: seq<string>, tok: string -> nat, nTokens: int, k: nat)
    requires k <= |sorted|
  {
    tok(Join(AfterPops(orig, sorted, k), "\n")) > nTokens
  }

  /** How many pops the loop makes from `k` on: it stops at the first count whose lines fit the
      budget, or when the queue is empty. */
  function Pops(orig: seq<string>, sorted: seq<string>, tok: string -> nat, nTokens: int, k: nat): (r: nat)
    requires k <= |sorted|
    ensures k <= r <= |sorted|
    ensures r == |sorted| || !OverBudget(orig, sorted, tok, nTokens, r)
    ensures forall j :: k <= j < r ==> OverBudget(orig, sorted, tok, nTokens, j)
    decreases |sorted| - k
  {
    if k == |sorted| || !OverBudget(orig, sorted, tok, nTokens, k) then k
    else Pops(orig, sorted, tok, nTokens, k + 1)
  }

  /** A count that is over the budget everywhere before it, and fits or empties the queue, is
      the number of pops the loop makes. */
  lemma PopsIsFirstFit(orig: seq<string>, sorted: seq<string>, tok: string -> nat, nTokens: int, m: nat)
    requires m <= |sorted|
    requires forall j :: 0 <= j < m ==> OverBudget(orig, sorted, tok, nTokens, j)
    requires m == |sorted| || !OverBudget(orig, sorted, tok, nTokens, m)
    ensures m == Pops(orig, sorted, tok, nTokens, 0)
  {
  }

  /** One more pop: the head of the remaining queue cuts the first line equal to it, found at
      `i`, and the count before it was over the budget. */
  lemma PopStep(orig: seq<string>, sorted: seq<string>, tok: string -> nat, nTokens: int,
                lines: seq<string>, replaced: nat, i: nat)
    requires replaced < |sorted| && lines == AfterPops(orig, sorted, replaced)
    requires forall k :: 0 <= k < replaced ==> OverBudget(orig, sorted, tok, nTokens, k)
    requires tok(Join(lines, "\n")) > nTokens
    requires i == FirstEqual(lines, sorted[replaced])
    ensures AfterPops(orig, sorted, replaced + 1)
      == if i < |lines| then lines[i := Truncated(sorted[replaced])] else lines
    ensures forall k :: 0 <= k < replaced + 1 ==> OverBudget(orig, sorted, tok, nTokens, k)
  {
    assert OverBudget(orig, sorted, tok, nTokens, replaced);
  }

  /** The observation lines queued longest first: a stable sort on the token count, so equal
      counts keep their scratchpad order. */
  function Queue(orig: seq<string>, tok: string -> nat): seq<string> {
    SortDesc(Observations(orig), TokenKey(tok))
  }

  /** What `truncate_scratchpad` returns: the scratchpad itself without a tokenizer, otherwise
      the lines after as many pops as it takes to fit the budget, joined back. */
  function Truncation(scratchpad: string, nTokens: int, tokenizer: Option<string -> nat>): string {
    match tokenizer
    case None => scratchpad
    case Some(tok) =>
      var orig := Split(scratchpad, "\n");
      var sorted := Queue(orig, tok);
      Join(AfterPops(orig, sorted, Pops(orig, sorted, tok, nTokens, 0)), "\n")
  }

  /**
   * `truncate_scratchpad`. Without a tokenizer the scratchpad comes back as it is. Otherwise
   * the observation lines are queued longest first (a stable sort, so equal counts keep their
   * order) and, while the joined lines exceed the budget and the queue is not empty, the first
   * line equal to the head of the queue is cut. The result joins the lines back; `replaced`
   * counts the lines taken from the queue, whether or not a line equal to them was left.
   */
  method TruncateScratchpad(scratchpad: string, nTokens: int, tokenizer: Option<string -> nat>)
    returns (r: string, lines: seq<string>, replaced: nat)
    ensures r == Truncation(scratchpad, nTokens, tokenizer)
    ensures r == Join(lines, "\n")
    ensures LineFate(Split(scratchpad, "\n"), lines)
    ensures replaced <= |Observations(Split(scratchpad, "\n"))|
    ensures tokenizer.None? ==> r == scratchpad && lines == Split(scratchpad, "\n") && replaced == 0
    ensures tokenizer.Some? ==>
      var orig := Split(scratchpad, "\n");
      var sorted := Queue(orig, tokenizer.value);
      replaced == Pops(orig, sorted, tokenizer.value, nTokens, 0)
      && lines == AfterPops(orig, sorted, replaced)
      && (forall k :: 0 <= k < replaced ==> OverBudget(orig, sorted, tokenizer.value, nTokens, k))
    ensures tokenizer.Some? ==>
      tokenizer.value(r) <= nTokens || replaced == |Observations(Split(scratchpad, "\n"))|
    ensures tokenizer.Some? ==>
      var sorted := SortDesc(Observations(Split(scratchpad, "\n")), TokenKey(tokenizer.value));
      forall i :: 0 <= i < |lines| && lines[i] != Split(scratchpad, "\n")[i] ==>
        Split(scratchpad, "\n")[i] in sorted[..replaced]
  {
    var orig := Split(scratchpad, "\n");
    lines := orig;
    replaced := 0;
    if tokenizer.None? {
      JoinSplit(scratchpad, "\n");
      r := scratchpad;
      return;
    }
    var tok := tokenizer.value;
    var sorted := Queue(orig, tok);
    lines, replaced := CutLongestFirst(orig, sorted, tok, nTokens);
    PopsIsFirstFit(orig, sorted, tok, nTokens, replaced);
    r := Join(lines, "\n");
  }

  /** The loop of `truncate_scratchpad`: pop the queue of observations, longest first, and cut
      the first line equal to each, until the joined lines fit or the queue is empty. */
  method CutLongestFirst(orig: seq<string>, sorted: seq<string>, tok: string -> nat, nTokens: int)
    returns (lines: seq<string>, replaced: nat)
    requires sorted == SortDesc(Observations(orig), TokenKey(tok))
    ensures replaced <= |sorted|
    ensures lines == AfterPops(orig, sorted, replaced)
    ensures forall k :: 0 <= k < replaced ==> OverBudget(orig, sorted, tok, nTokens, k)
    ensures tok(Join(lines, "\n")) <= nTokens || replaced == |sorted|
    ensures LineFate(orig, lines)
    ensures CutFromQueue(orig, lines, sorted, replaced)
  {
    lines := orig;
    replaced := 0;
    var queue := sorted;
    var current := tok(Join(lines, "\n"));
    while current > nTokens && queue != []
      invariant replaced <= |sorted| && queue == sorted[replaced..]
      invariant lines == AfterPops(orig, sorted, replaced)
      invariant forall k :: 0 <= k < replaced ==> OverBudget(orig, sorted, tok, nTokens, k)
      invariant LineFate(orig, lines)
      invariant CutFromQueue(orig, lines, sorted, replaced)
      invariant current == tok(Join(lines, "\n"))
      decreases |queue|
    {
      var largest := queue[0];
      queue := queue[1..];
      var i := FindLine(lines, largest);
      PopStep(orig, sorted, tok, nTokens, lines, replaced, i);
      if i < |lines| {
        QueuedIsObservation(orig, TokenKey(tok), replaced);
        CutKeepsFate(orig, lines, i, largest);
        CutKeepsQueue(orig, lines, sorted, replaced, i);
        lines := lines[i := Truncated(largest)];
      } else {
        QueueGrows(orig, lines, sorted, replaced);
      }
      replaced := replaced + 1;
      current := tok(Join(lines, "\n"));
    }
  }

  /** The search for the popped line: the index of the first line equal to `x`, or the number
      of lines when none is. */
  method FindLine(lines: seq<string>, x: string) returns (i: nat)
    ensures i == FirstEqual(lines, x)
  {
    i := 0;
    while i < |lines| && lines[i] != x
      invariant 0 <= i <= |lines|
      invariant forall j :: 0 <= j < i ==> lines[j] != x
    {
      i := i + 1;
    }
  }

  /** Every changed line was an observation taken from the first `replaced` of the queue. */
  predicate CutFromQueue(orig: seq<string>, lines: seq<string>, sorted: seq<string>, replaced: nat)
    requires replaced <= |sorted|
  {
    forall i :: 0 <= i < |lines| && i < |orig| && lines[i] != orig[i] ==> orig[i] in sorted[..replaced]
  }

  /** Every queued line is an observation. */
  lemma QueuedIsObservation(orig: seq<string>, key: string -> int, k: nat)
    requires k < |SortDesc(Observations(orig), key)|
    ensures IsObservation(SortDesc(Observations(orig), key)[k])
  {
    var sorted := SortDesc(Observations(orig), key);
    assert sorted[k] in multiset(Observations(orig));
  }

  /** Cutting a line equal to an observation keeps every line kept or cut. */
  lemma CutKeepsFate(orig: seq<string>, lines: seq<string>, i: nat, largest: string)
    requires LineFate(orig, lines)
    requires i < |lines| && lines[i] == largest && IsObservation(largest)
    ensures LineFate(orig, lines[i := Truncated(largest)])
  {
    if lines[i] != orig[i] {
      TruncatedIdempotent(orig[i]);
    }
  }

  /** Cutting the first line equal to the head of the queue, and taking the head off, keeps
      every changed line among the lines taken. */
  lemma CutKeepsQueue(orig: seq<string>, lines: seq<string>, sorted: seq<string>, replaced: nat, i: nat)
    requires LineFate(orig, lines)
    requires replaced < |sorted| && CutFromQueue(orig, lines, sorted, replaced)
    requires i < |lines| && lines[i] == sorted[replaced]
    ensures CutFromQueue(orig, lines[i := Truncated(sorted[replaced])], sorted, replaced + 1)
  {
    assert sorted[..replaced + 1] == sorted[..replaced] + [sorted[replaced]];
  }

  /** Taking the head off without cutting keeps every changed line among the lines taken. */
  lemma QueueGrows(orig: seq<string>, lines: seq<string>, sorted: seq<string>, replaced: nat)
    requires replaced < |sorted| && CutFromQueue(orig, lines, sorted, replaced)
    ensures CutFromQueue(orig, lines, sorted, replaced + 1)
  {
    assert sorted[..replaced + 1] == sorted[..replaced] + [sorted[replaced]];
  }

  /** Neither kept nor cut lines hold a line break, so the truncated text has exactly the
      lines of the original, in place. */
  lemma TruncationKeepsLines(scratchpad: string, lines: seq<string>)
    requires LineFate(Split(scratchpad, "\n"), lines)
    ensures Split(Join(lines, "\n"), "\n") == lines
    ensures |lines| == |Split(scratchpad, "\n")|
  {
    var orig := Split(scratchpad, "\n");
    SplitPiecesFree(scratchpad, "\n");
    forall k | 0 <= k < |lines| ensures '\n' !in lines[k] {
      NoBreakInLine(orig[k], lines[k]);
    }
    SplitJoin(lines, '\n');
  }

  lemma NoBreakInLine(o: string, l: string)
    requires !Contains(o, "\n")
    requires l == o || l == Truncated(o)
    ensures '\n' !in l
  {
    ContainsIff(o, "\n");
    forall j | 0 <= j < |o| ensures o[j] != '\n' {
      assert !OccursAt(o, "\n", j);
      assert o[j..j + 1] == [o[j]];
    }
    if l != o {
      var tag := BeforeFirst(o, ":");
      assert l == tag + ":" + NoteText;
      forall j | 0 <= j < |l| ensures l[j] != '\n' {
        if j < |tag| {
          assert l[j] == o[j];
        } else if j > |tag| {
          assert l[j] == NoteText[j - |tag| - 1];
        }
      }
    }
  }

  /** The cut lines are the longest ones: every cut line has at least as many tokens as every
      observation the loop did not reach. */
  lemma LongestCutFirst(sorted: seq<string>, tok: string -> nat, replaced: nat, cut: string, kept: string)
    requires SortedDesc(sorted, TokenKey(tok))
    requires replaced <= |sorted|
    requires cut in sorted[..replaced] && kept in sorted[replaced..]
    ensures tok(cut) >= tok(kept)
  {
    var a :| 0 <= a < replaced && sorted[a] == cut;
    var b :| replaced <= b < |sorted| && sorted[b] == kept;
    assert TokenKey(tok)(sorted[a]) >= TokenKey(tok)(sorted[b]);
  }

  // ---------------------------------------------------------------- build_prompt

  /** The instruction template filled in: `instructions` stands for the instruction text with
      its worked examples, which ends at the examples' marker. */
  function BasePrompt(instructions: string, question: string, scratchpad: string): string {
    instructions + "\n(END OF EXAMPLES)\nQuestion: " + question + scratchpad
  }

  /** The part a stage asks for, and the two parts it must leave out. */
  function StageParts(stage: string): Option<(string, string)> {
    if stage == "action_path" then Some(("ActionPath", "Thought or Action"))
    else if stage == "thought" then Some(("Thought", "ActionPath or Action"))
    else if stage == "action" then Some(("Action", "ActionPath or Thought"))
    else None
  }

  /** The line the prompt ends with: the part's label and the step. */
  function StageCue(part: string, st: string): string {
    "\n" + part + " " + st + ":"
  }

  /** The instruction to produce one part only. */
  function StageIntro(part: string, others: string, st: string): string {
    "\n\nGenerate only the " + part + " for step " + st + ". Do not generate " + others + "."
  }

  /** The request appended to the filled template. */
  function StageRequest(part: string, others: string, st: string): string {
    StageIntro(part, others, st) + StageCue(part, st)
  }

  /** `build_prompt`: the filled template, then an instruction to produce one part only,
      ending with the part's label and the step; an unknown stage raises ValueError. */
  function BuildPrompt(instructions: string, question: string, scratchpad: string, step: int, stage: string): Result<string> {
    match StageParts(stage)
    case None => Err("ValueError")
    case Some((part, others)) => Ok(BasePrompt(instructions, question, scratchpad) + StageRequest(part, others, IntToString(step)))
  }

  /** A prompt exists exactly for the three stages. */
  lemma BuildPromptStages(instructions: string, question: string, scratchpad: string, step: int, stage: string)
    ensures BuildPrompt(instructions, question, scratchpad, step, stage).Err? <==>
      stage !in {"action_path", "thought", "action"}
    ensures BuildPrompt(instructions, question, scratchpad, step, stage).Ok? <==> StageParts(stage).Some?
  {
  }

  /** The prompt starts with the filled template and ends with the stage's label and the step,
      for the model to continue. */
  lemma BuildPromptShape(instructions: string, question: string, scratchpad: string, step: int, stage: string)
    requires StageParts(stage).Some?
    ensures var p := BuildPrompt(instructions, question, scratchpad, step, stage).value;
      StartsWith(p, BasePrompt(instructions, question, scratchpad))
      && EndsWith(p, StageCue(StageParts(stage).value.0, IntToString(step)))
  {
    var (part, others) := StageParts(stage).value;
    var st := IntToString(step);
    PrefixAndSuffix(BasePrompt(instructions, question, scratchpad), StageIntro(part, others, st), StageCue(part, st));
  }

  /** The filled template ends with the question followed by the scratchpad. */
  lemma BasePromptEnds(instructions: string, question: string, scratchpad: string)
    ensures EndsWith(BasePrompt(instructions, question, scratchpad), "Question: " + question + scratchpad)
  {
    var head := instructions + "\n(END OF EXAMPLES)\n";
    var tail := "Question: " + question + scratchpad;
    assert BasePrompt(instructions, question, scratchpad) == head + tail;
    var s := head + tail;
    assert s[|s| - |tail|..] == tail;
  }

  lemma PrefixAndSuffix(a: string, b: string, c: string)
    ensures StartsWith(a + (b + c), a) && EndsWith(a + (b + c), c)
  {
    var s := a + (b + c);
    assert s[..|a|] == a;
    assert s[|s| - |c|..] == c;
  }
}
