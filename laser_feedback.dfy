/**
 * The LASER feedback loop (LASER/nodes.py): the keyword test that decides whether a manager's
 * feedback calls for rethinking an action, and the rethink step with its per-step limit and
 * its history of changed actions.
 */
module LaserFeedback {
  import opened Wrappers
  import opened Text
  import opened Json

  // ---------------------------------------------------------------- should_rethink_based_on_feedback

  const StrongNegative: seq<string> := [
    "wrong", "mistake", "incorrect", "should not", "error", "bad choice",
    "inappropriate", "not suitable", "doesn't match", "not relevant",
    "poor decision", "reconsider", "think again", "not right"]

  const WeakNegative: seq<string> := [
    "but", "however", "although", "consider", "might want to", "perhaps",
    "could be better", "alternative", "instead"]

  const Positive: seq<string> := [
    "good", "correct", "right", "appropriate", "suitable", "matches",
    "relevant", "well done", "excellent", "perfect", "accurate"]

  /** `any(keyword in text for keyword in keywords)`: substring tests, in order. */
  function AnyIn(text: string, keywords: seq<string>): (r: bool)
    ensures r <==> exists k :: 0 <= k < |keywords| && Contains(text, keywords[k])
    decreases |keywords|
  {
    if keywords == [] then false
    else Contains(text, keywords[0]) || AnyIn(text, keywords[1..])
  }

  /** The cascade of `should_rethink_based_on_feedback`. */
  function ShouldRethink(feedback: string): bool {
    if feedback == "" then false
    else
      var low := Lower(feedback);
      if AnyIn(low, StrongNegative) then true
      else if AnyIn(low, Positive) then false
      else if AnyIn(low, WeakNegative) then |Words(feedback)| > 5
      else false
  }

  /**
   * The cascade as one condition: rethink iff the feedback is not empty and either names a
   * strong negative (whatever else it says), or names a weak negative, no positive word, and
   * runs to more than five words.
   */
  lemma ShouldRethinkIff(feedback: string)
    ensures ShouldRethink(feedback) <==>
      feedback != ""
      && (AnyIn(Lower(feedback), StrongNegative)
          || (!AnyIn(Lower(feedback), Positive) && AnyIn(Lower(feedback), WeakNegative)
              && |Words(feedback)| > 5))
  {
  }

  // ---------------------------------------------------------------- rethink_action_with_feedback

  /** What the rethink LLM answered: the dummy model, a reply with its text and first tool
      call (`name` and `args`), if any, or an exception raised with the given message. */
  datatype RethinkReply = DummyReply | ModelReply(content: string, toolCall: Option<Dict>) | Raised(message: string)

  /** The dict `rethink_action_with_feedback` returns. */
  datatype Rethought = Rethought(action: Dict, thought: string, feedback: string)

  /** `f"{name}({arguments})"`, with the defaults of the original action. */
  function ActionRepr(action: Dict, nameDefault: Json): string {
    Render(GetOr(action, "name", nameDefault)) + "(" + Render(GetOr(action, "arguments", JObj(map[]))) + ")"
  }

  /** The number of history records made at this step. */
  function CountAtStep(history: seq<Dict>, step: int): (n: nat)
    ensures n <= |history|
    decreases |history|
  {
    if history == [] then 0
    else CountAtStep(history[..|history| - 1], step) + (if Get(history[|history| - 1], "step") == JInt(step) then 1 else 0)
  }

  const RethinkLimit := 2

  /** The action the reply proposes, and the thought that goes with it. */
  function Proposal(reply: RethinkReply, original: Dict): (Dict, string)
    requires !reply.Raised?
  {
    match reply
    case DummyReply => (map["name" := JStr("back_to_search"), "arguments" := JObj(map[])],
                        "(dummy) rethinking based on feedback")
    case ModelReply(content, None) => (original, content + "\n(Rethink failed, keeping original action.)")
    case ModelReply(content, Some(call)) =>
      (map["name" := Get(call, "name"), "arguments" := GetOr(call, "args", JObj(map[]))], content)
  }

  /** The record appended when the rethought action differs from the original. */
  function RethinkRecord(step: int, original: Dict, rethought: Dict, feedback: string): Dict {
    map["step" := JInt(step),
        "original_action" := JStr(ActionRepr(original, JStr("Unknown"))),
        "rethought_action" := JStr(ActionRepr(rethought, JNull)),
        "feedback" := JStr(feedback),
        "timestamp" := JInt(step)]
  }

  /** The result and the new history of one rethink. */
  function RethinkSpec(history: seq<Dict>, step: int, rationale: string, original: Dict,
                       feedback: string, reply: RethinkReply): (Rethought, seq<Dict>) {
    var done := CountAtStep(history, step);
    if done >= RethinkLimit then
      (Rethought(original, rationale + "\n(Rethink limit reached, keeping original action.)", feedback), history)
    else if reply.Raised? then
      (Rethought(original, rationale + "\n(Rethink failed: " + reply.message + ")", feedback), history)
    else
      var (action, thought) := Proposal(reply, original);
      var history' := if action != map[] && action != original
                      then history + [RethinkRecord(step, original, action, feedback)] else history;
      (Rethought(action, thought + AttemptNote(done + 1, step), feedback), history')
  }

  /** The note a rethink adds to its thought: which attempt this is, at which step. */
  function AttemptNote(attempt: int, step: int): string {
    "\n(Rethink attempt " + IntToString(attempt) + " for step " + IntToString(step) + ")"
  }

  /** Once two rethinks are recorded for the step, the original action is kept and nothing is
      recorded. */
  lemma RethinkLimitKeepsOriginal(history: seq<Dict>, step: int, rationale: string, original: Dict,
                                  feedback: string, reply: RethinkReply)
    requires CountAtStep(history, step) >= 2
    ensures RethinkSpec(history, step, rationale, original, feedback, reply).0.action == original
    ensures RethinkSpec(history, step, rationale, original, feedback, reply).1 == history
  {
  }

  /** Below the limit, a record is appended exactly when the rethought action differs from the
      original, and it is stamped with the current step. */
  lemma RethinkRecordsOnlyChanges(history: seq<Dict>, step: int, rationale: string, original: Dict,
                                  feedback: string, reply: RethinkReply, action: Dict)
    requires CountAtStep(history, step) < 2
    requires !reply.Raised? && action == Proposal(reply, original).0
    ensures RethinkSpec(history, step, rationale, original, feedback, reply).0.action == action
    ensures action != map[] && action != original ==>
      RethinkSpec(history, step, rationale, original, feedback, reply).1
        == history + [RethinkRecord(step, original, action, feedback)]
    ensures action != map[] && action != original ==>
      CountAtStep(history + [RethinkRecord(step, original, action, feedback)], step) == CountAtStep(history, step) + 1
    ensures action == map[] || action == original ==>
      RethinkSpec(history, step, rationale, original, feedback, reply).1 == history
  {
    CountAfterRecord(history, step, RethinkRecord(step, original, action, feedback), step);
  }

  /** A reply without a tool call keeps the original action, so it is never recorded. */
  lemma FailedRethinkRecordsNothing(history: seq<Dict>, step: int, rationale: string, original: Dict,
                                    feedback: string, content: string)
    ensures RethinkSpec(history, step, rationale, original, feedback, ModelReply(content, None)).0.action == original
    ensures RethinkSpec(history, step, rationale, original, feedback, ModelReply(content, None)).1 == history
  {
  }

  /** Below the limit, an exception keeps the original action with the failure noted after
      the original rationale, adds no attempt note and records nothing. */
  lemma RaisedRethinkRecordsNothing(history: seq<Dict>, step: int, rationale: string, original: Dict,
                                    feedback: string, message: string)
    requires CountAtStep(history, step) < RethinkLimit
    ensures RethinkSpec(history, step, rationale, original, feedback, Raised(message))
      == (Rethought(original, rationale + "\n(Rethink failed: " + message + ")", feedback), history)
  {
  }

  /** No step ever holds more than two rethink records. */
  ghost predicate AtMostTwoPerStep(history: seq<Dict>) {
    forall step :: CountAtStep(history, step) <= RethinkLimit
  }

  /** Appending a record stamped `step` adds one to that step's count and none elsewhere. */
  lemma CountAfterRecord(history: seq<Dict>, step: int, rec: Dict, other: int)
    requires Get(rec, "step") == JInt(step)
    ensures CountAtStep(history + [rec], other) ==
      CountAtStep(history, other) + (if other == step then 1 else 0)
  {
    assert (history + [rec])[..|history|] == history;
  }

  /** Rethinking keeps every step at two records or fewer. */
  lemma RethinkKeepsLimit(history: seq<Dict>, step: int, rationale: string, original: Dict,
                          feedback: string, reply: RethinkReply)
    requires AtMostTwoPerStep(history)
    ensures AtMostTwoPerStep(RethinkSpec(history, step, rationale, original, feedback, reply).1)
  {
    var h := RethinkSpec(history, step, rationale, original, feedback, reply).1;
    if h != history {
      assert !reply.Raised?;
      var action := Proposal(reply, original).0;
      var rec := RethinkRecord(step, original, action, feedback);
      assert h == history + [rec];
      forall other ensures CountAtStep(h, other) <= RethinkLimit {
        CountAfterRecord(history, step, rec, other);
      }
    }
  }

  /** The `rethink_history` list that `rethink_action_with_feedback` appends to in place. */
  class RethinkLog {
    var records: seq<Dict>

    ghost predicate Valid()
      reads this
    {
      AtMostTwoPerStep(records)
    }

    constructor()
      ensures records == [] && Valid()
    {
      records := [];
    }

    /** One rethink at `step`: the result, and at most one new record at the end. */
    method Rethink(step: int, rationale: string, original: Dict, feedback: string, reply: RethinkReply)
      returns (res: Rethought)
      requires Valid()
      modifies this
      ensures Valid()
      ensures (res, records) == RethinkSpec(old(records), step, rationale, original, feedback, reply)
    {
      RethinkKeepsLimit(records, step, rationale, original, feedback, reply);
      var done := CountAtStep(records, step);
      if done >= RethinkLimit {
        return Rethought(original, rationale + "\n(Rethink limit reached, keeping original action.)", feedback);
      }
      if reply.Raised? {
        return Rethought(original, rationale + "\n(Rethink failed: " + reply.message + ")", feedback);
      }
      var (action, thought) := Proposal(reply, original);
      if action != map[] && action != original {
        records := records + [RethinkRecord(step, original, action, feedback)];
      }
      res := Rethought(action, thought + AttemptNote(done + 1, step), feedback);
    }
  }
}
