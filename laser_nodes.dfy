/**
 * The LASER state-space nodes (LASER/nodes.py): the Search and Result nodes, each of which
 * executes one action and sets the next route, and the item micro-agent that the Item node
 * runs, with its rules for visiting the description, features and reviews pages.
 */
module LaserNodes {
  import opened Wrappers
  import opened Text
  import opened Json
  import LaserTools
  import LaserParsing
  import LaserGraph
  import LaserMemory
  import LaserFeedback
  import opened LaserReplay

  type LaserState = LaserGraph.LaserState

  /** What `choose_next_action` returns: an action dict (empty when the model gave none), the
      thought, and the manager's feedback, if any. */
  datatype Decision = Decision(action: Dict, thought: string, feedback: Option<string>)

  // ---------------------------------------------------------------- the feedback stage of choose_next_action

  /** What `choose_next_action` has before its feedback stage: a decision it returns at once
      (the dummy model's reading of the recorded action, or the fallback after the call
      raised), or the action and thought the model proposed, with the manager's review when
      feedback is enabled. */
  datatype Choice =
    | Immediate(decision: Decision)
    | Proposed(action: Dict, thought: string, review: Option<Review>)

  /** The manager's feedback, and the rethink model's reply should the feedback call for one. */
  datatype Review = Review(feedback: string, reply: LaserFeedback.RethinkReply)

  /**
   * The feedback stage of `choose_next_action`, on the `rethink_history` list of the state it
   * is given and at that state's `step_count`: the decision, and the list as the call leaves
   * it. The rethink appends to that list in place, so every node whose state shares it sees
   * the new record. At most one record is added, stamped with the step, and only below the
   * limit of two per step.
   */
  function Choose(history: seq<Dict>, step: int, choice: Choice): (r: (Decision, seq<Dict>))
    ensures r.1 == history
         || (|r.1| == |history| + 1 && r.1[..|history|] == history
             && Get(r.1[|history|], "step") == JInt(step)
             && LaserFeedback.CountAtStep(history, step) < LaserFeedback.RethinkLimit)
    ensures r.1 != history ==>
      choice.Proposed? && choice.review.Some? && LaserFeedback.ShouldRethink(choice.review.value.feedback)
    ensures choice.Immediate? ==> r.0 == choice.decision
    ensures choice.Proposed? && (choice.review.None? || choice.action == map[]) ==>
      r.0 == Decision(choice.action, choice.thought, None)
    ensures choice.Proposed? && choice.review.Some? && choice.action != map[] ==>
      r.0.feedback == Some(choice.review.value.feedback)
    ensures choice.Proposed? && choice.review.Some? && choice.action != map[]
            && !LaserFeedback.ShouldRethink(choice.review.value.feedback) ==>
      r.0 == Decision(choice.action, choice.thought, Some(choice.review.value.feedback))
  {
    match choice
    case Immediate(d) => (d, history)
    case Proposed(action, thought, review) =>
      if review.None? || action == map[] then (Decision(action, thought, None), history)
      else if !LaserFeedback.ShouldRethink(review.value.feedback) then
        (Decision(action, thought, Some(review.value.feedback)), history)
      else
        var fb := review.value.feedback;
        var (res, h) := LaserFeedback.RethinkSpec(history, step, thought, action, fb, review.value.reply);
        RethinkAppendsOne(history, step, thought, action, fb, review.value.reply);
        (Decision(res.action, res.thought, Some(res.feedback)), h)
  }

  /** A rethink leaves the history as it was or appends one record stamped with the step,
      below the limit. */
  lemma RethinkAppendsOne(history: seq<Dict>, step: int, rationale: string, original: Dict,
                          feedback: string, reply: LaserFeedback.RethinkReply)
    ensures var h := LaserFeedback.RethinkSpec(history, step, rationale, original, feedback, reply).1;
      h == history
      || (|h| == |history| + 1 && h[..|history|] == history && Get(h[|history|], "step") == JInt(step)
          && LaserFeedback.CountAtStep(history, step) < LaserFeedback.RethinkLimit)
  {
    var h := LaserFeedback.RethinkSpec(history, step, rationale, original, feedback, reply).1;
    if h != history {
      var action := LaserFeedback.Proposal(reply, original).0;
      assert h == history + [LaserFeedback.RethinkRecord(step, original, action, feedback)];
    }
  }

  /** `after` is `before` with records appended, all stamped `step`, and a step that was within
      the limit of two rethinks still is. */
  predicate RethinksAdded(before: seq<Dict>, after: seq<Dict>, step: int) {
    |before| <= |after| && after[..|before|] == before
    && (forall j :: |before| <= j < |after| ==> Get(after[j], "step") == JInt(step))
    && (LaserFeedback.CountAtStep(before, step) <= LaserFeedback.RethinkLimit ==>
          LaserFeedback.CountAtStep(after, step) <= LaserFeedback.RethinkLimit)
  }

  /** Another feedback stage at the same step keeps that relation. */
  lemma ChooseKeepsAdded(before: seq<Dict>, after: seq<Dict>, step: int, choice: Choice)
    requires RethinksAdded(before, after, step)
    ensures RethinksAdded(before, Choose(after, step, choice).1, step)
  {
    StampedAppendKeepsAdded(before, after, Choose(after, step, choice).1, step);
  }

  /** Appending at most one record stamped `step`, below the limit, keeps that relation. */
  lemma StampedAppendKeepsAdded(before: seq<Dict>, after: seq<Dict>, h: seq<Dict>, step: int)
    requires RethinksAdded(before, after, step)
    requires h == after
          || (|h| == |after| + 1 && h[..|after|] == after && Get(h[|after|], "step") == JInt(step)
              && LaserFeedback.CountAtStep(after, step) < LaserFeedback.RethinkLimit)
    ensures RethinksAdded(before, h, step)
  {
    if h != after {
      var rec := h[|after|];
      assert h == after + [rec];
      LaserFeedback.CountAfterRecord(after, step, rec, step);
      assert h[..|before|] == after[..|before|];
    }
  }

  /** Records stamped with one step leave every other step's count as it was, so the limit of
      two rethinks per step holds after them whenever it held before. */
  lemma {:induction false} RethinksAddedKeepLimit(before: seq<Dict>, after: seq<Dict>, step: int, other: int)
    requires RethinksAdded(before, after, step) && other != step
    ensures LaserFeedback.CountAtStep(after, other) == LaserFeedback.CountAtStep(before, other)
    decreases |after|
  {
    if |after| > |before| {
      var last := after[|after| - 1];
      var init := after[..|after| - 1];
      assert after == init + [last];
      assert init[..|before|] == before;
      assert RethinksAdded(before, init, step) by {
        forall j | |before| <= j < |init| ensures Get(init[j], "step") == JInt(step) {
          assert init[j] == after[j];
        }
        assert LaserFeedback.CountAtStep(init, step) <= LaserFeedback.CountAtStep(after, step) by {
          LaserFeedback.CountAfterRecord(init, step, last, step);
        }
      }
      RethinksAddedKeepLimit(before, init, step, other);
      LaserFeedback.CountAfterRecord(init, step, last, other);
    } else {
      assert after[..|before|] == after;
    }
  }

  // ---------------------------------------------------------------- shared pieces

  /** `obs or ""`. */
  function ObsText(v: Json): string {
    if Truthy(v) then Render(v) else ""
  }

  /** `info.get(key, default)`, as the history string it becomes. */
  function InfoText(info: Dict, key: string, default: string): string {
    Render(GetOr(info, key, JStr(default)))
  }

  /** `done or info.get("error")`: the condition under which a node stops the run. */
  predicate Halts(res: StepResult) {
    Truthy(res.done) || Truthy(Get(res.info, "error"))
  }

  /** The tool call without arguments that the nodes build themselves. */
  function BareCall(name: string): Dict {
    map["name" := JStr(name), "arguments" := JObj(map[])]
  }

  /** The record `feedback_history` gets when the manager gave feedback. */
  function FeedbackRecord(step: int, space: string, feedback: string, raw: string, thought: string): Dict {
    map["step" := JInt(step), "state" := JStr(space), "feedback" := JStr(feedback),
        "action" := JStr(raw), "thought" := JStr(thought)]
  }

  /** `feedback_history` after a node that did not stop: one record more iff there was feedback. */
  function WithFeedback(history: seq<Dict>, step: int, space: string, feedback: Option<string>,
                        raw: string, thought: string): (r: seq<Dict>)
    ensures feedback.Some? && feedback.value != "" ==>
      r == history + [FeedbackRecord(step, space, feedback.value, raw, thought)]
    ensures !(feedback.Some? && feedback.value != "") ==> r == history
  {
    if feedback.Some? && feedback.value != "" then history + [FeedbackRecord(step, space, feedback.value, raw, thought)]
    else history
  }

  /** The state a node returns after executing one action that the history records as `raw`,
      with the rethink history its feedback stage left. */
  function Stepped(state: LaserState, res: StepResult, raw: string, thought: string,
                   space: string, route: string, rethought: seq<Dict>): (s: LaserState)
    ensures s.stepCount == state.stepCount + 1
    ensures s.actionHistory == state.actionHistory + [raw] && s.lastAction == Some(raw)
    ensures s.thoughtHistory == state.thoughtHistory + [thought]
    ensures s.currentLaserState == space && s.route == Some(route)
    ensures s.obs == ObsText(res.obs) && s.url.None? && s.info == Some(res.info)
    ensures s.userInstruction == state.userInstruction && s.memoryBuffer == state.memoryBuffer
    ensures s.feedbackHistory == state.feedbackHistory && s.rethinkHistory == rethought
    ensures s.selectedItem == state.selectedItem
  {
    state.(obs := ObsText(res.obs), url := None, lastAction := Some(raw),
           stepCount := state.stepCount + 1, actionHistory := state.actionHistory + [raw],
           thoughtHistory := state.thoughtHistory + [thought], currentLaserState := space,
           route := Some(route), info := Some(res.info), rethinkHistory := rethought)
  }

  // ---------------------------------------------------------------- node_search_space

  /** `llm_action.get('arguments', {}).get('keywords', '')`. The Search node reads it only after
      `execute` accepted the action, so the arguments are a mapping there and the last case
      is never taken; it is kept so that the function is total. */
  function KeywordsArg(action: Dict): string {
    match GetOr(action, "arguments", JObj(map[]))
    case JObj(f) => Render(GetOr(f, "keywords", JStr("")))
    case _ => ""
  }

  /** The history string of the Search node: the environment's own reading of the action
      when it reports one, else the search string rebuilt from the keywords. */
  function SearchRaw(action: Dict, info: Dict): string {
    if "predicted_action" in info then Render(info["predicted_action"])
    else "search[" + KeywordsArg(action) + "]"
  }

  /** `node_search_space`: the model's choice passes the feedback stage, then one search, then
      Result, or Stopping when the step ended the episode or failed. Feedback is recorded only
      when the node does not stop; the rethink history is the one the feedback stage left. */
  method NodeSearchSpace(env: OfflineWebshopEnv, state: LaserState, choice: Choice)
    returns (r: Result<LaserState>)
    requires env.Valid()
    modifies env
    ensures env.Valid() && env.trajectory == old(env.trajectory)
    ensures LaserTools.ActionString(Choose(state.rethinkHistory, state.stepCount, choice).0.action).Err? ==> r.Err?
    ensures r.Ok? ==>
      var (decision, rethought) := Choose(state.rethinkHistory, state.stepCount, choice);
      LaserTools.ActionString(decision.action).Ok?
      && exists res: StepResult ::
        StepEffect(env.trajectory, old(env.Started()), old(env.currentStepIndex), old(env.selectedItemId),
                   LaserTools.ActionString(decision.action).value, Ok(res), env.currentStepIndex, env.selectedItemId)
        && r.value == SearchState(state, res, decision, rethought)
  {
    var (decision, rethought) := Choose(state.rethinkHistory, state.stepCount, choice);
    var res := Execute(env, decision.action);
    if res.Err? {
      return Err(res.error);
    }
    r := Ok(SearchState(state, res.value, decision, rethought));
  }

  /** The state the Search node returns after the step `res`: Stopping when the step ended the
      episode or failed, else Result with the manager's feedback recorded. */
  function SearchState(state: LaserState, res: StepResult, decision: Decision, rethought: seq<Dict>): LaserState {
    var raw := SearchRaw(decision.action, res.info);
    if Halts(res) then Stepped(state, res, raw, decision.thought, "Stopping", "to_stop", rethought)
    else Stepped(state, res, raw, decision.thought, "Result", "to_result", rethought).(
      feedbackHistory := WithFeedback(state.feedbackHistory, state.stepCount + 1, "Search",
                                      decision.feedback, raw, decision.thought))
  }

  // ---------------------------------------------------------------- node_result_space

  /** The state space and route the Result node sets for a lowercased tool name, when the step
      neither ended the episode nor failed. */
  function ResultRoute(name: string): (r: (string, string))
    ensures name == "select_item" ==> r == ("Item", "to_item")
    ensures name == "back_to_search" ==> r == ("Search", "to_search")
    ensures name != "select_item" && name != "back_to_search" ==> r == ("Result", "stay_result")
  {
    if name == "select_item" then ("Item", "to_item")
    else if name == "back_to_search" then ("Search", "to_search")
    else ("Result", "stay_result")
  }

  /** Every route the Result node sets is an edge of Result's table, and leads to the state
      space the node names. */
  lemma ResultRoutesAreEdges(name: string)
    ensures LaserGraph.ResultEdge(ResultRoute(name).1).Some?
    ensures LaserGraph.ResultEdge("to_stop") == Some(LaserGraph.Stopping)
    ensures var n := LaserGraph.ResultEdge(ResultRoute(name).1).value;
      (ResultRoute(name).0 == "Item" <==> n == LaserGraph.ItemSpace)
      && (ResultRoute(name).0 == "Search" <==> n == LaserGraph.SearchSpace)
      && (ResultRoute(name).0 == "Result" <==> n == LaserGraph.ResultSpace)
  {
  }

  /** The first listed item whose id equals the selected one. */
  function FindListed(items: seq<LaserParsing.Item>, id: Json): (r: Option<LaserParsing.Item>)
    ensures r.Some? ==> r.value in items && r.value.itemId.Some? && id == JStr(r.value.itemId.value)
    ensures r.None? ==> forall k :: 0 <= k < |items| && items[k].itemId.Some? ==> id != JStr(items[k].itemId.value)
    decreases |items|
  {
    if items == [] then None
    else if items[0].itemId.Some? && JStr(items[0].itemId.value) == id then Some(items[0])
    else FindListed(items[1..], id)
  }

  /** What the scoring LLM answered: a `{"score": x}` object with a number, an answer without
      one, or a failed call. */
  datatype ScoreReply = Scored(x: real) | Unscored | CallFailed

  /** `score_item_with_llm`: the score clamped to [0, 1]; 0.5 when the answer holds no score,
      0.0 when the call failed. */
  function ScoreItem(reply: ScoreReply): (s: real)
    ensures 0.0 <= s <= 1.0
    ensures reply.Scored? && 0.0 <= reply.x <= 1.0 ==> s == reply.x
    ensures reply.Scored? && reply.x > 1.0 ==> s == 1.0
    ensures reply.Scored? && reply.x < 0.0 ==> s == 0.0
    ensures reply.Unscored? ==> s == 0.5
    ensures reply.CallFailed? ==> s == 0.0
  {
    match reply
    case Scored(x) => if x < 0.0 then 0.0 else if x > 1.0 then 1.0 else x
    case Unscored => 0.5
    case CallFailed => 0.0
  }

  /** The words of a string as a JSON list. */
  function StrList(ws: seq<string>): (r: seq<Json>)
    ensures |r| == |ws| && forall k :: 0 <= k < |ws| ==> r[k] == JStr(ws[k])
  {
    seq(|ws|, k requires 0 <= k < |ws| => JStr(ws[k]))
  }

  /** The candidate the Result node puts in the memory buffer for a listed item it selects. */
  function ResultCandidate(state: LaserState, item: LaserParsing.Item, page: Option<LaserParsing.PageInfo>,
                           raw: string, thought: string, score: real): (c: Dict)
    ensures Get(c, "item_id") == OptStr(item.itemId) && Get(c, "source_state") == JStr("Result")
    ensures Get(c, "actions_taken") == JList([JStr(raw)]) && Get(c, "score") == JReal(score)
  {
    map["item_id" := OptStr(item.itemId),
        "title" := JStr(item.name),
        "price" := JStr(item.priceStr),
        "url" := JNull,
        "page" := (if page.Some? then JInt(page.value.currentPage) else JNull),
        "keywords" := JList(StrList(Words(state.userInstruction))),
        "snapshot_excerpt" := JStr(Take(state.obs, 500)),
        "rationale" := JStr(thought),
        "source_state" := JStr("Result"),
        "actions_taken" := JList([JStr(raw)]),
        "score" := JReal(score)]
  }

  /** `llm_action.get("arguments", {}).get("item_id")` of an action `execute` accepted. */
  function ItemIdArg(action: Dict): Json {
    match GetOr(action, "arguments", JObj(map[]))
    case JObj(f) => Get(f, "item_id")
    case _ => JNull
  }

  /** The candidate the Result node adds to the buffer when its action selects an item: the
      selected id must be truthy and among the items listed in the observation the node saw. */
  function SelectedCandidateOf(state: LaserState, action: Dict, raw: string, thought: string,
                               score: ScoreReply): (c: Option<Dict>)
    ensures c.Some? ==> Truthy(ItemIdArg(action)) && Get(c.value, "item_id") == ItemIdArg(action)
    ensures c.Some? ==> Get(c.value, "source_state") == JStr("Result") && Get(c.value, "actions_taken") == JList([JStr(raw)])
  {
    var id := ItemIdArg(action);
    if !Truthy(id) then None
    else
      var parsed := LaserParsing.ParseObservation(Some(state.obs));
      match FindListed(parsed.items, id)
      case None => None
      case Some(item) => Some(ResultCandidate(state, item, parsed.pageInfo, raw, thought, ScoreItem(score)))
  }

  /** `node_result_space`: the model's choice passes the feedback stage, then one action, then
      the route its name calls for, or Stopping when the step ended the episode or failed.
      Selecting a listed item upserts it, scored, into the memory buffer, which is the state's
      own list and so changes in place; so does the rethink history. */
  method NodeResultSpace(env: OfflineWebshopEnv, buffer: LaserMemory.MemoryBuffer, state: LaserState,
                         choice: Choice, score: ScoreReply)
    returns (r: Result<LaserState>)
    requires env.Valid() && buffer.Valid() && buffer.entries == state.memoryBuffer
    modifies env, buffer
    ensures env.Valid() && env.trajectory == old(env.trajectory) && buffer.Valid()
    ensures var decision := Choose(state.rethinkHistory, state.stepCount, choice).0;
      StrOrEmpty(Get(decision.action, "name")).Err? ==> r.Err?
    ensures r.Ok? ==> StrOrEmpty(Get(Choose(state.rethinkHistory, state.stepCount, choice).0.action, "name")).Ok?
    ensures r.Ok? ==> r.value.rethinkHistory == Choose(state.rethinkHistory, state.stepCount, choice).1
    ensures r.Ok? ==>
      var decision := Choose(state.rethinkHistory, state.stepCount, choice).0;
      var name := Lower(StrOrEmpty(Get(decision.action, "name")).value);
      var s := r.value;
      s.stepCount == state.stepCount + 1 && s.lastAction.Some? && s.actionHistory == state.actionHistory + [s.lastAction.value]
      && s.thoughtHistory == state.thoughtHistory + [decision.thought]
      && s.memoryBuffer == buffer.entries && s.info.Some? && s.route.Some?
      && (s.route == Some("to_stop") ==>
            s.currentLaserState == "Stopping" && s.feedbackHistory == state.feedbackHistory
            && buffer.entries == old(buffer.entries))
      && (s.route != Some("to_stop") ==>
            !Truthy(Get(s.info.value, "error"))
            && (s.currentLaserState, s.route.value) == ResultRoute(name)
            && s.feedbackHistory == WithFeedback(state.feedbackHistory, state.stepCount + 1, "Result",
                                                 decision.feedback, s.lastAction.value, decision.thought))
      && (name != "select_item" ==> buffer.entries == old(buffer.entries))
    ensures r.Ok? ==>
      var (decision, rethought) := Choose(state.rethinkHistory, state.stepCount, choice);
      var name := Lower(StrOrEmpty(Get(decision.action, "name")).value);
      var action := decision.action["name" := JStr(name)];
      LaserTools.ActionString(action).Ok?
      && exists res: StepResult ::
        StepEffect(env.trajectory, old(env.Started()), old(env.currentStepIndex), old(env.selectedItemId),
                   LaserTools.ActionString(action).value, Ok(res), env.currentStepIndex, env.selectedItemId)
        && ResultBuffer(state, res, decision.thought, name, action, score, old(buffer.entries)) == Ok(buffer.entries)
        && r.value == ResultState(state, res, decision, rethought, name, buffer.entries)
    ensures r.Err? ==> buffer.entries == old(buffer.entries)
  {
    var (decision, rethought) := Choose(state.rethinkHistory, state.stepCount, choice);
    ghost var before := buffer.entries;
    var nm := StrOrEmpty(Get(decision.action, "name"));
    if nm.Err? {
      return Err(nm.error);
    }
    var name := Lower(nm.value);
    var action := decision.action["name" := JStr(name)];
    var res := Execute(env, action);
    if res.Err? {
      return Err(res.error);
    }
    r := ResultStep(buffer, state, res.value, decision, rethought, name, action, score);
    if r.Ok? {
      ResultStateShape(state, res.value, decision, rethought, name, action, score, before, buffer.entries);
    }
  }

  /** The Result node after its step `res`: the buffer update, then the new state. */
  method ResultStep(buffer: LaserMemory.MemoryBuffer, state: LaserState, res: StepResult, decision: Decision,
                    rethought: seq<Dict>, name: string, action: Dict, score: ScoreReply)
    returns (r: Result<LaserState>)
    requires buffer.Valid()
    modifies buffer
    ensures buffer.Valid()
    ensures r.Ok? ==>
      ResultBuffer(state, res, decision.thought, name, action, score, old(buffer.entries)) == Ok(buffer.entries)
      && r.value == ResultState(state, res, decision, rethought, name, buffer.entries)
    ensures r.Err? ==>
      ResultBuffer(state, res, decision.thought, name, action, score, old(buffer.entries)).Err?
      && buffer.entries == old(buffer.entries)
  {
    var raw := InfoText(res.info, "predicted_action", "");
    if !Halts(res) && name == "select_item" {
      var ok := RecordSelection(buffer, SelectedCandidateOf(state, action, raw, decision.thought, score),
                                state.stepCount);
      if ok.Err? {
        return Err(ok.error);
      }
    }
    r := Ok(ResultState(state, res, decision, rethought, name, buffer.entries));
  }

  /** What the Result node's new state says about the step, the histories and the buffer. */
  lemma ResultStateShape(state: LaserState, res: StepResult, decision: Decision, rethought: seq<Dict>,
                         name: string, action: Dict, score: ScoreReply, before: seq<Dict>, after: seq<Dict>)
    requires ResultBuffer(state, res, decision.thought, name, action, score, before) == Ok(after)
    ensures var s := ResultState(state, res, decision, rethought, name, after);
      s.stepCount == state.stepCount + 1 && s.lastAction.Some? && s.actionHistory == state.actionHistory + [s.lastAction.value]
      && s.thoughtHistory == state.thoughtHistory + [decision.thought]
      && s.memoryBuffer == after && s.info.Some? && s.route.Some? && s.rethinkHistory == rethought
      && (s.route == Some("to_stop") ==>
            s.currentLaserState == "Stopping" && s.feedbackHistory == state.feedbackHistory && after == before)
      && (s.route != Some("to_stop") ==>
            !Truthy(Get(s.info.value, "error"))
            && (s.currentLaserState, s.route.value) == ResultRoute(name)
            && s.feedbackHistory == WithFeedback(state.feedbackHistory, state.stepCount + 1, "Result",
                                                 decision.feedback, s.lastAction.value, decision.thought))
      && (name != "select_item" ==> after == before)
  {
    ResultRoutesAreEdges(name);
  }

  /** The memory buffer after the Result node's step `res`: a step that selects a listed item
      upserts its candidate, which can fail; any other step leaves the buffer as it was. */
  function ResultBuffer(state: LaserState, res: StepResult, thought: string, name: string, action: Dict,
                        score: ScoreReply, before: seq<Dict>): (r: Result<seq<Dict>>)
    ensures Halts(res) || name != "select_item" ==> r == Ok(before)
  {
    if Halts(res) || name != "select_item" then Ok(before)
    else
      match SelectedCandidateOf(state, action, InfoText(res.info, "predicted_action", ""), thought, score)
      case None => Ok(before)
      case Some(c) => LaserMemory.Upsert(before, c, state.stepCount)
  }

  /** The state the Result node returns after the step `res`, holding the buffer `after`:
      Stopping when the step ended the episode or failed, else the route the tool name calls
      for, with the manager's feedback recorded. */
  function ResultState(state: LaserState, res: StepResult, decision: Decision, rethought: seq<Dict>,
                       name: string, after: seq<Dict>): LaserState {
    var raw := InfoText(res.info, "predicted_action", "");
    if Halts(res) then Stepped(state, res, raw, decision.thought, "Stopping", "to_stop", rethought).(memoryBuffer := after)
    else Stepped(state, res, raw, decision.thought, ResultRoute(name).0, ResultRoute(name).1, rethought).(
      memoryBuffer := after,
      feedbackHistory := WithFeedback(state.feedbackHistory, state.stepCount + 1, "Result",
                                      decision.feedback, raw, decision.thought))
  }

  /** The Result node's buffer update: a formed candidate is added or merged, an absent one
      leaves the buffer alone. */
  method RecordSelection(buffer: LaserMemory.MemoryBuffer, cand: Option<Dict>, stepCount: int)
    returns (r: Result<()>)
    requires buffer.Valid()
    modifies buffer
    ensures buffer.Valid()
    ensures cand.None? ==> r.Ok? && buffer.entries == old(buffer.entries)
    ensures cand.Some? ==> (r.Ok? <==> LaserMemory.Upsert(old(buffer.entries), cand.value, stepCount).Ok?)
    ensures cand.Some? && r.Ok? ==> buffer.entries == LaserMemory.Upsert(old(buffer.entries), cand.value, stepCount).value
    ensures r.Err? ==> buffer.entries == old(buffer.entries)
  {
    r := Ok(());
    if cand.Some? {
      var upd := buffer.AddOrUpdate(cand.value, stepCount);
      if upd.Err? {
        r := Err(upd.error);
      }
    }
  }

  // ---------------------------------------------------------------- run_item_micro_agent: visit rules

  /** Which of the three information pages the micro-agent has opened. */
  datatype Visited = Visited(description: bool, features: bool, reviews: bool)

  const NoneVisited := Visited(false, false, false)

  predicate IsInfoTool(name: string) {
    name == "description" || name == "features" || name == "reviews"
  }

  function Seen(v: Visited, name: string): bool {
    if name == "description" then v.description
    else if name == "features" then v.features
    else if name == "reviews" then v.reviews
    else false
  }

  function Mark(v: Visited, name: string): Visited {
    if name == "description" then v.(description := true)
    else if name == "features" then v.(features := true)
    else if name == "reviews" then v.(reviews := true)
    else v
  }

  predicate AllVisited(v: Visited) {
    v.description && v.features && v.reviews
  }

  /** `next((k for k, v in visited.items() if not v), "description")`: the first unopened page
      in the order description, features, reviews. */
  function FirstUnvisited(v: Visited): (t: string)
    ensures IsInfoTool(t)
    ensures !AllVisited(v) ==> !Seen(v, t)
    ensures t == "features" ==> v.description
    ensures t == "reviews" ==> v.description && v.features
    ensures AllVisited(v) ==> t == "description"
  {
    if !v.description then "description"
    else if !v.features then "features"
    else if !v.reviews then "reviews"
    else "description"
  }

  /** The tool the loop executes for the tool the model chose, and the flags afterwards. */
  function VisitRule(v: Visited, name: string): (Visited, string) {
    if name == "previous_page" then
      if !AllVisited(v) then (v, FirstUnvisited(v)) else (v, name)
    else if IsInfoTool(name) then
      if !Seen(v, name) then (Mark(v, name), name)
      else if !AllVisited(v) then (v, FirstUnvisited(v))
      else (v, name)
    else (v, name)
  }

  /** Leaving the page, or reopening a page, while some page is still unopened, is redirected
      to the first unopened page; the redirect itself marks nothing. */
  lemma RedirectToFirstUnvisited(v: Visited, name: string)
    requires name == "previous_page" || (IsInfoTool(name) && Seen(v, name))
    requires !AllVisited(v)
    ensures VisitRule(v, name) == (v, FirstUnvisited(v))
    ensures !Seen(v, VisitRule(v, name).1)
  {
  }

  /** A page opened for the first time is executed as chosen and marked. */
  lemma FirstVisitMarks(v: Visited, name: string)
    requires IsInfoTool(name) && !Seen(v, name)
    ensures VisitRule(v, name) == (Mark(v, name), name)
    ensures Seen(Mark(v, name), name)
  {
  }

  /** Any other choice, and every choice once all pages are open, is executed as chosen. */
  lemma OtherChoicesPass(v: Visited, name: string)
    requires (name != "previous_page" && !IsInfoTool(name)) || AllVisited(v)
    ensures VisitRule(v, name) == (v, name)
  {
  }

  /** The flags only ever grow, by at most the page chosen, and an executed tool differs from
      the chosen one only when it is the first unopened page. */
  lemma VisitRuleMonotone(v: Visited, name: string, page: string)
    requires IsInfoTool(page) && Seen(v, page)
    ensures Seen(VisitRule(v, name).0, page)
    ensures VisitRule(v, name).0 == v || VisitRule(v, name).0 == Mark(v, name)
    ensures VisitRule(v, name).1 != name ==> VisitRule(v, name).1 == FirstUnvisited(v) && !Seen(v, FirstUnvisited(v))
  {
  }

  /** Because a redirect does not mark the page it opens, a model that keeps asking to leave
      is sent to the description page on every inner step. */
  lemma RepeatedLeavingReopensDescription()
    ensures VisitRule(NoneVisited, "previous_page") == (NoneVisited, "description")
    ensures VisitRule(VisitRule(NoneVisited, "previous_page").0, "previous_page").1 == "description"
  {
  }

  // ---------------------------------------------------------------- run_item_micro_agent: the rest

  /** `(s or "").strip().lower()` on a value that may not be a string. */
  function NormAction(v: Json): (r: Result<string>)
    ensures !Truthy(v) ==> r == Ok("")
    ensures Truthy(v) && v.JStr? ==> r == Ok(Lower(Strip(v.s)))
    ensures Truthy(v) && !v.JStr? ==> r.Err?
  {
    if !Truthy(v) then Ok("") else if v.JStr? then Ok(Lower(Strip(v.s))) else Err("AttributeError")
  }

  /** The expected action the micro-agent reads: the state's `info.expected_action`, else the
      current replay step's `expected_action` or `expected`. */
  function ExpectedAction(info: Option<Dict>, stepInfo: Option<Dict>): Json {
    var fromState := if info.Some? then Get(info.value, "expected_action") else JNull;
    if Truthy(fromState) then fromState
    else
      var d := if stepInfo.Some? then stepInfo.value else map[];
      Or(Get(d, "expected_action"), Get(d, "expected"))
  }

  /** The clicks that make sense on an item page, normalised. */
  const ItemPageClicks: seq<string> := ["click[description]", "click[features]", "click[reviews]",
                                        "click[< prev]", "click[next >]", "click[back to search]",
                                        "click[buy now]"]

  /** A replayed click on an item id that reaches the item page stands for buying it. */
  function CorrectExpectation(norm: string): string {
    if StartsWith(norm, "click[") && norm !in ItemPageClicks then "click[buy now]" else norm
  }

  /** The normalised expectation calls for buying iff it is a click other than the six
      information and navigation clicks of the item page. */
  lemma CorrectedExpectationBuys(norm: string)
    ensures CorrectExpectation(norm) == "click[buy now]" <==>
      StartsWith(norm, "click[") && norm !in ItemPageClicks[..6]
  {
    assert StartsWith("click[buy now]", "click[");
  }

  /** Whether the micro-agent buys at once, without asking the model, or the error of
      normalising an expected action that is not a string. */
  function ShortcutBuys(info: Option<Dict>, stepInfo: Option<Dict>): Result<bool> {
    match NormAction(ExpectedAction(info, stepInfo))
    case Err(e) => Err(e)
    case Ok(norm) => Ok(CorrectExpectation(norm) == "click[buy now]")
  }

  /** The last history entry that clicks something, if any. */
  function LastClick(history: seq<string>): (a: string)
    ensures a == "" || (a in history && StartsWith(a, "click[") && |a| > 6)
    decreases |history|
  {
    if history == [] then ""
    else
      var a := history[|history| - 1];
      if StartsWith(a, "click[") && |a| > 6 then a else LastClick(history[..|history| - 1])
  }

  /** `a.split("[")[-1].split("]")[0]`. */
  function ClickTarget(a: string): string {
    BeforeFirst(AfterLast(a, "["), "]")
  }

  /** The target of a click on an id without brackets is that id. */
  lemma ClickTargetOfId(id: string)
    requires '[' !in id && ']' !in id
    ensures ClickTarget("click[" + id + "]") == id
  {
    var y := id + "]";
    assert "click[" + id + "]" == "click" + "[" + y;
    forall j | 0 <= j ensures !OccursAt(y, "[", j) {
      if j < |id| { assert y[j] == id[j]; } else if j == |id| { assert y[j] == ']'; }
    }
    ContainsIff(y, "[");
    AfterLastOfTail("click", "[", y);
    assert OccursAt(y, "]", |id|);
    forall j | 0 <= j < |id| ensures !OccursAt(y, "]", j) {
      assert y[j] == id[j];
    }
    var i := IndexFrom(y, "]", 0);
    assert i == Some(|id|);
    assert Split(y, "]")[0] == y[..|id|] == id;
  }

  /** The id of the bought item: the environment's `selected_item_id`, else the target of the
      last click in the history. */
  function BoughtId(info: Dict, history: seq<string>): Json {
    var fromEnv := Get(info, "selected_item_id");
    if Truthy(fromEnv) then fromEnv else JStr(ClickTarget(LastClick(history)))
  }

  /** The `selected_item` a purchase on the item page records; `titlePrice` is the title and
      price the item page shows, when its pattern matches. */
  function BoughtItem(id: Json, titlePrice: Option<(string, string)>): (d: Dict)
    ensures Get(d, "source_state") == JStr("Item") && Get(d, "item_id") == id
    ensures titlePrice.None? ==> Get(d, "title") == JStr("Unknown Item") && Get(d, "price") == JStr("N/A")
  {
    map["item_id" := id,
        "title" := JStr(if titlePrice.Some? then Strip(titlePrice.value.0) else "Unknown Item"),
        "price" := JStr(if titlePrice.Some? then Strip(titlePrice.value.1) else "N/A"),
        "url" := JNull,
        "source_state" := JStr("Item")]
  }

  /** The observation the model sees on an inner step: the page, then the saved blocks of the
      information pages opened so far. */
  function FullObs(obs: string, extra: seq<string>): (r: string)
    ensures extra == [] ==> r == obs
    ensures StartsWith(r, obs)
  {
    if extra == [] then obs else obs + "\n" + Join(extra, "\n")
  }

  /** The block an information page adds to what the model sees next. */
  function InfoBlock(name: string, obs: string): string {
    name + ":\n" + Strip(obs) + "\n"
  }

  /** The action the model chose, lowercased, or the error of a name that is not a string. */
  function ChosenAction(decision: Decision): (r: Result<Dict>)
    ensures decision.action == map[] ==> r == Ok(map["name" := JStr("previous_page"), "arguments" := JObj(map[])])
    ensures r.Ok? ==> "name" in r.value && r.value["name"].JStr?
  {
    LowerOfToolName("previous_page");
    var a := if decision.action == map[] then BareCall("previous_page") else decision.action;
    match StrOrEmpty(Get(a, "name"))
    case Err(e) => Err(e)
    case Ok(n) =>
      var named := a["name" := JStr(Lower(n))];
      assert decision.action == map[] ==> named == a;
      Ok(named)
  }

  /** What every exit of the micro-agent promises about the state it returns, as the graph
      reads it: Stopping or back to Result; one history entry per executed action; the
      prefixes of both histories kept; rethinks only added, all stamped with the step the
      micro-agent started at; the fields it does not set kept too. */
  predicate ItemExit(before: LaserState, after: LaserState, maxInnerSteps: nat, executed: seq<string>) {
    ItemExitShape(before, after, maxInnerSteps, executed)
    && RethinksAdded(before.rethinkHistory, after.rethinkHistory, before.stepCount)
  }

  /** Everything `ItemExit` asks except the rethinks. */
  predicate ItemExitShape(before: LaserState, after: LaserState, maxInnerSteps: nat, executed: seq<string>) {
    var n := after.stepCount - before.stepCount;
    ((after.route == Some("to_stop") && after.currentLaserState == "Stopping")
     || (after.route == Some("to_result") && after.currentLaserState == "Result"))
    && 1 <= n <= maxInnerSteps + 1 && |executed| == n
    && |after.actionHistory| == |before.actionHistory| + n
    && after.actionHistory[..|before.actionHistory|] == before.actionHistory
    && after.lastAction == Some(after.actionHistory[|after.actionHistory| - 1])
    && |before.thoughtHistory| <= |after.thoughtHistory| <= |before.thoughtHistory| + maxInnerSteps
    && after.thoughtHistory[..|before.thoughtHistory|] == before.thoughtHistory
    && (forall k :: 0 <= k < |executed| - 1 ==> executed[k] != "buy_now")
    && (after.route == Some("to_result") ==>
          n == maxInnerSteps + 1 && executed[n - 1] == "previous_page"
          && |after.thoughtHistory| == |before.thoughtHistory| + maxInnerSteps)
    && (executed[n - 1] == "buy_now" ==>
          after.route == Some("to_stop") && after.selectedItem.Some?
          && Get(after.selectedItem.value, "source_state") == JStr("Item"))
    && (after.selectedItem != before.selectedItem ==> executed[n - 1] == "buy_now")
    && after.userInstruction == before.userInstruction && after.memoryBuffer == before.memoryBuffer
    && after.feedbackHistory == before.feedbackHistory
    && after.url.None?
  }

  /** The state returned when the micro-agent buys, with the history already extended. */
  function Bought(state: LaserState, res: StepResult, raw: string, step: int, history: seq<string>,
                  thoughts: seq<string>, titlePrice: Option<(string, string)>, rethought: seq<Dict>): (s: LaserState)
    ensures s.route == Some("to_stop") && s.currentLaserState == "Stopping"
    ensures s.stepCount == step && s.actionHistory == history && s.thoughtHistory == thoughts
    ensures s.lastAction == Some(raw) && s.url.None?
    ensures s.selectedItem == Some(BoughtItem(BoughtId(res.info, history), titlePrice))
    ensures s.userInstruction == state.userInstruction && s.memoryBuffer == state.memoryBuffer
    ensures s.feedbackHistory == state.feedbackHistory && s.rethinkHistory == rethought
  {
    state.(obs := ObsText(res.obs), url := None, lastAction := Some(raw), stepCount := step,
           actionHistory := history, thoughtHistory := thoughts, currentLaserState := "Stopping",
           route := Some("to_stop"), info := Some(res.info),
           selectedItem := Some(BoughtItem(BoughtId(res.info, history), titlePrice)),
           rethinkHistory := rethought)
  }

  /** The state returned when the micro-agent leaves, stopped or back on Result. */
  function Left(state: LaserState, res: StepResult, raw: string, step: int, history: seq<string>,
                thoughts: seq<string>, space: string, route: string, rethought: seq<Dict>): (s: LaserState)
    ensures s.route == Some(route) && s.currentLaserState == space
    ensures s.stepCount == step && s.actionHistory == history && s.thoughtHistory == thoughts
    ensures s.lastAction == Some(raw) && s.url.None? && s.selectedItem == state.selectedItem
    ensures s.userInstruction == state.userInstruction && s.memoryBuffer == state.memoryBuffer
    ensures s.feedbackHistory == state.feedbackHistory && s.rethinkHistory == rethought
  {
    state.(obs := ObsText(res.obs), url := None, lastAction := Some(raw), stepCount := step,
           actionHistory := history, thoughtHistory := thoughts, currentLaserState := space,
           route := Some(route), info := Some(res.info), rethinkHistory := rethought)
  }

  /** The entries an exit adds to the two histories, after the actions `executed`, the last
      recorded as `raw`. */
  predicate AddedAfter(added: seq<string>, thoughtsAdded: seq<string>, raw: string,
                       executed: seq<string>, maxInnerSteps: nat) {
    1 <= |executed| <= maxInnerSteps + 1
    && |added| == |executed| && added[|added| - 1] == raw
    && |thoughtsAdded| <= maxInnerSteps
    && (forall j :: 0 <= j < |executed| - 1 ==> executed[j] != "buy_now")
  }

  /** A purchase is an exit of the micro-agent. */
  lemma BuyingExits(state: LaserState, res: StepResult, raw: string, added: seq<string>, thoughtsAdded: seq<string>,
                    titlePrice: Option<(string, string)>, executed: seq<string>, maxInnerSteps: nat,
                    rethought: seq<Dict>)
    requires AddedAfter(added, thoughtsAdded, raw, executed, maxInnerSteps)
    requires executed[|executed| - 1] == "buy_now"
    requires RethinksAdded(state.rethinkHistory, rethought, state.stepCount)
    ensures ItemExit(state, Bought(state, res, raw, state.stepCount + |executed|, state.actionHistory + added,
                                   state.thoughtHistory + thoughtsAdded, titlePrice, rethought),
                     maxInnerSteps, executed)
  {
    BoughtShape(state, res, raw, added, thoughtsAdded, titlePrice, executed, maxInnerSteps, rethought);
  }

  lemma BoughtShape(state: LaserState, res: StepResult, raw: string, added: seq<string>, thoughtsAdded: seq<string>,
                    titlePrice: Option<(string, string)>, executed: seq<string>, maxInnerSteps: nat,
                    rethought: seq<Dict>)
    requires AddedAfter(added, thoughtsAdded, raw, executed, maxInnerSteps)
    requires executed[|executed| - 1] == "buy_now"
    ensures ItemExitShape(state, Bought(state, res, raw, state.stepCount + |executed|, state.actionHistory + added,
                                        state.thoughtHistory + thoughtsAdded, titlePrice, rethought),
                          maxInnerSteps, executed)
  {
    var after := Bought(state, res, raw, state.stepCount + |executed|, state.actionHistory + added,
                        state.thoughtHistory + thoughtsAdded, titlePrice, rethought);
    BuyExitShape(state, after, raw, added, thoughtsAdded, executed, maxInnerSteps);
  }

  /** Any state with the fields a purchase sets has the shape of an exit. */
  lemma BuyExitShape(state: LaserState, after: LaserState, raw: string, added: seq<string>,
                     thoughtsAdded: seq<string>, executed: seq<string>, maxInnerSteps: nat)
    requires AddedAfter(added, thoughtsAdded, raw, executed, maxInnerSteps)
    requires executed[|executed| - 1] == "buy_now"
    requires after.route == Some("to_stop") && after.currentLaserState == "Stopping"
    requires after.stepCount == state.stepCount + |executed|
    requires after.actionHistory == state.actionHistory + added
    requires after.thoughtHistory == state.thoughtHistory + thoughtsAdded
    requires after.lastAction == Some(raw) && after.url.None?
    requires after.selectedItem.Some? && Get(after.selectedItem.value, "source_state") == JStr("Item")
    requires after.userInstruction == state.userInstruction && after.memoryBuffer == state.memoryBuffer
    requires after.feedbackHistory == state.feedbackHistory
    ensures ItemExitShape(state, after, maxInnerSteps, executed)
  {
    assert (state.actionHistory + added)[..|state.actionHistory|] == state.actionHistory;
    assert (state.thoughtHistory + thoughtsAdded)[..|state.thoughtHistory|] == state.thoughtHistory;
  }

  /** Stopping without a purchase, and going back to Result after the last inner step, are
      exits of the micro-agent. */
  lemma LeavingExits(state: LaserState, res: StepResult, raw: string, added: seq<string>, thoughtsAdded: seq<string>,
                     space: string, route: string, executed: seq<string>, maxInnerSteps: nat,
                     rethought: seq<Dict>)
    requires AddedAfter(added, thoughtsAdded, raw, executed, maxInnerSteps)
    requires executed[|executed| - 1] != "buy_now"
    requires RethinksAdded(state.rethinkHistory, rethought, state.stepCount)
    requires (route == "to_stop" && space == "Stopping")
          || (route == "to_result" && space == "Result" && |executed| == maxInnerSteps + 1
              && executed[|executed| - 1] == "previous_page" && |thoughtsAdded| == maxInnerSteps)
    ensures ItemExit(state, Left(state, res, raw, state.stepCount + |executed|, state.actionHistory + added,
                                 state.thoughtHistory + thoughtsAdded, space, route, rethought),
                     maxInnerSteps, executed)
  {
    assert (state.actionHistory + added)[..|state.actionHistory|] == state.actionHistory;
    assert (state.thoughtHistory + thoughtsAdded)[..|state.thoughtHistory|] == state.thoughtHistory;
  }

  /** One inner step of the micro-agent: the model's choice, lowercased, passed through the
      visit rules and executed. Returns the new flags, the tool executed and its step. */
  method InnerStep(env: OfflineWebshopEnv, decision: Decision, visited: Visited)
    returns (r: Result<(Visited, string, StepResult)>)
    requires env.Valid()
    modifies env
    ensures env.Valid() && env.trajectory == old(env.trajectory)
    ensures ChosenAction(decision).Err? ==> r.Err?
    ensures r.Ok? ==>
      ChosenAction(decision).Ok? && (r.value.0, r.value.1) == VisitRule(visited, ChosenAction(decision).value["name"].s)
    ensures ChosenAction(decision).Ok? ==>
      var action := VisitedAction(ChosenAction(decision).value, VisitRule(visited, ChosenAction(decision).value["name"].s).1);
      (LaserTools.ActionString(action).Err? ==> r.Err?)
      && (r.Ok? ==>
            LaserTools.ActionString(action).Ok?
            && StepEffect(env.trajectory, old(env.Started()), old(env.currentStepIndex), old(env.selectedItemId),
                          LaserTools.ActionString(action).value, Ok(r.value.2), env.currentStepIndex, env.selectedItemId))
  {
    var chosen := ChosenAction(decision);
    if chosen.Err? {
      return Err(chosen.error);
    }
    var (visited', name) := VisitRule(visited, chosen.value["name"].s);
    var action := VisitedAction(chosen.value, name);
    var res := Execute(env, action);
    if res.Err? {
      return Err(res.error);
    }
    r := Ok((visited', name, res.value));
  }

  /** The call an inner step executes: the model's own action, or a bare call of the tool the
      visit rule redirected it to. */
  function VisitedAction(chosen: Dict, name: string): Dict
    requires "name" in chosen && chosen["name"].JStr?
  {
    if name != chosen["name"].s then BareCall(name) else chosen
  }

  /**
   * `run_item_micro_agent`. When the replayed expectation is a purchase it buys at once;
   * otherwise it asks the model up to `maxInnerSteps` times, applying the visit rules, and
   * stops on a purchase, on the end of the episode or on an error, and after the last inner
   * step goes back to the result list. `decide(k, obs)` is the model's decision on inner step
   * `k` given what it sees, before its feedback stage, which runs on the state the micro-agent
   * was given and so stamps every rethink with that state's step; `titlePrice` reads the
   * title and price off an item page.
   * `executed` lists the tools executed, in order.
   */
  method RunItemMicroAgent(env: OfflineWebshopEnv, state: LaserState, decide: (nat, string) -> Choice,
                           titlePrice: string -> Option<(string, string)>, maxInnerSteps: nat)
    returns (r: Result<LaserState>, executed: seq<string>)
    requires env.Valid()
    modifies env
    ensures env.Valid() && env.trajectory == old(env.trajectory)
    ensures r.Ok? ==> ItemExit(state, r.value, maxInnerSteps, executed)
    ensures ShortcutBuys(state.info, old(env.CurrentStepInfo())) == Ok(true) && r.Ok? ==>
      executed == ["buy_now"] && r.value.thoughtHistory == state.thoughtHistory
      && r.value.rethinkHistory == state.rethinkHistory
    ensures ShortcutBuys(state.info, old(env.CurrentStepInfo())).Err? ==> r.Err? && executed == []
  {
    executed := [];
    var shortcut := ShortcutBuys(state.info, env.CurrentStepInfo());
    if shortcut.Err? {
      return Err(shortcut.error), executed;
    }
    if shortcut.value {
      r, executed := BuyAtOnce(env, state, titlePrice, maxInnerSteps);
    } else {
      r, executed := ItemLoop(env, state, decide, titlePrice, maxInnerSteps);
    }
  }

  /** The micro-agent's purchase without asking the model. */
  method BuyAtOnce(env: OfflineWebshopEnv, state: LaserState, titlePrice: string -> Option<(string, string)>,
                   maxInnerSteps: nat)
    returns (r: Result<LaserState>, executed: seq<string>)
    requires env.Valid()
    modifies env
    ensures env.Valid() && env.trajectory == old(env.trajectory)
    ensures r.Ok? ==> ItemExit(state, r.value, maxInnerSteps, executed)
    ensures r.Ok? ==> executed == ["buy_now"] && r.value.thoughtHistory == state.thoughtHistory
                      && r.value.rethinkHistory == state.rethinkHistory
  {
    executed := [];
    var res := Execute(env, BareCall("buy_now"));
    if res.Err? {
      return Err(res.error), executed;
    }
    var raw := InfoText(res.value.info, "predicted_action", "click[Buy Now]");
    executed := ["buy_now"];
    NothingAdded(state.rethinkHistory, state.stepCount);
    BuyingExits(state, res.value, raw, [raw], [], titlePrice(state.obs), executed, maxInnerSteps,
                state.rethinkHistory);
    assert state.thoughtHistory + [] == state.thoughtHistory;
    r := Ok(Bought(state, res.value, raw, state.stepCount + 1, state.actionHistory + [raw], state.thoughtHistory + [],
                   titlePrice(state.obs), state.rethinkHistory));
  }

  /** The inner loop of the micro-agent, once no purchase is expected. */
  method ItemLoop(env: OfflineWebshopEnv, state: LaserState, decide: (nat, string) -> Choice,
                  titlePrice: string -> Option<(string, string)>, maxInnerSteps: nat)
    returns (r: Result<LaserState>, executed: seq<string>)
    requires env.Valid()
    modifies env
    ensures env.Valid() && env.trajectory == old(env.trajectory)
    ensures r.Ok? ==> ItemExit(state, r.value, maxInnerSteps, executed)
  {
    var obs := state.obs;
    var sa, st := state.actionHistory, state.thoughtHistory;
    var added, thoughtsAdded: seq<string> := [], [];
    executed := [];
    var visited := NoneVisited;
    var extra: seq<string> := [];
    var rethought := state.rethinkHistory;
    NothingAdded(rethought, state.stepCount);
    var k := 0;
    while k < maxInnerSteps
      invariant 0 <= k <= maxInnerSteps
      invariant |executed| == k && |added| == k && |thoughtsAdded| == k
      invariant forall j :: 0 <= j < k ==> executed[j] != "buy_now"
      invariant env.Valid() && env.trajectory == old(env.trajectory)
      invariant RethinksAdded(state.rethinkHistory, rethought, state.stepCount)
    {
      var thought, inner;
      thought, rethought, inner := AskAndStep(env, rethought, state.stepCount, decide(k, FullObs(obs, extra)),
                                              visited, state.rethinkHistory);
      thoughtsAdded := thoughtsAdded + [thought];
      if inner.Err? {
        return Err(inner.error), executed;
      }
      var name, res := inner.value.1, inner.value.2;
      visited := inner.value.0;
      var raw := InfoText(res.info, "predicted_action", name + "()");
      added, executed := added + [raw], executed + [name];
      if name == "buy_now" {
        BuyingExits(state, res, raw, added, thoughtsAdded, titlePrice(obs), executed, maxInnerSteps, rethought);
        return Ok(Bought(state, res, raw, state.stepCount + |executed|, sa + added, st + thoughtsAdded,
                         titlePrice(obs), rethought)), executed;
      }
      if Halts(res) {
        LeavingExits(state, res, raw, added, thoughtsAdded, "Stopping", "to_stop", executed, maxInnerSteps,
                     rethought);
        return Ok(Left(state, res, raw, state.stepCount + |executed|, sa + added, st + thoughtsAdded,
                       "Stopping", "to_stop", rethought)), executed;
      }
      if IsInfoTool(name) {
        extra := extra + [InfoBlock(name, ObsText(res.obs))];
      }
      obs := ObsText(res.obs);
      k := k + 1;
    }
    var res := Execute(env, BareCall("previous_page"));
    if res.Err? {
      return Err(res.error), executed;
    }
    var v := GetOr(res.value.info, "predicted_action", JStr(""));
    var raw := if Truthy(v) then Render(v) else "click[< Prev]";
    added, executed := added + [raw], executed + ["previous_page"];
    LeavingExits(state, res.value, raw, added, thoughtsAdded, "Result", "to_result", executed, maxInnerSteps,
                 rethought);
    r := Ok(Left(state, res.value, raw, state.stepCount + |executed|, sa + added, st + thoughtsAdded,
                 "Result", "to_result", rethought));
  }

  /** The start of one round of the micro-agent: the feedback stage on the model's choice,
      then the inner step of the decision it gives. */
  method AskAndStep(env: OfflineWebshopEnv, rethought: seq<Dict>, step: int, choice: Choice, visited: Visited,
                    ghost base: seq<Dict>)
    returns (thought: string, rethought': seq<Dict>, r: Result<(Visited, string, StepResult)>)
    requires env.Valid() && RethinksAdded(base, rethought, step)
    modifies env
    ensures env.Valid() && env.trajectory == old(env.trajectory)
    ensures thought == Choose(rethought, step, choice).0.thought && rethought' == Choose(rethought, step, choice).1
    ensures RethinksAdded(base, rethought', step)
  {
    ChooseKeepsAdded(base, rethought, step, choice);
    var decision := Choose(rethought, step, choice).0;
    thought, rethought' := decision.thought, Choose(rethought, step, choice).1;
    r := InnerStep(env, decision, visited);
  }

  /**
   * `node_item_space`: the model is asked once on entry, and that decision is thrown away,
   * but its feedback stage may already have appended a rethink to the state's list; then the
   * micro-agent runs on the state with that list.
   */
  method NodeItemSpace(env: OfflineWebshopEnv, state: LaserState, entry: Choice, decide: (nat, string) -> Choice,
                       titlePrice: string -> Option<(string, string)>)
    returns (r: Result<LaserState>, executed: seq<string>)
    requires env.Valid()
    modifies env
    ensures env.Valid() && env.trajectory == old(env.trajectory)
    ensures r.Ok? ==>
      var entered := state.(rethinkHistory := Choose(state.rethinkHistory, state.stepCount, entry).1);
      ItemExit(entered, r.value, MaxInnerSteps, executed)
      && RethinksAdded(state.rethinkHistory, r.value.rethinkHistory, state.stepCount)
  {
    var entered := state.(rethinkHistory := Choose(state.rethinkHistory, state.stepCount, entry).1);
    ChooseKeepsAdded(state.rethinkHistory, state.rethinkHistory, state.stepCount, entry);
    r, executed := RunItemMicroAgent(env, entered, decide, titlePrice, MaxInnerSteps);
    if r.Ok? {
      RethinksAddedTrans(state.rethinkHistory, entered.rethinkHistory, r.value.rethinkHistory, state.stepCount);
    }
  }

  /** `max_inner_steps` of `run_item_micro_agent`, which the Item node leaves at its default. */
  const MaxInnerSteps: nat := 3

  lemma NothingAdded(history: seq<Dict>, step: int)
    ensures RethinksAdded(history, history, step)
  {
    assert history[..|history|] == history;
  }

  lemma RethinksAddedTrans(a: seq<Dict>, b: seq<Dict>, c: seq<Dict>, step: int)
    requires RethinksAdded(a, b, step) && RethinksAdded(b, c, step)
    ensures RethinksAdded(a, c, step)
  {
    assert c[..|a|] == c[..|b|][..|a|];
    forall j | |a| <= j < |c| ensures Get(c[j], "step") == JInt(step) {
      if j < |b| { assert c[j] == c[..|b|][j]; }
    }
  }

  /** The micro-agent's two routes are edges of Item's table: Stopping and back to Result. */
  lemma ItemRoutesAreEdges()
    ensures LaserGraph.ItemEdge("to_stop") == Some(LaserGraph.Stopping)
    ensures LaserGraph.ItemEdge("to_result") == Some(LaserGraph.ResultSpace)
  {
  }
}
