/**
 * The replay logger of the tree search agent (InferenceTimeTreeSearch/replay.py): one
 * session at a time collecting state and action records, state serialisation, and the
 * analysis of a saved session. Clock readings are parameters; the JSON file written at
 * the end of a session is returned instead of written.
 */
module TreeSearchReplay {
  import opened Wrappers
  import opened Text
  import opened Seqs
  import opened Json

  datatype StateRecord = StateRecord(timestamp: string, state: Dict, score: real)

  datatype ActionRecord = ActionRecord(timestamp: string, action: string, result: Dict)

  /** The `current_session` dict. */
  datatype Session = Session(
    sessionId: string,
    goal: string,
    config: Dict,
    startTime: string,
    states: seq<StateRecord>,
    actions: seq<ActionRecord>,
    scores: seq<real>,
    endTime: Option<string>,
    finalResult: Option<Dict>)

  /** `_serialize_state`: the frontier becomes its length (0 when falsy), an observation
      becomes its summary, every other entry is copied. A frontier without a length or an
      observation that is not a dict raises, modelled as `Err`. */
  function SerializeState(state: Dict): (r: Result<Dict>)
    ensures r.Ok? ==> r.value.Keys == state.Keys
    ensures r.Ok? ==> forall k :: k in state && k != "frontier" && k != "observation" ==> r.value[k] == state[k]
    ensures r.Ok? && "frontier" in state && Truthy(state["frontier"]) ==>
      Len(state["frontier"]).Some? && r.value["frontier"] == JInt(Len(state["frontier"]).value)
    ensures r.Ok? && "frontier" in state && !Truthy(state["frontier"]) ==> r.value["frontier"] == JInt(0)
    ensures r.Ok? && "observation" in state ==>
      ObservationSummary(state["observation"]).Ok?
      && r.value["observation"] == ObservationSummary(state["observation"]).value
    ensures r.Err? <==>
      ("frontier" in state && Truthy(state["frontier"]) && Len(state["frontier"]).None?)
      || ("observation" in state && ObservationSummary(state["observation"]).Err?)
  {
    var f: Result<Json> :=
      if "frontier" !in state then Ok(JNull)
      else if !Truthy(state["frontier"]) then Ok(JInt(0))
      else if Len(state["frontier"]).None? then Err("TypeError: object has no len()")
      else Ok(JInt(Len(state["frontier"]).value));
    var o: Result<Json> :=
      if "observation" !in state then Ok(JNull) else ObservationSummary(state["observation"]);
    if f.Err? then Err(f.error)
    else if o.Err? then Err(o.error)
    else
      var s1 := if "frontier" in state then state["frontier" := f.value] else state;
      Ok(if "observation" in state then s1["observation" := o.value] else s1)
  }

  /** The observation summary: query, page, sort and filters as read with `get`, and the
      numbers of results and cart items. */
  function ObservationSummary(obs: Json): (r: Result<Json>)
    ensures r.Ok? ==> obs.JObj? && r.value.JObj?
    ensures r.Ok? ==> r.value.fields.Keys == {"query", "page", "sort", "filters", "result_count", "cart_count"}
  {
    if !obs.JObj? then Err("AttributeError: object has no attribute 'get'")
    else
      var d := obs.fields;
      var results := Len(GetOr(d, "results", JList([])));
      var cart := Len(GetOr(d, "cart", JList([])));
      if results.None? || cart.None? then Err("TypeError: object has no len()")
      else Ok(JObj(map[
        "query" := Get(d, "query"),
        "page" := Get(d, "page"),
        "sort" := Get(d, "sort"),
        "filters" := Get(d, "filters"),
        "result_count" := JInt(results.value),
        "cart_count" := JInt(cart.value)]))
  }

  /** `config or {}`. */
  function ConfigOrEmpty(config: Option<Dict>): (r: Dict)
    ensures config.Some? ==> r == config.value
    ensures config.None? ==> r == map[]
  {
    if config.Some? && config.value != map[] then config.value else map[]
  }

  /** `ReplayLogger`: at most one session is open at a time. */
  class ReplayLogger {
    const logDir: string
    var current: Option<Session>

    constructor (logDir: string)
      ensures this.logDir == logDir && current == None
    {
      this.logDir := logDir;
      current := None;
    }

    /** `start_session`: a fresh session with empty record lists replaces any open one. */
    method StartSession(goal: string, config: Option<Dict>, timestamp: string) returns (id: string)
      modifies this
      ensures id == "session_" + timestamp
      ensures current == Some(Session(id, goal, ConfigOrEmpty(config), timestamp, [], [], [], None, None))
    {
      id := "session_" + timestamp;
      current := Some(Session(id, goal, ConfigOrEmpty(config), timestamp, [], [], [], None, None));
    }

    /** `log_state`: nothing without a session; otherwise one record at the end of `states`,
        unless serialising the state raises, which leaves the session as it was. */
    method LogState(state: Dict, score: real, now: string) returns (r: Result<bool>)
      modifies this
      ensures old(current).None? ==> current == old(current) && r == Ok(false)
      ensures old(current).Some? && SerializeState(state).Err? ==> current == old(current) && r.Err?
      ensures old(current).Some? && SerializeState(state).Ok? ==>
        r == Ok(true) &&
        current == Some(old(current).value.(states := old(current).value.states + [StateRecord(now, SerializeState(state).value, score)]))
    {
      if current.None? {
        return Ok(false);
      }
      var s := SerializeState(state);
      if s.Err? {
        return Err(s.error);
      }
      var c := current.value;
      current := Some(c.(states := c.states + [StateRecord(now, s.value, score)]));
      r := Ok(true);
    }

    /** `log_action`: nothing without a session; otherwise one record at the end of `actions`. */
    method LogAction(action: string, result: Dict, now: string)
      modifies this
      ensures old(current).None? ==> current == old(current)
      ensures old(current).Some? ==>
        current == Some(old(current).value.(actions := old(current).value.actions + [ActionRecord(now, action, result)]))
    {
      if current.Some? {
        var c := current.value;
        current := Some(c.(actions := c.actions + [ActionRecord(now, action, result)]));
      }
    }

    /** `end_session`: `None` without a session; otherwise the session, completed with its
        end time and final result, is handed out to be saved, closed, and its id returned. */
    method EndSession(finalResult: Dict, now: string) returns (id: Option<string>, saved: Option<Session>)
      modifies this
      ensures old(current).None? ==> id.None? && saved.None? && current.None?
      ensures old(current).Some? ==>
        id == Some(old(current).value.sessionId)
        && saved == Some(old(current).value.(endTime := Some(now), finalResult := Some(finalResult)))
        && current.None?
    {
      if current.None? {
        return None, None;
      }
      var c := current.value.(endTime := Some(now), finalResult := Some(finalResult));
      saved := Some(c);
      id := Some(c.sessionId);
      current := None;
    }
  }

  // ---------------------------------------------------------------- analysis

  /** Iterating a value as the records of a list: an empty string or dict iterates as
      nothing, anything else that is not a list cannot give records. */
  function Records(v: Json): Option<seq<Json>> {
    match v
    case JList(items) => Some(items)
    case JStr(s) => if s == [] then Some([]) else None
    case JObj(f) => if f == map[] then Some([]) else None
    case _ => None
  }

  /** `s["score"]` for every state record. */
  function ScoresOf(states: seq<Json>): (r: Option<seq<Json>>)
    ensures r.Some? ==> |r.value| == |states|
    ensures r.Some? ==> forall i :: 0 <= i < |states| ==> states[i].JObj? && "score" in states[i].fields && r.value[i] == states[i].fields["score"]
  {
    if states == [] then Some([])
    else
      var last := states[|states| - 1];
      var init := ScoresOf(states[..|states| - 1]);
      if init.None? || !last.JObj? || "score" !in last.fields then None
      else Some(init.value + [last.fields["score"]])
  }

  /** `action_log["action"]` for every action record; `split` needs a string. */
  function ActionStrings(actions: seq<Json>): (r: Option<seq<string>>)
    ensures r.Some? ==> |r.value| == |actions|
    ensures r.Some? ==> forall i :: 0 <= i < |actions| ==> actions[i].JObj? && "action" in actions[i].fields && actions[i].fields["action"] == JStr(r.value[i])
  {
    if actions == [] then Some([])
    else
      var last := actions[|actions| - 1];
      var init := ActionStrings(actions[..|actions| - 1]);
      if init.None? || !last.JObj? || "action" !in last.fields || !last.fields["action"].JStr? then None
      else Some(init.value + [last.fields["action"].s])
  }

  /** The type of an action string: the text before its first ':', or all of it. */
  function ActionType(a: string): (t: string)
    ensures StartsWith(a, t) && ':' !in t
    ensures ':' !in a ==> t == a
  {
    if Contains(a, ":") then
      NoColonInFirst(a);
      ColonContained(a);
      Split(a, ":")[0]
    else
      NoColonNotContained(a);
      a
  }

  lemma NoColonInFirst(a: string)
    ensures StartsWith(a, Split(a, ":")[0]) && ':' !in Split(a, ":")[0]
  {
    var t := BeforeFirst(a, ":");
    assert t == Split(a, ":")[0];
    if ':' in t {
      var j :| 0 <= j < |t| && t[j] == ':';
      assert OccursAt(t, ":", j);
      ContainsWitness(t, ":", j);
      assert false;
    }
  }

  lemma ColonContained(a: string)
    requires Contains(a, ":")
    ensures ':' in a
  {
    ContainsIff(a, ":");
    var j :| OccursAt(a, ":", j);
    assert a[j..j + 1][0] == a[j];
  }

  lemma NoColonNotContained(a: string)
    requires !Contains(a, ":")
    ensures ':' !in a
  {
    if ':' in a {
      var j :| 0 <= j < |a| && a[j] == ':';
      assert OccursAt(a, ":", j);
      ContainsWitness(a, ":", j);
      assert false;
    }
  }

  function ActionTypes(actions: seq<string>): (r: seq<string>)
    ensures |r| == |actions|
    ensures forall i :: 0 <= i < |r| ==> r[i] == ActionType(actions[i])
  {
    seq(|actions|, i requires 0 <= i < |actions| => ActionType(actions[i]))
  }

  /** The dict `analyze_session` returns; `actionTypes` keeps the dict's insertion order. */
  datatype Analysis = Analysis(
    goal: Json,
    totalStates: nat,
    totalActions: nat,
    success: Json,
    finalScore: Json,
    scoreProgression: seq<Json>,
    actionTypes: seq<(string, nat)>)

  /** `analyze_session` on a loaded session dict; a record without the expected fields or
      a `final_result` that is not a dict raises, modelled as `None`. */
  method AnalyzeSession(session: Dict) returns (r: Option<Analysis>)
    ensures r == AnalysisOf(session)
  {
    var states := Records(GetOr(session, "states", JList([])));
    var actions := Records(GetOr(session, "actions", JList([])));
    var fr := GetOr(session, "final_result", JObj(map[]));
    if states.None? || actions.None? || !fr.JObj? {
      return None;
    }
    var scores := ScoresOf(states.value);
    var strings := ActionStrings(actions.value);
    if scores.None? || strings.None? {
      return None;
    }
    var counts, order := CountOccurrences(ActionTypes(strings.value));
    var types := seq(|order|, i requires 0 <= i < |order| => (order[i], counts[order[i]]));
    assert types == CountsInOrder(ActionTypes(strings.value));
    r := Some(Analysis(
      Get(session, "goal"), |states.value|, |actions.value|,
      GetOr(fr.fields, "success", JBool(false)), GetOr(fr.fields, "best_score", JInt(0)),
      scores.value, types));
  }

  function AnalysisOf(session: Dict): Option<Analysis> {
    var states := Records(GetOr(session, "states", JList([])));
    var actions := Records(GetOr(session, "actions", JList([])));
    var fr := GetOr(session, "final_result", JObj(map[]));
    if states.None? || actions.None? || !fr.JObj? then None
    else
      var scores := ScoresOf(states.value);
      var strings := ActionStrings(actions.value);
      if scores.None? || strings.None? then None
      else Some(Analysis(
        Get(session, "goal"), |states.value|, |actions.value|,
        GetOr(fr.fields, "success", JBool(false)), GetOr(fr.fields, "best_score", JInt(0)),
        scores.value, CountsInOrder(ActionTypes(strings.value))))
  }

  /** The totals are the record counts, the score progression lists the state scores in
      order, and the action-type counts add up to the number of actions. */
  lemma AnalysisTotals(session: Dict)
    requires AnalysisOf(session).Some?
    ensures var a := AnalysisOf(session).value;
      var states := Records(GetOr(session, "states", JList([]))).value;
      && a.totalStates == |states| == |a.scoreProgression|
      && (forall i :: 0 <= i < |states| ==> a.scoreProgression[i] == states[i].fields["score"])
      && SumCounts(a.actionTypes) == a.totalActions
  {
    var strings := ActionStrings(Records(GetOr(session, "actions", JList([]))).value).value;
    CountsInOrderTotal(ActionTypes(strings));
  }

  /** Each action-type key is the text before the first ':' of some logged action, and no
      key is repeated. */
  lemma ActionTypeKeys(strings: seq<string>)
    ensures var c := CountsInOrder(ActionTypes(strings));
      && (forall i, j :: 0 <= i < j < |c| ==> c[i].0 != c[j].0)
      && (forall i :: 0 <= i < |c| ==> ':' !in c[i].0 && exists k :: 0 <= k < |strings| && c[i].0 == ActionType(strings[k]))
  {
    var types := ActionTypes(strings);
    var c := CountsInOrder(types);
    CountsInOrderKeys(types);
    forall i | 0 <= i < |c| ensures ':' !in c[i].0 && exists k :: 0 <= k < |strings| && c[i].0 == ActionType(strings[k]) {
      var k :| 0 <= k < |types| && types[k] == c[i].0;
      assert c[i].0 == ActionType(strings[k]);
    }
  }
}
