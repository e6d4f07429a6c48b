/**
 * The LASER state graph (LASER/graph.py): four state spaces, Search, Result, Item and
 * Stopping, joined by fixed edges and by a router that follows the `route` the last node set,
 * unless the step budget is spent.
 */
module LaserGraph {
  import opened Wrappers
  import opened Text
  import opened Json

  /** The agent state the nodes read and the graph carries between them (LASER/state.py). */
  datatype LaserState = LaserState(
    userInstruction: string,
    obs: string,
    url: Option<string>,
    currentLaserState: string,
    stepCount: int,
    actionHistory: seq<string>,
    thoughtHistory: seq<string>,
    memoryBuffer: seq<Dict>,
    feedbackHistory: seq<Dict>,
    rethinkHistory: seq<Dict>,
    route: Option<string>,
    lastAction: Option<string>,
    selectedItem: Option<Dict>,
    info: Option<Dict>)

  datatype Node = SearchSpace | ResultSpace | ItemSpace | Stopping | End

  /**
   * `router_fn`: `to_stop` once the step budget is spent, whatever the route; below it, the
   * stored route, or ValueError when none (or an empty one) is set.
   */
  function RouterFn(state: LaserState, maxSteps: int): (r: Result<string>)
    ensures state.stepCount >= maxSteps ==> r == Ok("to_stop")
    ensures state.stepCount < maxSteps ==>
      (r.Err? <==> state.route.None? || state.route.value == "")
      && (r.Ok? ==> Some(r.value) == state.route)
  {
    if state.stepCount >= maxSteps then Ok("to_stop")
    else if state.route.None? || state.route.value == "" then Err("ValueError")
    else Ok(state.route.value)
  }

  /** The conditional edges out of Result. */
  function ResultEdge(edge: string): Option<Node> {
    if edge == "to_item" then Some(ItemSpace)
    else if edge == "stay_result" then Some(ResultSpace)
    else if edge == "to_search" then Some(SearchSpace)
    else if edge == "to_stop" then Some(Stopping)
    else None
  }

  /** The conditional edges out of Item. */
  function ItemEdge(edge: string): Option<Node> {
    if edge == "stay_item" then Some(ItemSpace)
    else if edge == "to_result" then Some(ResultSpace)
    else if edge == "to_stop" then Some(Stopping)
    else None
  }

  /**
   * The node the graph runs after `from`, once that node has produced `state`: Search and
   * Stopping have fixed edges, Result and Item follow the router through their edge table, and
   * a route outside the table is an error. End has no successor.
   */
  function Successor(from: Node, state: LaserState, maxSteps: int): Result<Node> {
    match from
    case SearchSpace => Ok(ResultSpace)
    case Stopping => Ok(End)
    case End => Err("END")
    case ResultSpace =>
      (match RouterFn(state, maxSteps)
       case Err(e) => Err(e)
       case Ok(edge) => if ResultEdge(edge).Some? then Ok(ResultEdge(edge).value) else Err("KeyError"))
    case ItemSpace =>
      (match RouterFn(state, maxSteps)
       case Err(e) => Err(e)
       case Ok(edge) => if ItemEdge(edge).Some? then Ok(ItemEdge(edge).value) else Err("KeyError"))
  }

  /** Search proceeds to Result whatever route the Search node set, even `to_stop`. */
  lemma SearchAlwaysReachesResult(state: LaserState, maxSteps: int)
    ensures Successor(SearchSpace, state, maxSteps) == Ok(ResultSpace)
  {
  }

  /** Result may reach each of the four state spaces, and no other node. */
  lemma ResultTargets(state: LaserState, maxSteps: int)
    ensures var n := Successor(ResultSpace, state, maxSteps);
      n.Ok? ==> n.value in {ItemSpace, ResultSpace, SearchSpace, Stopping}
    ensures state.stepCount < maxSteps && state.route == Some("to_item") ==>
      Successor(ResultSpace, state, maxSteps) == Ok(ItemSpace)
    ensures state.stepCount < maxSteps && state.route == Some("stay_result") ==>
      Successor(ResultSpace, state, maxSteps) == Ok(ResultSpace)
    ensures state.stepCount < maxSteps && state.route == Some("to_search") ==>
      Successor(ResultSpace, state, maxSteps) == Ok(SearchSpace)
  {
  }

  /** Item may stay, return to Result or stop; a route back to Search is not in its table. */
  lemma ItemTargets(state: LaserState, maxSteps: int)
    ensures var n := Successor(ItemSpace, state, maxSteps);
      n.Ok? ==> n.value in {ItemSpace, ResultSpace, Stopping}
    ensures state.stepCount < maxSteps && state.route == Some("to_search") ==>
      Successor(ItemSpace, state, maxSteps).Err?
    ensures state.stepCount < maxSteps && state.route == Some("to_result") ==>
      Successor(ItemSpace, state, maxSteps) == Ok(ResultSpace)
  {
  }

  /** Once the budget is spent, Result and Item go to Stopping, and Stopping ends the run. */
  lemma BudgetSpentStops(from: Node, state: LaserState, maxSteps: int)
    requires from == ResultSpace || from == ItemSpace
    requires state.stepCount >= maxSteps
    ensures Successor(from, state, maxSteps) == Ok(Stopping)
    ensures Successor(Stopping, state, maxSteps) == Ok(End)
  {
  }

  /** The initial state `run_laser_agent` builds. */
  function InitialState(instruction: string, observation: string, url: Option<string>): (s: LaserState)
    ensures s.stepCount == 0 && s.currentLaserState == "Search"
    ensures s.actionHistory == [] && s.thoughtHistory == [] && s.memoryBuffer == []
    ensures s.feedbackHistory == [] && s.rethinkHistory == []
    ensures s.userInstruction == instruction && s.obs == observation && s.url == url
    ensures s.route.None? && s.selectedItem.None?
  {
    LaserState(instruction, observation, url, "Search", 0, [], [], [], [], [], None, None, None, None)
  }

  /** The run starts at Search, so the router never sees the initial state, which carries no
      route and would make it raise whenever there is budget left. */
  lemma InitialStateNeedsNoRoute(instruction: string, observation: string, url: Option<string>, maxSteps: int)
    ensures Successor(SearchSpace, InitialState(instruction, observation, url), maxSteps) == Ok(ResultSpace)
    ensures maxSteps > 0 ==> RouterFn(InitialState(instruction, observation, url), maxSteps).Err?
  {
  }

  /** The run configuration: a recursion limit of twice the step budget, and a checkpoint
      thread named after the session when one is given. */
  datatype RunConfig = RunConfig(recursionLimit: int, threadId: Option<string>)

  function Config(maxSteps: int, sessionId: Option<int>): (c: RunConfig)
    ensures c.recursionLimit == 2 * maxSteps
    ensures c.threadId.Some? <==> sessionId.Some?
    ensures sessionId.Some? ==> c.threadId.value == IntToString(sessionId.value)
  {
    RunConfig(maxSteps * 2, if sessionId.Some? then Some(IntToString(sessionId.value)) else None)
  }
}
