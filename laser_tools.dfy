/**
 * The LASER agent's `ToolKit` (LASER/tools.py): a fixed map from the nine tool names the LLM
 * may call to the action strings sent to the WebShop environment.
 */
module LaserTools {
  import opened Wrappers
  import opened Text
  import opened Json

  /** The nine keys of the tool map. */
  const ToolNames: seq<string> := ["search", "select_item", "description", "features", "reviews",
                                   "buy_now", "previous_page", "next_page", "back_to_search"]

  /** The action string of a tool that takes no argument. */
  function FixedAction(name: string): Option<string> {
    if name == "description" then Some("click[description]")
    else if name == "features" then Some("click[features]")
    else if name == "reviews" then Some("click[reviews]")
    else if name == "buy_now" then Some("click[Buy Now]")
    else if name == "previous_page" then Some("click[< Prev]")
    else if name == "next_page" then Some("click[Next >]")
    else if name == "back_to_search" then Some("click[Back to Search]")
    else None
  }

  /**
   * The action string `execute` sends to `env.step`, or the exception it raises: ValueError for
   * a name outside the map, TypeError when the arguments are not a mapping or lack the one
   * keyword argument the tool needs (`keywords` for search, `item_id` for select_item).
   */
  function ActionString(action: Dict): (r: Result<string>)
  {
    match StrOrEmpty(Get(action, "name"))
    case Err(e) => Err(e)
    case Ok(raw) =>
      var name := Lower(raw);
      var arguments := GetOr(action, "arguments", JObj(map[]));
      if name !in ToolNames then Err("ValueError")
      else if !arguments.JObj? then Err("TypeError")
      else if name == "search" then
        if "keywords" in arguments.fields then Ok("search[" + Render(arguments.fields["keywords"]) + "]")
        else Err("TypeError")
      else if name == "select_item" then
        if "item_id" in arguments.fields then Ok("click[" + Render(arguments.fields["item_id"]) + "]")
        else Err("TypeError")
      else Ok(FixedAction(name).value)
  }

  /** What `execute` makes of a well-formed call of each tool. */
  lemma ActionStrings(raw: string, args: Dict)
    requires Lower(raw) in ToolNames
    requires Lower(raw) == "search" ==> "keywords" in args
    requires Lower(raw) == "select_item" ==> "item_id" in args
    ensures var r := ActionString(map["name" := JStr(raw), "arguments" := JObj(args)]);
      r.Ok?
      && (Lower(raw) == "search" ==> r.value == "search[" + Render(args["keywords"]) + "]")
      && (Lower(raw) == "select_item" ==> r.value == "click[" + Render(args["item_id"]) + "]")
      && (Lower(raw) != "search" && Lower(raw) != "select_item" ==>
            FixedAction(Lower(raw)).Some? && r.value == FixedAction(Lower(raw)).value)
  {
    var action := map["name" := JStr(raw), "arguments" := JObj(args)];
    assert raw != "" by { assert Lower("") == ""; }
    assert StrOrEmpty(Get(action, "name")) == Ok(raw);
  }

  /** Names are matched after lowercasing only: a name outside the map raises ValueError, and
      so do the `prev` and `next` spellings other parts of the agent use. */
  lemma UnknownToolRaises(raw: string, args: Json)
    requires Lower(raw) !in ToolNames
    ensures ActionString(map["name" := JStr(raw), "arguments" := args]) == Err("ValueError")
  {
    var action := map["name" := JStr(raw), "arguments" := args];
    if raw != "" {
      assert StrOrEmpty(Get(action, "name")) == Ok(raw);
    }
  }
}
