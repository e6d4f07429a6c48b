/**
 * The offline replay driver of the LASER agent (LASER/replay.py): a recorded WebShop episode
 * played back as an environment, the formatter that turns a logged LLM action into an action
 * string, the trajectory normaliser, the stub policy and the runner's step counters.
 */
module LaserReplay {
  import opened Wrappers
  import opened Text
  import opened Json
  import LaserTools

  // ---------------------------------------------------------------- _format_action

  /** The `str(args.get(key, ''))` of an argument, or the AttributeError of `args.get` when
      the logged arguments are a truthy value that is not a dict. */
  function ArgText(args: Json, key: string): Result<string> {
    match DictOrEmpty(args)
    case Err(e) => Err(e)
    case Ok(d) => Ok(Render(GetOr(d, key, JStr(""))))
  }

  /** The action string of a logged step's LLM action; `''` for a name it does not know. */
  function FormatAction(step: Dict): Result<string> {
    match StrOrEmpty(Get(step, "llm_action_name"))
    case Err(e) => Err(e)
    case Ok(raw) =>
      var name := Lower(Strip(raw));
      var args := Get(step, "llm_action_arguments");
      if name == "search" then
        match ArgText(args, "keywords") case Err(e) => Err(e) case Ok(k) => Ok("search[" + k + "]")
      else if name in ["select_item", "selectitem", "click_item", "choose_item"] then
        match ArgText(args, "item_id") case Err(e) => Err(e) case Ok(k) => Ok("click[" + k + "]")
      else Ok(FixedFormat(name))
  }

  /** The names `_format_action` maps to a fixed click. */
  function FixedFormat(name: string): string {
    if name == "description" then "click[description]"
    else if name == "features" then "click[features]"
    else if name == "reviews" then "click[reviews]"
    else if name in ["buy_now", "buy-now", "buynow", "buy"] then "click[Buy Now]"
    else if name in ["prev", "previous"] then "click[< Prev]"
    else if name in ["next", "next_page"] then "click[Next >]"
    else if name in ["back_to_search", "back"] then "click[Back to Search]"
    else ""
  }

  /** A logged step with this name and these arguments. */
  function LoggedStep(name: string, args: Dict): Dict {
    map["llm_action_name" := JStr(name), "llm_action_arguments" := JObj(args)]
  }

  /** The formatter reads only the logged name and arguments of a step. */
  lemma FormatReadsNameAndArgs(a: Dict, b: Dict)
    requires Get(a, "llm_action_name") == Get(b, "llm_action_name")
    requires Get(a, "llm_action_arguments") == Get(b, "llm_action_arguments")
    ensures FormatAction(a) == FormatAction(b)
  {
  }

  /** What the formatter makes of a logged name that is already lower case and stripped. */
  lemma FormatOfLogged(name: string, args: Dict)
    requires name != "" && Strip(name) == name && Lower(name) == name
    ensures name == "search" ==>
      FormatAction(LoggedStep(name, args)) == Ok("search[" + Render(GetOr(args, "keywords", JStr(""))) + "]")
    ensures name in ["select_item", "selectitem", "click_item", "choose_item"] ==>
      FormatAction(LoggedStep(name, args)) == Ok("click[" + Render(GetOr(args, "item_id", JStr(""))) + "]")
    ensures name != "search" && name !in ["select_item", "selectitem", "click_item", "choose_item"] ==>
      FormatAction(LoggedStep(name, args)) == Ok(FixedFormat(name))
  {
    assert StrOrEmpty(Get(LoggedStep(name, args), "llm_action_name")) == Ok(name);
    assert DictOrEmpty(Get(LoggedStep(name, args), "llm_action_arguments")) == Ok(args) by {
      if args == map[] {
        assert !Truthy(JObj(args));
      }
    }
  }

  /**
   * The replay formatter and the ToolKit agree on eight of the nine tool names. For
   * `previous_page` the formatter has no entry (it knows only `prev` and `previous`), so a
   * logged `previous_page` step replays as the empty action.
   */
  lemma FormatAgreesWithToolKit(name: string, args: Dict)
    requires name in LaserTools.ToolNames && name != "previous_page"
    requires name == "search" ==> "keywords" in args
    requires name == "select_item" ==> "item_id" in args
    ensures FormatAction(LoggedStep(name, args))
      == LaserTools.ActionString(map["name" := JStr(name), "arguments" := JObj(args)])
  {
    LowerOfToolName(name);
    StripNoop(name);
    LaserTools.ActionStrings(name, args);
    FormatOfLogged(name, args);
    if name != "search" && name != "select_item" {
      FixedFormatAgrees(name);
    }
  }

  lemma FixedFormatAgrees(name: string)
    requires name in ["description", "features", "reviews", "buy_now", "next_page", "back_to_search"]
    ensures name !in ["select_item", "selectitem", "click_item", "choose_item"]
    ensures LaserTools.FixedAction(name) == Some(FixedFormat(name))
  {
  }

  lemma PreviousPageFormatsEmpty(args: Dict)
    ensures FormatAction(LoggedStep("previous_page", args)) == Ok("")
    ensures LaserTools.ActionString(map["name" := JStr("previous_page"), "arguments" := JObj(args)])
      == Ok("click[< Prev]")
  {
    LowerOfToolName("previous_page");
    StripNoop("previous_page");
    LaserTools.ActionStrings("previous_page", args);
    var name := "previous_page";
    assert name != "search" && name !in ["select_item", "selectitem", "click_item", "choose_item"];
    assert FixedFormat(name) == "";
    FormatOfLogged(name, args);
  }

  /** The tool names are lower case and carry no surrounding space. */
  lemma LowerOfToolName(name: string)
    requires name in LaserTools.ToolNames
    ensures Lower(name) == name
    ensures |name| > 0 && !IsSpace(name[0]) && !IsSpace(name[|name| - 1])
  {
    ToolNameChars(name);
    LowerOfSnakeCase(name);
  }

  /** Lower-case letters and underscores only. */
  predicate SnakeCase(s: string) {
    forall i :: 0 <= i < |s| ==> 'a' <= s[i] <= 'z' || s[i] == '_'
  }

  lemma ToolNameChars(name: string)
    requires name in LaserTools.ToolNames
    ensures |name| > 0 && SnakeCase(name)
  {
  }

  lemma LowerOfSnakeCase(s: string)
    requires SnakeCase(s)
    ensures Lower(s) == s
    ensures |s| > 0 ==> !IsSpace(s[0]) && !IsSpace(s[|s| - 1])
  {
  }

  // ---------------------------------------------------------------- _normalize_trajectory

  /** What iterating a logged trajectory gives: a list gives its entries and an empty string
      or dict gives none. A non-empty string or dict gives string entries, and the first of
      them raises AttributeError at `.get`; anything else is not iterable (TypeError). */
  function Entries(v: Json): (r: Result<seq<Json>>)
    ensures r.Ok? <==> v.JList? || v == JStr("") || v == JObj(map[])
    ensures r.Ok? ==> r.value == (if v.JList? then v.items else [])
    ensures r.Err? ==> r.error == (if v.JStr? || v.JObj? then "AttributeError" else "TypeError")
  {
    match v
    case JList(items) => Ok(items)
    case JStr(s) => if s == "" then Ok([]) else Err("AttributeError")
    case JObj(f) => if f == map[] then Ok([]) else Err("AttributeError")
    case _ => Err("TypeError")
  }

  /** The error a non-dict entry raises in the loop of `_normalize_trajectory`: the membership
      test `'step_number' in st` raises TypeError on a number, a boolean or None, and `.get`
      raises AttributeError on a string or a list. */
  function EntryError(entry: Json): string {
    if entry.JStr? || entry.JList? then "AttributeError" else "TypeError"
  }

  /** The position of the first entry that is not a dict. */
  function FirstNonDict(items: seq<Json>): (k: nat)
    ensures k <= |items|
    ensures k < |items| ==> !items[k].JObj?
    ensures forall j :: 0 <= j < k ==> items[j].JObj?
    ensures (exists j :: 0 <= j < |items| && !items[j].JObj?) ==> k < |items|
    decreases |items|
  {
    if items == [] then 0
    else if !items[0].JObj? then 0
    else 1 + FirstNonDict(items[1..])
  }

  /** The standard step made of an `item_page_action` entry. */
  function ItemPageStep(st: Dict): Result<Dict> {
    match DictOrEmpty(Get(st, "llm_action"))
    case Err(e) => Err(e)
    case Ok(llm) =>
      var name := Or(Get(llm, "name"), JStr(""));
      var args := GetOr(llm, "arguments", JObj(map[]));
      match FormatAction(LoggedAction(name, args))
      case Err(e) => Err(e)
      case Ok(a) => Ok(ItemPageDict(st, name, args, a))
  }

  /** The logged name and arguments of a step, as the formatter reads them. */
  function LoggedAction(name: Json, args: Json): Dict {
    map["llm_action_name" := name, "llm_action_arguments" := args]
  }

  /** The fields of the step made of an item page action. */
  function ItemPageDict(st: Dict, name: Json, args: Json, action: string): (d: Dict)
    ensures "step_number" in d
    ensures Get(d, "llm_action_name") == name && Get(d, "llm_action_arguments") == args
    ensures Get(d, "action_executed_in_env") == JStr(action)
  {
    map[
      "step_number" := JNull,
      "observation_before_llm" := GetOr(st, "observation_before_action", JStr("")),
      "llm_action_name" := name,
      "llm_action_arguments" := args,
      "state" := JStr("ItemPage"),
      "available_actions" := GetOr(st, "available_options", JList([])),
      "action_executed_in_env" := JStr(action),
      "reward" := GetOr(st, "reward", JReal(0.0)),
      "done" := GetOr(st, "done", JBool(false)),
      "observation_after_action" := GetOr(st, "observation_after_action", JStr(""))]
  }

  /** One entry: a numbered step is kept (its executed action filled in when empty), an item
      page action becomes a step, anything else is dropped. */
  function NormalizeStep(st: Dict): Result<Option<Dict>> {
    if "step_number" in st then
      if Truthy(Get(st, "action_executed_in_env")) then Ok(Some(st))
      else
        match FormatAction(st)
        case Err(e) => Err(e)
        case Ok(a) => Ok(Some(st["action_executed_in_env" := JStr(a)]))
    else if Get(st, "type") == JStr("item_page_action") then
      match ItemPageStep(st) case Err(e) => Err(e) case Ok(d) => Ok(Some(d))
    else Ok(None)
  }

  /** One entry of any kind: a dict is normalised, anything else raises. */
  function EntryStep(entry: Json): Result<Option<Dict>> {
    if entry.JObj? then NormalizeStep(entry.fields) else Err(EntryError(entry))
  }

  /** `_normalize_trajectory` over the entries, left to right; the first failing entry raises. */
  function Normalize(raw: seq<Json>): Result<seq<Dict>>
    decreases |raw|
  {
    if raw == [] then Ok([])
    else
      match Normalize(raw[..|raw| - 1])
      case Err(e) => Err(e)
      case Ok(out) =>
        match EntryStep(raw[|raw| - 1])
        case Err(e) => Err(e)
        case Ok(None) => Ok(out)
        case Ok(Some(d)) => Ok(out + [d])
  }

  /** `_normalize_trajectory` as its loop. */
  method NormalizeM(raw: seq<Json>) returns (r: Result<seq<Dict>>)
    ensures r == Normalize(raw)
  {
    var out: seq<Dict> := [];
    var i := 0;
    while i < |raw|
      invariant 0 <= i <= |raw|
      invariant Normalize(raw[..i]) == Ok(out)
    {
      assert raw[..i + 1][..i] == raw[..i];
      if !raw[i].JObj? {
        assert Normalize(raw[..i + 1]) == Err(EntryError(raw[i]));
        NormalizeErrSticks(raw, i + 1);
        return Err(EntryError(raw[i]));
      }
      var st := raw[i].fields;
      if "step_number" in st {
        if !Truthy(Get(st, "action_executed_in_env")) {
          var a := FormatAction(st);
          if a.Err? {
            assert Normalize(raw[..i + 1]) == Err(a.error);
            NormalizeErrSticks(raw, i + 1);
            return Err(a.error);
          }
          st := st["action_executed_in_env" := JStr(a.value)];
        }
        out := out + [st];
      } else if Get(st, "type") == JStr("item_page_action") {
        var d := ItemPageStep(st);
        if d.Err? {
          assert Normalize(raw[..i + 1]) == Err(d.error);
          NormalizeErrSticks(raw, i + 1);
          return Err(d.error);
        }
        out := out + [d.value];
      }
      i := i + 1;
    }
    assert raw[..i] == raw;
    return Ok(out);
  }

  /** Once a prefix raises, the whole trajectory raises with the same error. */
  lemma {:induction false} NormalizeErrSticks(raw: seq<Json>, i: nat)
    requires i <= |raw| && Normalize(raw[..i]).Err?
    ensures Normalize(raw) == Normalize(raw[..i])
    decreases |raw| - i
  {
    if i < |raw| {
      assert raw[..i + 1][..i] == raw[..i];
      NormalizeErrSticks(raw, i + 1);
    } else {
      assert raw[..i] == raw;
    }
  }

  /** The output never exceeds the input, and it keeps the order: each entry contributes at
      most one step, at the end. */
  lemma {:induction false} NormalizeShrinks(raw: seq<Json>)
    ensures Normalize(raw).Ok? ==> |Normalize(raw).value| <= |raw|
    decreases |raw|
  {
    if raw != [] {
      NormalizeShrinks(raw[..|raw| - 1]);
    }
  }

  /** Appending an entry appends its normalised step, or nothing for an entry that is neither
      numbered nor an item page action. */
  lemma NormalizeSnoc(raw: seq<Json>, st: Dict)
    requires Normalize(raw).Ok? && NormalizeStep(st).Ok?
    ensures NormalizeStep(st).value.None? ==> Normalize(raw + [JObj(st)]) == Normalize(raw)
    ensures NormalizeStep(st).value.Some? ==>
      Normalize(raw + [JObj(st)]) == Ok(Normalize(raw).value + [NormalizeStep(st).value.value])
  {
    assert (raw + [JObj(st)])[..|raw|] == raw;
  }

  /** The entries are handled one at a time: the first entry that is not a dict raises its own
      error unless a dict before it has already raised, and nothing after it is looked at. */
  lemma NormalizeStopsAtNonDict(raw: seq<Json>)
    requires FirstNonDict(raw) < |raw|
    ensures var k := FirstNonDict(raw);
      Normalize(raw) == (if Normalize(raw[..k]).Err? then Normalize(raw[..k]) else Err(EntryError(raw[k])))
  {
    var k := FirstNonDict(raw);
    assert raw[..k + 1][..k] == raw[..k];
    NormalizeErrSticks(raw, k + 1);
  }

  /** An item page action whose `llm_action` is the number 5 raises AttributeError at
      `(5 or {}).get` before the non-dict entry after it is reached. */
  lemma LeftmostEntryRaisesFirst()
    ensures Normalize([JObj(map["type" := JStr("item_page_action"), "llm_action" := JInt(5)]), JInt(7)])
      == Err("AttributeError")
  {
    var st := map["type" := JStr("item_page_action"), "llm_action" := JInt(5)];
    var raw := [JObj(st), JInt(7)];
    assert Get(st, "llm_action") == JInt(5);
    assert EntryStep(JObj(st)) == Err("AttributeError");
    assert raw[..1] == [JObj(st)];
    assert [JObj(st)][..0] == [];
    assert Normalize(raw[..1]) == Err("AttributeError");
    NormalizeErrSticks(raw, 1);
  }

  /** A numbered step with a recorded action passes through unchanged; one without gets the
      formatted action; an item page step always carries the formatted action of its name and
      arguments, which it keeps as its own. */
  lemma NormalizedStepCarriesFormat(st: Dict)
    requires NormalizeStep(st).Ok? && NormalizeStep(st).value.Some?
    ensures var d := NormalizeStep(st).value.value;
      (("step_number" in st && Truthy(Get(st, "action_executed_in_env"))) ==> d == st)
      && (!("step_number" in st && Truthy(Get(st, "action_executed_in_env"))) ==>
            FormatAction(d).Ok? && Get(d, "action_executed_in_env") == JStr(FormatAction(d).value))
  {
    if "step_number" in st && !Truthy(Get(st, "action_executed_in_env")) {
      FilledStepCarriesFormat(st);
    } else if "step_number" !in st {
      ItemPageStepCarriesFormat(st);
    }
  }

  lemma FilledStepCarriesFormat(st: Dict)
    requires "step_number" in st && FormatAction(st).Ok?
    ensures var d := st["action_executed_in_env" := JStr(FormatAction(st).value)];
      FormatAction(d) == FormatAction(st)
  {
    var d := st["action_executed_in_env" := JStr(FormatAction(st).value)];
    FormatReadsNameAndArgs(d, st);
  }

  lemma ItemPageStepCarriesFormat(st: Dict)
    requires ItemPageStep(st).Ok?
    ensures var d := ItemPageStep(st).value;
      "step_number" in d && FormatAction(d).Ok? && Get(d, "action_executed_in_env") == JStr(FormatAction(d).value)
  {
    var llm := DictOrEmpty(Get(st, "llm_action")).value;
    var name := Or(Get(llm, "name"), JStr(""));
    var args := GetOr(llm, "arguments", JObj(map[]));
    var d := ItemPageStep(st).value;
    FormatReadsNameAndArgs(d, LoggedAction(name, args));
  }

  /** Normalising twice changes nothing: a filled-in step is a numbered step with a truthy
      action, or one whose formatted action is empty and is formatted to the same again. The
      source fills the recorded dicts in place, and this is why a second `reset` of the same
      session sees the same trajectory. */
  lemma NormalizeStepStable(st: Dict)
    requires NormalizeStep(st).Ok? && NormalizeStep(st).value.Some?
    ensures NormalizeStep(NormalizeStep(st).value.value) == NormalizeStep(st)
  {
    if "step_number" in st && Truthy(Get(st, "action_executed_in_env")) {
    } else if "step_number" in st {
      var a := FormatAction(st).value;
      FilledStepCarriesFormat(st);
      FilledStepIsFixed(st["action_executed_in_env" := JStr(a)], a);
    } else {
      ItemPageStepCarriesFormat(st);
      var d := ItemPageStep(st).value;
      FilledStepIsFixed(d, FormatAction(d).value);
    }
  }

  /** A numbered step that carries its own formatted action normalises to itself. */
  lemma FilledStepIsFixed(d: Dict, a: string)
    requires "step_number" in d && Get(d, "action_executed_in_env") == JStr(a) && FormatAction(d) == Ok(a)
    ensures NormalizeStep(d) == Ok(Some(d))
  {
    if a == "" {
      assert d["action_executed_in_env" := JStr(a)] == d;
    }
  }

  // ---------------------------------------------------------------- OfflineWebshopEnv

  /** What `env.step` returns: `(observation, reward, done, info)`. */
  datatype StepResult = StepResult(obs: Json, reward: Json, done: Json, info: Dict)

  const EndedError := "에피소드가 종료되었거나 리셋되지 않았습니다."

  /** `action_str.strip() == expected.strip() if expected else False`, or the AttributeError
      of a truthy expected action that is not a string. */
  function IsMatch(actionStr: string, expected: Json): (r: Result<bool>)
    ensures r.Err? <==> Truthy(expected) && !expected.JStr?
    ensures r.Ok? ==> (r.value <==> Truthy(expected) && Strip(actionStr) == Strip(expected.s))
  {
    if !Truthy(expected) then Ok(false)
    else if expected.JStr? then Ok(Strip(actionStr) == Strip(expected.s))
    else Err("AttributeError")
  }

  /** The item id a `select_item` step records, if any: `item_id or itemId or id`, as `str`. */
  function SelectedCandidate(step: Dict): Result<Option<string>> {
    match StrOrEmpty(Get(step, "llm_action_name"))
    case Err(e) => Err(e)
    case Ok(raw) =>
      if Lower(raw) != "select_item" then Ok(None)
      else
        match DictOrEmpty(Get(step, "llm_action_arguments"))
        case Err(e) => Err(e)
        case Ok(args) =>
          var cand := Or(Or(Get(args, "item_id"), Get(args, "itemId")), Get(args, "id"));
          if Truthy(cand) then Ok(Some(Render(cand))) else Ok(None)
  }

  /** The integer under which `reset(session_id)` finds an episode with this id. Python's
      hashing and equality make `True`, `1` and `1.0` the same key; a string, `None` or a
      fractional float is a key no integer equals. */
  function SessionKey(id: Json): (k: Option<int>)
    ensures id.JInt? ==> k == Some(id.i)
    ensures id.JStr? || id.JNull? || id.JList? || id.JObj? ==> k.None?
  {
    match id
    case JInt(i) => Some(i)
    case JBool(b) => Some(if b then 1 else 0)
    case JReal(x) => if x.Floor as real == x then Some(x.Floor) else None
    case _ => None
  }

  /** `reset(1)` finds an episode whose id is `True`, `reset(3)` one whose id is `3.0`; no
      integer finds the id `3.5` or `"3"`. */
  lemma SessionKeyExamples()
    ensures SessionKey(JBool(true)) == Some(1) && SessionKey(JBool(false)) == Some(0)
    ensures SessionKey(JReal(3.0)) == Some(3) && SessionKey(JReal(3.5)).None?
    ensures SessionKey(JStr("3")).None?
  {
    assert (3.0).Floor == 3;
    assert (3.5).Floor == 3;
  }

  /** An episode the dict comprehension can index: it has a session id, and the id is
      hashable (a list or a dict is not). */
  predicate Indexable(ep: Dict) {
    "session_id" in ep && !ep["session_id"].JList? && !ep["session_id"].JObj?
  }

  /** The error the comprehension raises on an episode it cannot index. */
  function IndexError(ep: Dict): string {
    if "session_id" !in ep then "KeyError" else "TypeError"
  }

  /** The key an episode is found under, if any integer finds it. */
  function EpisodeKey(ep: Dict): Option<int> {
    if "session_id" in ep then SessionKey(ep["session_id"]) else None
  }

  /** Episodes indexed by session id, in order: the first episode that cannot be indexed
      raises its error; otherwise each id an integer finds maps to the last episode with it. */
  function IndexSessions(episodes: seq<Dict>): (r: Result<map<int, Dict>>)
    ensures r.Ok? <==> forall k :: 0 <= k < |episodes| ==> Indexable(episodes[k])
    decreases |episodes|
  {
    if episodes == [] then Ok(map[])
    else
      var init, ep := episodes[..|episodes| - 1], episodes[|episodes| - 1];
      assert forall k :: 0 <= k < |init| ==> init[k] == episodes[k];
      match IndexSessions(init)
      case Err(e) => Err(e)
      case Ok(m) =>
        if !Indexable(ep) then Err(IndexError(ep))
        else
          match EpisodeKey(ep)
          case None => Ok(m)
          case Some(i) => Ok(m[i := ep])
  }

  /** The error raised is that of the first episode the comprehension cannot index. */
  lemma {:induction false} IndexSessionsError(episodes: seq<Dict>)
    requires IndexSessions(episodes).Err?
    ensures exists k ::
      (0 <= k < |episodes| && !Indexable(episodes[k])
       && (forall j :: 0 <= j < k ==> Indexable(episodes[j]))
       && IndexSessions(episodes).error == IndexError(episodes[k]))
    decreases |episodes|
  {
    var init, ep := episodes[..|episodes| - 1], episodes[|episodes| - 1];
    assert forall j :: 0 <= j < |init| ==> init[j] == episodes[j];
    if IndexSessions(init).Err? {
      IndexSessionsError(init);
      var k :| 0 <= k < |init| && !Indexable(init[k]) && (forall j :: 0 <= j < k ==> Indexable(init[j]))
        && IndexSessions(init).error == IndexError(init[k]);
      assert episodes[k] == init[k];
    } else {
      assert IndexSessions(episodes).error == IndexError(episodes[|init|]);
    }
  }

  /** The ids an integer finds are exactly the keys of the index. */
  lemma {:induction false} IndexSessionsKeys(episodes: seq<Dict>)
    requires IndexSessions(episodes).Ok?
    ensures forall i :: i in IndexSessions(episodes).value <==>
      exists k :: 0 <= k < |episodes| && EpisodeKey(episodes[k]) == Some(i)
    decreases |episodes|
  {
    if episodes != [] {
      var init, ep := episodes[..|episodes| - 1], episodes[|episodes| - 1];
      assert forall j :: 0 <= j < |init| ==> init[j] == episodes[j];
      IndexSessionsKeys(init);
      var m, m' := IndexSessions(init).value, IndexSessions(episodes).value;
      assert m'.Keys == m.Keys + (if EpisodeKey(ep).Some? then {EpisodeKey(ep).value} else {});
      forall i | i in m' ensures exists k :: 0 <= k < |episodes| && EpisodeKey(episodes[k]) == Some(i) {
        if EpisodeKey(ep) == Some(i) {
          assert EpisodeKey(episodes[|init|]) == Some(i);
        } else {
          var k :| 0 <= k < |init| && EpisodeKey(init[k]) == Some(i);
          assert EpisodeKey(episodes[k]) == Some(i);
        }
      }
      forall i, k | 0 <= k < |episodes| && EpisodeKey(episodes[k]) == Some(i) ensures i in m' {
        if k < |init| {
          assert EpisodeKey(init[k]) == Some(i);
        }
      }
    }
  }

  /** A later episode with the same id wins: each key holds the last episode carrying it. */
  lemma {:induction false} IndexSessionsLastWins(episodes: seq<Dict>)
    requires IndexSessions(episodes).Ok?
    ensures forall k ::
      (0 <= k < |episodes| && EpisodeKey(episodes[k]).Some?
       && (forall j :: k < j < |episodes| ==> EpisodeKey(episodes[j]) != EpisodeKey(episodes[k])))
      ==> (EpisodeKey(episodes[k]).value in IndexSessions(episodes).value
           && IndexSessions(episodes).value[EpisodeKey(episodes[k]).value] == episodes[k])
    decreases |episodes|
  {
    if episodes != [] {
      var init, ep := episodes[..|episodes| - 1], episodes[|episodes| - 1];
      assert forall j :: 0 <= j < |init| ==> init[j] == episodes[j];
      IndexSessionsLastWins(init);
      var m' := IndexSessions(episodes).value;
      forall k | 0 <= k < |episodes| && EpisodeKey(episodes[k]).Some?
          && (forall j :: k < j < |episodes| ==> EpisodeKey(episodes[j]) != EpisodeKey(episodes[k]))
        ensures EpisodeKey(episodes[k]).value in m' && m'[EpisodeKey(episodes[k]).value] == episodes[k]
      {
        if k < |init| {
          assert EpisodeKey(ep) != EpisodeKey(episodes[k]);
          assert forall j :: k < j < |init| ==> EpisodeKey(init[j]) != EpisodeKey(init[k]);
        }
      }
    }
  }

  class OfflineWebshopEnv {
    var sessionMap: map<int, Dict>
    var currentEpisode: Option<Dict>
    var currentStepIndex: nat
    var trajectory: seq<Dict>
    var selectedItemId: Option<string>

    /** `self.current_episode` is truthy: an episode was reset and it is a non-empty dict. */
    predicate Started()
      reads this
    {
      currentEpisode.Some? && currentEpisode.value != map[]
    }

    /** The cursor never passes the end of the trajectory. */
    predicate Valid()
      reads this
    {
      currentStepIndex <= |trajectory|
    }

    constructor(sessions: map<int, Dict>)
      ensures Valid()
      ensures sessionMap == sessions && currentEpisode.None? && currentStepIndex == 0
      ensures trajectory == [] && selectedItemId.None?
    {
      sessionMap := sessions;
      currentEpisode := None;
      currentStepIndex := 0;
      trajectory := [];
      selectedItemId := None;
    }

    /** `get_current_step_info`: the step under the cursor of a started episode. */
    function CurrentStepInfo(): (r: Option<Dict>)
      reads this
      ensures r.Some? <==> Started() && currentStepIndex < |trajectory|
      ensures r.Some? ==> r.value == trajectory[currentStepIndex]
    {
      if Started() && currentStepIndex < |trajectory| then Some(trajectory[currentStepIndex]) else None
    }

    /**
     * `reset`: an unknown session returns None and changes nothing. A known one becomes the
     * current episode; its normalised trajectory is installed with the cursor at 0 and no
     * selected item, and the first step's observation is returned (None for an empty
     * trajectory). A trajectory that does not normalise raises after the episode was set.
     */
    method Reset(sessionId: int) returns (r: Result<Json>)
      modifies this
      ensures sessionMap == old(sessionMap)
      ensures sessionId !in sessionMap ==>
        r == Ok(JNull) && currentEpisode == old(currentEpisode) && currentStepIndex == old(currentStepIndex)
        && trajectory == old(trajectory) && selectedItemId == old(selectedItemId)
      ensures sessionId in sessionMap ==> currentEpisode == Some(sessionMap[sessionId])
      ensures sessionId in sessionMap ==>
        var norm := match Entries(GetOr(sessionMap[sessionId], "trajectory", JList([])))
                    case Err(e) => Err(e) case Ok(raw) => Normalize(raw);
        (norm.Err? ==> r == Err(norm.error) && currentStepIndex == old(currentStepIndex)
                       && trajectory == old(trajectory) && selectedItemId == old(selectedItemId))
        && (norm.Ok? ==> trajectory == norm.value && currentStepIndex == 0 && selectedItemId.None?
                         && r == Ok(if norm.value == [] then JNull else Get(norm.value[0], "observation_before_llm")))
      ensures old(Valid()) ==> Valid()
    {
      if sessionId !in sessionMap {
        return Ok(JNull);
      }
      currentEpisode := Some(sessionMap[sessionId]);
      var raw := Entries(GetOr(sessionMap[sessionId], "trajectory", JList([])));
      if raw.Err? {
        return Err(raw.error);
      }
      var norm := NormalizeM(raw.value);
      if norm.Err? {
        return Err(norm.error);
      }
      trajectory := norm.value;
      currentStepIndex := 0;
      selectedItemId := None;
      if trajectory == [] {
        return Ok(JNull);
      }
      return Ok(Get(trajectory[0], "observation_before_llm"));
    }

    /**
     * `step`: before a reset or past the end it returns `(None, 0.0, True, {error})` and
     * changes nothing. Otherwise it records the selected item of a `select_item` step, compares
     * the action with the recorded one, advances the cursor by exactly one and returns the
     * next step's observation, or on the last step the final observation with `done` forced.
     */
    method Step(actionStr: string) returns (r: Result<StepResult>)
      requires Valid()
      modifies this
      ensures Valid()
      ensures sessionMap == old(sessionMap) && currentEpisode == old(currentEpisode)
      ensures trajectory == old(trajectory)
      ensures StepEffect(trajectory, old(Started()), old(currentStepIndex), old(selectedItemId), actionStr,
                         r, currentStepIndex, selectedItemId)
    {
      if !Started() || currentStepIndex >= |trajectory| {
        return Ok(StepResult(JNull, JReal(0.0), JBool(true), map["error" := JStr(EndedError)]));
      }
      var data := trajectory[currentStepIndex];
      var cand := SelectedCandidate(data);
      if cand.Err? {
        return Err(cand.error);
      }
      if cand.value.Some? {
        selectedItemId := cand.value;
      }
      var m := IsMatch(actionStr, Get(data, "action_executed_in_env"));
      if m.Err? {
        return Err(m.error);
      }
      var index := currentStepIndex;
      currentStepIndex := currentStepIndex + 1;
      r := Ok(StepOutcome(trajectory, index, actionStr, m.value, selectedItemId));
    }
  }

  /**
   * What `step` does, from the cursor `index` and selection `selected` before it to `index'`
   * and `selected'` after it: before a reset or past the end it returns `(None, 0.0, True,
   * {error})` and changes nothing. Otherwise it records the selected item of a `select_item`
   * step, compares the action with the recorded one, advances the cursor by exactly one and
   * returns the outcome of the step.
   */
  predicate StepEffect(traj: seq<Dict>, started: bool, index: nat, selected: Option<string>,
                       actionStr: string, r: Result<StepResult>, index': nat, selected': Option<string>) {
    if !started || index >= |traj| then
      r == Ok(StepResult(JNull, JReal(0.0), JBool(true), map["error" := JStr(EndedError)]))
      && index' == index && selected' == selected
    else
      var data := traj[index];
      var cand := SelectedCandidate(data);
      var m := IsMatch(actionStr, Get(data, "action_executed_in_env"));
      (cand.Err? ==> r == Err(cand.error) && index' == index && selected' == selected)
      && (cand.Ok? ==> selected' == (if cand.value.Some? then cand.value else selected))
      && (cand.Ok? && m.Err? ==> r == Err(m.error) && index' == index)
      && (cand.Ok? && m.Ok? ==>
            index' == index + 1 && r == Ok(StepOutcome(traj, index, actionStr, m.value, selected')))
  }

  /** The tuple `step` returns for the step at `index`. */
  function StepOutcome(traj: seq<Dict>, index: nat, actionStr: string, isMatch: bool,
                       selected: Option<string>): StepResult
    requires index < |traj|
  {
    var data := traj[index];
    var info := map[
      "match" := JBool(isMatch),
      "expected_action" := Get(data, "action_executed_in_env"),
      "predicted_action" := JStr(actionStr),
      "step_number" := Get(data, "step_number"),
      "index" := JInt(index),
      "selected_item_id" := OptStr(selected)];
    if index + 1 < |traj| then
      StepResult(GetOr(traj[index + 1], "observation_before_llm", JStr("")),
                 GetOr(data, "reward", JReal(0.0)), GetOr(data, "done", JBool(false)), info)
    else
      StepResult(GetOr(data, "observation_after_action", JStr("")),
                 GetOr(data, "reward", JReal(0.0)), JBool(true), info)
  }

  /** The last step always reports `done`, and every step echoes the action it was given. */
  lemma StepOutcomeFacts(traj: seq<Dict>, index: nat, actionStr: string, isMatch: bool,
                         selected: Option<string>)
    requires index < |traj|
    ensures var o := StepOutcome(traj, index, actionStr, isMatch, selected);
      (index + 1 == |traj| ==> o.done == JBool(true))
      && o.info["predicted_action"] == JStr(actionStr)
      && o.info["match"] == JBool(isMatch)
      && o.info["index"] == JInt(index)
      && "error" !in o.info
  {
  }

  // ---------------------------------------------------------------- ToolKit over the replay

  /** `ToolKit.execute` on the replay environment: one `env.step` with the tool's action
      string, whose tuple is returned unchanged; a call the ToolKit rejects steps nothing. */
  method Execute(env: OfflineWebshopEnv, action: Dict) returns (r: Result<StepResult>)
    requires env.Valid()
    modifies env
    ensures env.Valid()
    ensures LaserTools.ActionString(action).Err? ==>
      r == Err(LaserTools.ActionString(action).error)
      && env.currentStepIndex == old(env.currentStepIndex) && env.selectedItemId == old(env.selectedItemId)
    ensures LaserTools.ActionString(action).Ok? ==>
      StepEffect(env.trajectory, old(env.Started()), old(env.currentStepIndex), old(env.selectedItemId),
                 LaserTools.ActionString(action).value, r, env.currentStepIndex, env.selectedItemId)
    ensures env.trajectory == old(env.trajectory) && env.currentEpisode == old(env.currentEpisode)
    ensures env.currentStepIndex == old(env.currentStepIndex)
         || env.currentStepIndex == old(env.currentStepIndex) + 1
  {
    var s := LaserTools.ActionString(action);
    if s.Err? {
      return Err(s.error);
    }
    r := env.Step(s.value);
  }

  // ---------------------------------------------------------------- StubPolicy and the runner

  /** `StubPolicy.predict_action`: the formatted recorded action, `''` without step info. */
  function StubPredict(stepInfo: Option<Dict>): Result<string> {
    if stepInfo.None? || stepInfo.value == map[] then Ok("") else FormatAction(stepInfo.value)
  }

  /** On a step whose recorded action is its own formatted action, the stub's prediction
      matches iff that action is not empty. */
  lemma StubMatchesFormattedSteps(d: Dict)
    requires d != map[] && FormatAction(d).Ok?
    requires Get(d, "action_executed_in_env") == JStr(FormatAction(d).value)
    ensures IsMatch(StubPredict(Some(d)).value, Get(d, "action_executed_in_env"))
      == Ok(FormatAction(d).value != "")
  {
  }

  datatype Report = Report(totalSteps: nat, matchedSteps: nat, accuracy: real)

  /** `(matched / total) * 100 if total > 0 else 0`. */
  function Accuracy(matched: nat, total: nat): (a: real)
    requires matched <= total
    ensures 0.0 <= a <= 100.0
    ensures total == 0 ==> a == 0.0
    ensures total > 0 && matched == total ==> a == 100.0
  {
    if total > 0 then (matched as real / total as real) * 100.0 else 0.0
  }

  /**
   * `ReplayRunner.run_episode` with a given policy: None when `reset` gives no observation,
   * otherwise the counters after stepping until `done` or the end of the trajectory. At most
   * one step per trajectory entry runs, and no more matches than steps are counted.
   */
  method RunEpisode(env: OfflineWebshopEnv, sessionId: int, policy: (Json, Dict) -> Result<string>)
    returns (r: Result<Option<Report>>)
    requires env.Valid()
    modifies env
    ensures env.Valid()
    ensures r.Ok? && r.value.Some? ==>
      r.value.value.matchedSteps <= r.value.value.totalSteps <= |env.trajectory|
      && r.value.value.accuracy == Accuracy(r.value.value.matchedSteps, r.value.value.totalSteps)
  {
    var obs := env.Reset(sessionId);
    if obs.Err? {
      return Err(obs.error);
    }
    if obs.value == JNull {
      return Ok(None);
    }
    var o := obs.value;
    var total: nat := 0;
    var matched: nat := 0;
    var start := env.currentStepIndex;
    var done := false;
    while !done
      invariant env.Valid() && start <= env.currentStepIndex
      invariant matched <= total && total == env.currentStepIndex - start
      invariant total <= |env.trajectory|
      decreases |env.trajectory| - env.currentStepIndex, if done then 0 else 1
    {
      var info := env.CurrentStepInfo();
      if info.None? || info.value == map[] {
        break;
      }
      var action := policy(o, info.value);
      if action.Err? {
        return Err(action.error);
      }
      var before := env.currentStepIndex;
      var res := env.Step(action.value);
      if res.Err? {
        return Err(res.error);
      }
      assert env.currentStepIndex == before + 1;
      o := res.value.obs;
      total := total + 1;
      if Truthy(GetOr(res.value.info, "match", JNull)) {
        matched := matched + 1;
      }
      done := Truthy(res.value.done);
    }
    return Ok(Some(Report(total, matched, Accuracy(matched, total))));
  }
}
