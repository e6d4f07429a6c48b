/**
 * JSON-like values, for the Python dicts the agents read from logs and pass
 * between functions, with Python's truthiness and `dict.get`.
 */
module Json {
  import opened Wrappers
  import opened Text

  datatype Json =
    | JNull
    | JBool(b: bool)
    | JInt(i: int)
    | JReal(r: real)
    | JStr(s: string)
    | JList(items: seq<Json>)
    | JObj(fields: map<string, Json>)

  type Dict = map<string, Json>

  /** Python's `bool(v)`. */
  predicate Truthy(v: Json) {
    match v
    case JNull => false
    case JBool(b) => b
    case JInt(i) => i != 0
    case JReal(r) => r != 0.0
    case JStr(s) => s != ""
    case JList(items) => items != []
    case JObj(fields) => fields != map[]
  }

  /** `d.get(k)`: the value stored under `k`, or `None`. */
  function Get(d: Dict, k: string): Json {
    if k in d then d[k] else JNull
  }

  /** `d.get(k, default)`. */
  function GetOr(d: Dict, k: string, default: Json): Json {
    if k in d then d[k] else default
  }

  /** `v or default`, read as text: the string held by a truthy string value, else the default. */
  function TextOr(v: Json, default: string): string {
    if v.JStr? && v.s != "" then v.s else default
  }

  /** `v or {}`, read as a dict. */
  function DictOr(v: Json): Dict {
    if v.JObj? then v.fields else map[]
  }

  /** Python's `len(v)`; values without a length raise TypeError, modelled as `None`. */
  function Len(v: Json): (r: Option<nat>)
    ensures r.Some? <==> v.JStr? || v.JList? || v.JObj?
  {
    match v
    case JStr(s) => Some(|s|)
    case JList(items) => Some(|items|)
    case JObj(fields) => Some(|fields|)
    case _ => None
  }

  /** Python's `str(v)` for the scalar values the agents format into action strings. A float,
      a list or a dict renders as a fixed placeholder: their `str()` is not modelled. */
  function Render(v: Json): string {
    match v
    case JNull => "None"
    case JBool(b) => if b then "True" else "False"
    case JInt(i) => IntToString(i)
    case JStr(s) => s
    case JReal(_) => "<float>"
    case JList(_) => "<list>"
    case JObj(_) => "<dict>"
  }

  /** `(v or "")` where the result is then used as a string: a truthy non-string value has no
      string methods, which Python reports as AttributeError. */
  function StrOrEmpty(v: Json): (r: Result<string>)
    ensures r.Err? <==> Truthy(v) && !v.JStr?
    ensures r.Ok? && Truthy(v) ==> r.value == v.s
    ensures r.Ok? && !Truthy(v) ==> r.value == ""
  {
    if !Truthy(v) then Ok("") else if v.JStr? then Ok(v.s) else Err("AttributeError")
  }

  /** `(v or {})` where the result is then read with `.get`. */
  function DictOrEmpty(v: Json): (r: Result<Dict>)
    ensures r.Err? <==> Truthy(v) && !v.JObj?
    ensures r.Ok? && Truthy(v) ==> r.value == v.fields
    ensures r.Ok? && !Truthy(v) ==> r.value == map[]
  {
    if !Truthy(v) then Ok(map[]) else if v.JObj? then Ok(v.fields) else Err("AttributeError")
  }

  /** `a or b`: the first operand when it is truthy, else the second. */
  function Or(a: Json, b: Json): (r: Json)
    ensures Truthy(r) <==> Truthy(a) || Truthy(b)
  {
    if Truthy(a) then a else b
  }

  /** An optional string as a JSON value, `None` as null. */
  function OptStr(o: Option<string>): Json {
    if o.Some? then JStr(o.value) else JNull
  }
}
