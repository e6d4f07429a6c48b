/**
 * The command grammar of the AgentQ graph agent (AgentQ/agentq/prompt_utils.py,
 * `parse_command_line`): one line such as `CLICK [ID=12]` or `SEARCH: cheap flights`
 * becomes a command record. The patterns are tried in a fixed order and the first that
 * matches decides.
 *
 * Every regular expression is written out by hand over the command text, with letters
 * compared without case (`re.I`). Where the engine can backtrack into a quantifier, because
 * what follows could also be matched by it, the quantifier is one of the combinators
 * `WsThen`, `Greedy` and `Lazy`, which try the candidate positions in the engine's order.
 * Everywhere else the next literal cannot be matched by the quantified class, so the longest
 * run is the only one that can succeed and is taken directly.
 */
module AgentQCommands {
  import opened Wrappers
  import opened Text

  /** The dictionary `parse_command_line` returns: `type`, and the keys it sets among
      `target`, `content` and `by` (here `via`, since `by` is a Dafny keyword). */
  datatype Command = Command(kind: string, target: Option<string>, content: Option<string>, via: Option<string>)

  const AgentqId := "agentq-id"

  // ---------------------------------------------------------------- character classes

  /** `.`: anything but a newline. */
  predicate IsDot(c: char) { c != '\n' }

  /** `[^\]]`. */
  predicate NotClose(c: char) { c != ']' }

  /** `\S`. */
  predicate NotSpace(c: char) { !IsSpace(c) }

  /** `[^>\]]`. */
  predicate NotAngleOrClose(c: char) { c != '>' && c != ']' }

  /** `[^\]\s]`. */
  predicate NotCloseOrSpace(c: char) { c != ']' && !IsSpace(c) }

  /** `[^\n\r#]`. */
  predicate NotLineOrHash(c: char) { c != '\n' && c != '\r' && c != '#' }

  // ---------------------------------------------------------------- literals

  /** End of the whitespace run starting at `p`. */
  function Ws(s: string, p: nat): (q: nat)
    requires p <= |s|
    ensures p <= q <= |s|
    ensures forall j :: p <= j < q ==> IsSpace(s[j])
    ensures q < |s| ==> !IsSpace(s[q])
  {
    RunFrom(s, p, IsSpace)
  }

  /** The literal `w` occurs at `i`, letters compared without case. */
  predicate CiAt(s: string, i: nat, w: string)
    decreases |w|
  {
    i <= |s| && (w == [] || (i < |s| && LowerChar(s[i]) == LowerChar(w[0]) && CiAt(s, i + 1, w[1..])))
  }

  lemma {:induction false} CiAtBound(s: string, i: nat, w: string)
    requires CiAt(s, i, w)
    ensures i + |w| <= |s|
    decreases |w|
  {
    if w != [] {
      assert CiAt(s, i + 1, w[1..]);
      CiAtBound(s, i + 1, w[1..]);
    }
  }

  /** The literal `w` at `p`: where it ends. */
  function WordAt(s: string, p: nat, w: string): (r: Option<nat>)
    ensures r.Some? ==> r.value == p + |w| <= |s|
    ensures r.Some? <==> CiAt(s, p, w)
  {
    if CiAt(s, p, w) then CiAtBound(s, p, w); Some(p + |w|) else None
  }

  /** The first of the alternatives `ws` that occurs at `p`. The alternatives the grammar
      uses exclude one another, so the engine never comes back to try a later one. */
  function FirstWord(s: string, p: nat, ws: seq<string>): (r: Option<nat>)
    ensures r.Some? ==> p <= r.value <= |s|
  {
    if ws == [] then None
    else match WordAt(s, p, ws[0])
      case Some(e) => Some(e)
      case None => FirstWord(s, p, ws[1..])
  }

  /** `\s*` then `w`. */
  function WsWord(s: string, p: nat, w: string): (r: Option<nat>)
    requires p <= |s|
    ensures r.Some? ==> p + |w| <= r.value <= |s|
  {
    WordAt(s, Ws(s, p), w)
  }

  /** `\s*c` for a character `c` that is not whitespace. */
  function WsChar(s: string, p: nat, c: char): (r: Option<nat>)
    requires p <= |s|
    ensures r.Some? ==> p < r.value <= |s|
  {
    var q := Ws(s, p);
    if q < |s| && s[q] == c then Some(q + 1) else None
  }

  /** `$`: the end of the text, or just before a final newline. */
  predicate AtEnd(s: string, p: nat) {
    p == |s| || (p + 1 == |s| && s[p] == '\n')
  }

  /** `\s*$`: only whitespace is left (a final newline is whitespace, so it is eaten). */
  predicate WsEnd(s: string, p: nat)
    requires p <= |s|
  {
    Ws(s, p) == |s|
  }

  // ---------------------------------------------------------------- backtracking

  /** Tries `k` at `hi`, `hi - 1`, ..., `lo` and keeps the first position that succeeds. */
  function TryDown<T>(lo: nat, hi: nat, k: nat -> Option<T>): (r: Option<(nat, T)>)
    ensures r.Some? ==> lo <= r.value.0 <= hi && k(r.value.0) == Some(r.value.1)
    ensures r.Some? ==> forall p :: r.value.0 < p <= hi ==> k(p).None?
    ensures r.None? ==> forall p :: lo <= p <= hi ==> k(p).None?
    decreases hi
  {
    if hi < lo then None
    else match k(hi)
      case Some(v) => Some((hi, v))
      case None => if hi == lo then None else TryDown(lo, hi - 1, k)
  }

  /** Tries `k` at `e`, `e + 1`, ... for as long as the characters passed satisfy `ok`. */
  function TryUp<T>(s: string, e: nat, ok: char -> bool, k: nat -> Option<T>): (r: Option<(nat, T)>)
    requires e <= |s|
    ensures r.Some? ==> e <= r.value.0 <= |s| && k(r.value.0) == Some(r.value.1)
    ensures r.Some? ==> forall j :: e <= j < r.value.0 ==> ok(s[j]) && k(j).None?
    ensures r.None? ==> forall j :: e <= j <= RunFrom(s, e, ok) ==> k(j).None?
    decreases |s| - e
  {
    match k(e)
    case Some(v) => Some((e, v))
    case None => if e < |s| && ok(s[e]) then TryUp(s, e + 1, ok, k) else None
  }

  /** `\s*` followed by `k`: the whole run first, then shorter ones. */
  function WsThen<T>(s: string, a: nat, k: nat -> Option<T>): (r: Option<(nat, T)>)
    requires a <= |s|
    ensures r.Some? ==> a <= r.value.0 <= Ws(s, a) && k(r.value.0) == Some(r.value.1)
  {
    TryDown(a, Ws(s, a), k)
  }

  /** A greedy group `(X+)` at `g`, `ok` telling which characters X matches, followed by `k`:
      the longest group first. */
  function Greedy<T>(s: string, g: nat, ok: char -> bool, k: nat -> Option<T>): (r: Option<(nat, T)>)
    ensures r.Some? ==> g < r.value.0 <= |s| && k(r.value.0) == Some(r.value.1)
    ensures r.Some? ==> forall j :: g <= j < r.value.0 ==> ok(s[j])
  {
    if g < |s| && ok(s[g]) then TryDown(g + 1, RunFrom(s, g, ok), k) else None
  }

  /** A lazy group `(X+?)` at `g` followed by `k`: the shortest group first. */
  function Lazy<T>(s: string, g: nat, ok: char -> bool, k: nat -> Option<T>): (r: Option<(nat, T)>)
    ensures r.Some? ==> g < r.value.0 <= |s| && k(r.value.0) == Some(r.value.1)
    ensures r.Some? ==> forall j :: g <= j < r.value.0 ==> ok(s[j])
  {
    if g < |s| && ok(s[g]) then TryUp(s, g + 1, ok, k) else None
  }

  /** The text a group from `g` captured, once the rest of the pattern has matched. */
  function Span(s: string, g: nat, m: Option<(nat, ())>): Option<string>
    requires m.Some? ==> g <= m.value.0 <= |s|
  {
    match m
    case Some((e, _)) => Some(s[g..e])
    case None => None
  }

  // ---------------------------------------------------------------- pattern tails

  /** `$` as what follows a group. */
  function EndK(s: string): nat -> Option<()> {
    (p: nat) => if AtEnd(s, p) then Some(()) else None
  }

  /** `\s*$` as what follows a group. */
  function WsEndK(s: string): nat -> Option<()> {
    (p: nat) => if p <= |s| && WsEnd(s, p) then Some(()) else None
  }

  /** `\s*\]` as what follows a group. */
  function CloseK(s: string): nat -> Option<()> {
    (p: nat) => if p <= |s| && WsChar(s, p, ']').Some? then Some(()) else None
  }

  /** `\s*\]\s*$` as what follows a group. */
  function CloseEndK(s: string): nat -> Option<()> {
    (p: nat) => if p <= |s| && WsChar(s, p, ']').Some? && WsEnd(s, WsChar(s, p, ']').value) then Some(()) else None
  }

  /** `\s*(.+)$` from `a`: the group. */
  function DotRest(s: string, a: nat): Option<string>
    requires a <= |s|
  {
    match WsThen(s, a, (g: nat) => Span(s, g, Greedy(s, g, IsDot, EndK(s))))
    case Some((_, t)) => Some(t)
    case None => None
  }

  /** `\s*([^\]]+)\s*\]\s*$` from `a`: the group. */
  function BracketRest(s: string, a: nat): Option<string>
    requires a <= |s|
  {
    match WsThen(s, a, (g: nat) => Span(s, g, Greedy(s, g, NotClose, CloseEndK(s))))
    case Some((_, t)) => Some(t)
    case None => None
  }

  /** `(?:TEXT\s*=\s*)?` at `q` followed by `k`: with the prefix first, then without it. */
  function OptionalText(s: string, q: nat, k: nat -> Option<string>): Option<string> {
    if q > |s| then None
    else
      var withText :=
        match WordAt(s, q, "TEXT")
        case None => None
        case Some(t) =>
          match WsChar(s, t, '=')
          case None => None
          case Some(e) =>
            match WsThen(s, e, k)
            case Some((_, v)) => Some(v)
            case None => None;
      if withText.Some? then withText else k(q)
  }

  // ---------------------------------------------------------------- the patterns

  function Navigate(target: string): Command { Command("NAVIGATE", Some(target), None, None) }

  /** `^(?:GOTO|GO TO|NAVIGATE)\s*\[\s*URL\s*=\s*<([^>\]]+)>\s*\]\s*$`. */
  function NavigateAngle(c: string): (r: Option<Command>)
    ensures r.Some? ==> r.value.kind == "NAVIGATE" && r.value.via.None?
  {
    var n :- FirstWord(c, 0, ["GOTO", "GO TO", "NAVIGATE"]);
    var b :- WsChar(c, n, '[');
    var u :- WsWord(c, b, "URL");
    var l :- WsChar(c, u, '=');
    var a :- WsChar(c, l, '<');
    var e := RunFrom(c, a, NotAngleOrClose);
    if e > a && e < |c| && c[e] == '>' && CloseEndK(c)(e + 1).Some? then Some(Navigate(Strip(c[a..e])))
    else None
  }

  /** `^(?:GOTO|GO TO|NAVIGATE)\s*\[\s*URL\s*=\s*([^\]\s]+)\s*\]\s*$`. */
  function NavigatePlain(c: string): (r: Option<Command>)
    ensures r.Some? ==> r.value.kind == "NAVIGATE" && r.value.via.None?
  {
    var n :- FirstWord(c, 0, ["GOTO", "GO TO", "NAVIGATE"]);
    var b :- WsChar(c, n, '[');
    var u :- WsWord(c, b, "URL");
    var l :- WsChar(c, u, '=');
    var a := Ws(c, l);
    var e := RunFrom(c, a, NotCloseOrSpace);
    if e > a && CloseEndK(c)(e).Some? then Some(Navigate(Strip(c[a..e]))) else None
  }

  /** `^(?:GOTO|GO TO|NAVIGATE)\s+(https?://\S+)\s*$`. */
  function NavigateUrl(c: string): (r: Option<Command>)
    ensures r.Some? ==> r.value.kind == "NAVIGATE" && r.value.via.None?
  {
    var n :- FirstWord(c, 0, ["GOTO", "GO TO", "NAVIGATE"]);
    var b := Ws(c, n);
    var h :- WordAt(c, b, "http");
    var p := match WordAt(c, h, "s") case Some(x) => x case None => h;
    var q :- WordAt(c, p, "://");
    var e := RunFrom(c, q, NotSpace);
    if b > n && e > q && WsEnd(c, e) then Some(Navigate(Strip(c[b..e]))) else None
  }

  /** `^(?:NAVIGATE|GOTO)\s*:\s*(.+)$`. */
  function NavigateColon(c: string): (r: Option<Command>)
    ensures r.Some? ==> r.value.kind == "NAVIGATE" && r.value.via.None?
  {
    var n :- FirstWord(c, 0, ["NAVIGATE", "GOTO"]);
    var a :- WsChar(c, n, ':');
    var t :- DotRest(c, a);
    Some(Navigate(Strip(t)))
  }

  /** The query of `^SEARCH\s*(?:\[\s*(?:TEXT\s*=\s*)?([^\]]+?)\s*\]|:\s*([^\n\r#]+?)\s*$)`;
      the bracket form is not anchored at the end. */
  function SearchGroup(c: string): Option<string> {
    var n :- WordAt(c, 0, "SEARCH");
    var b := Ws(c, n);
    if b < |c| && c[b] == '[' then
      match WsThen(c, b + 1, (q: nat) => OptionalText(c, q, (g: nat) => Span(c, g, Lazy(c, g, NotClose, CloseK(c)))))
      case Some((_, t)) => Some(t)
      case None => None
    else if b < |c| && c[b] == ':' then
      match WsThen(c, b + 1, (g: nat) => Span(c, g, Lazy(c, g, NotLineOrHash, WsEndK(c))))
      case Some((_, t)) => Some(t)
      case None => None
    else None
  }

  function Search(c: string): (r: Option<Command>)
    ensures r.Some? ==> r.value.kind == "SEARCH" && r.value.via.None?
  {
    var q :- SearchGroup(c);
    Some(Command("SEARCH", None, Some(CleanQuery(Strip(q))), None))
  }

  /** `^ID\s*=\s*(.+)$` on a target: the id it names. */
  function IdForm(t: string): Option<string> {
    var n :- WordAt(t, 0, "ID");
    var e :- WsChar(t, n, '=');
    var x :- DotRest(t, e);
    Some(Strip(x))
  }

  /** A click on a target: by agentq id when the target is written `ID=x`. */
  function Click(tgt: string): (r: Command)
    ensures r.kind == "CLICK" && r.content.None?
    ensures r.via.Some? ==> r.via.value == AgentqId
  {
    match IdForm(tgt)
    case Some(x) => Command("CLICK", Some(x), None, Some(AgentqId))
    case None => Command("CLICK", Some(tgt), None, None)
  }

  /** `^CLICK\s*\[\s*(?:ID|SELECTOR)?\s*=\s*([^\]]+)\s*\]\s*$`. */
  function ClickBracket(c: string): (r: Option<Command>)
    ensures r.Some? ==> r.value.kind == "CLICK" && (r.value.via.Some? ==> r.value.via.value == AgentqId)
  {
    var n :- WordAt(c, 0, "CLICK");
    var a :- WsChar(c, n, '[');
    var q := Ws(c, a);
    var p := match FirstWord(c, q, ["ID", "SELECTOR"]) case Some(x) => x case None => q;
    var e :- WsChar(c, p, '=');
    var t :- BracketRest(c, e);
    Some(Click(Strip(t)))
  }

  /** `^CLICK\s*:\s*(.+)$`. */
  function ClickColon(c: string): (r: Option<Command>)
    ensures r.Some? ==> r.value.kind == "CLICK" && (r.value.via.Some? ==> r.value.via.value == AgentqId)
  {
    var n :- WordAt(c, 0, "CLICK");
    var a :- WsChar(c, n, ':');
    var t :- DotRest(c, a);
    Some(Click(Strip(t)))
  }

  /** Typing `txt` into a target: by agentq id when the target is written `ID=x`. */
  function TypeInto(tgt: string, txt: string): (r: Command)
    ensures r.kind == "TYPE" && r.content == Some(txt)
    ensures r.via.Some? ==> r.via.value == AgentqId
  {
    match IdForm(tgt)
    case Some(x) => Command("TYPE", Some(x), Some(txt), Some(AgentqId))
    case None => Command("TYPE", Some(tgt), Some(txt), None)
  }

  /** The second bracket of `TYPE [..][..]`, from the end of the first group:
      `\s*\]\s*\[\s*(?:TEXT\s*=\s*)?([^\]]+)\s*\]\s*$`. */
  function TypeSecond(c: string, p: nat): Option<string> {
    if p > |c| then None
    else
      var e :- WsChar(c, p, ']');
      var b :- WsChar(c, e, '[');
      match WsThen(c, b, (q: nat) => OptionalText(c, q, (g: nat) => Span(c, g, Greedy(c, g, NotClose, CloseEndK(c)))))
      case Some((_, t)) => Some(t)
      case None => None
  }

  /** `^TYPE\s*\[\s*([^\]]+)\s*\]\s*\[\s*(?:TEXT\s*=\s*)?([^\]]+)\s*\]\s*$`. */
  function TypeBracket(c: string): (r: Option<Command>)
    ensures r.Some? ==> r.value.kind == "TYPE" && (r.value.via.Some? ==> r.value.via.value == AgentqId)
  {
    var n :- WordAt(c, 0, "TYPE");
    var a :- WsChar(c, n, '[');
    match WsThen(c, a, (g: nat) => TypeFirst(c, g, Greedy(c, g, NotClose, (p: nat) => TypeSecond(c, p))))
    case Some((_, (tgt, txt))) => Some(TypeInto(Strip(tgt), Strip(txt)))
    case None => None
  }

  /** The two groups, once the first has been matched from `g`. */
  function TypeFirst(c: string, g: nat, m: Option<(nat, string)>): Option<(string, string)>
    requires m.Some? ==> g <= m.value.0 <= |c|
  {
    match m
    case Some((e, txt)) => Some((c[g..e], txt))
    case None => None
  }

  /** What follows the target of `TYPE: target || text`: `\s*\|\|\s*(.+)$`. */
  function PipeRest(c: string, p: nat): Option<string> {
    if p > |c| then None
    else
      var h :- WordAt(c, Ws(c, p), "||");
      DotRest(c, h)
  }

  /** `^TYPE\s*:\s*(.+?)\s*\|\|\s*(.+)$`. */
  function TypeColon(c: string): (r: Option<Command>)
    ensures r.Some? ==> r.value.kind == "TYPE" && (r.value.via.Some? ==> r.value.via.value == AgentqId)
  {
    var n :- WordAt(c, 0, "TYPE");
    var a :- WsChar(c, n, ':');
    match WsThen(c, a, (g: nat) => TypeFirst(c, g, Lazy(c, g, IsDot, (p: nat) => PipeRest(c, p))))
    case Some((_, (tgt, txt))) => Some(TypeInto(Strip(tgt), Strip(txt)))
    case None => None
  }

  /** `^VERB\s*\[\s*ID\s*=\s*([^\]]+)\s*\]\s*$` for SUBMIT and CLEAR. */
  function ById(c: string, verb: string): (r: Option<Command>)
    ensures r.Some? ==> r.value.kind == verb && r.value.via == Some(AgentqId)
  {
    var n :- WordAt(c, 0, verb);
    var a :- WsChar(c, n, '[');
    var i :- WsWord(c, a, "ID");
    var e :- WsChar(c, i, '=');
    var t :- BracketRest(c, e);
    Some(Command(verb, Some(Strip(t)), None, Some(AgentqId)))
  }

  function Submit(c: string): (r: Option<Command>)
    ensures r.Some? ==> r.value.kind == "SUBMIT" && r.value.via == Some(AgentqId)
  {
    ById(c, "SUBMIT")
  }

  function Clear(c: string): (r: Option<Command>)
    ensures r.Some? ==> r.value.kind == "CLEAR" && r.value.via == Some(AgentqId)
  {
    ById(c, "CLEAR")
  }

  /** The direction word at `q`, if `(UP|DOWN)` matches there, lower-cased. */
  function Direction(c: string, q: nat): (r: Option<(nat, string)>)
    ensures r.Some? ==> q < r.value.0 <= |c| && (r.value.1 == "up" || r.value.1 == "down")
  {
    match WordAt(c, q, "UP")
    case Some(e) => Some((e, "up"))
    case None =>
      match WordAt(c, q, "DOWN")
      case Some(e) => Some((e, "down"))
      case None => None
  }

  /** `^SCROLL\s*\[\s*(UP|DOWN)\s*\]\s*$`. */
  function ScrollBracket(c: string): (r: Option<Command>)
    ensures r.Some? ==> r.value.kind == "SCROLL" && r.value.via.None?
    ensures r.Some? ==> r.value.target == Some("up") || r.value.target == Some("down")
  {
    var n :- WordAt(c, 0, "SCROLL");
    var a :- WsChar(c, n, '[');
    var d :- Direction(c, Ws(c, a));
    if CloseEndK(c)(d.0).Some? then Some(Command("SCROLL", Some(d.1), None, None)) else None
  }

  /** `^SCROLL\s*:\s*(up|down)\s*$`. */
  function ScrollColon(c: string): (r: Option<Command>)
    ensures r.Some? ==> r.value.kind == "SCROLL" && r.value.via.None?
    ensures r.Some? ==> r.value.target == Some("up") || r.value.target == Some("down")
  {
    var n :- WordAt(c, 0, "SCROLL");
    var a :- WsChar(c, n, ':');
    var d :- Direction(c, Ws(c, a));
    if WsEnd(c, d.0) then Some(Command("SCROLL", Some(d.1), None, None)) else None
  }

  /** `[_\s-]`. */
  predicate IsDomJoiner(ch: char) { ch == '_' || ch == '-' || IsSpace(ch) }

  /** `^(GET[_\s-]?DOM)\s*$`. */
  function GetDom(c: string): (r: Option<Command>)
    ensures r.Some? ==> r.value.kind == "GET_DOM" && r.value.via.None?
  {
    var g :- WordAt(c, 0, "GET");
    var joined := g < |c| && IsDomJoiner(c[g]) && WordAt(c, g + 1, "DOM").Some? && WsEnd(c, g + 4);
    var direct := WordAt(c, g, "DOM").Some? && WsEnd(c, g + 3);
    if joined || direct then Some(Command("GET_DOM", None, None, None)) else None
  }

  const DefaultScreenshot := "screenshot.png"

  /** `^SCREENSHOT(?:\s*\[\s*PATH\s*=\s*([^\]]+)\s*\])?\s*$`. */
  function Screenshot(c: string): (r: Option<Command>)
    ensures r.Some? ==> r.value.kind == "SCREENSHOT" && r.value.via.None?
    ensures r.Some? ==> r.value.target.Some?
  {
    var n :- WordAt(c, 0, "SCREENSHOT");
    var path :=
      match WsChar(c, n, '[')
      case None => None
      case Some(a) =>
        match WsWord(c, a, "PATH")
        case None => None
        case Some(p) =>
          match WsChar(c, p, '=')
          case None => None
          case Some(e) => BracketRest(c, e);
    if path.Some? then Some(Command("SCREENSHOT", Some(Strip(path.value)), None, None))
    else if WsEnd(c, n) then Some(Command("SCREENSHOT", Some(DefaultScreenshot), None, None))
    else None
  }

  /** The digits of `(\d+)` at `Ws(c, a)`, followed by `tail`. */
  function Digits(c: string, a: nat, tail: nat -> Option<()>): (r: Option<string>)
    requires a <= |c|
    ensures r.Some? ==> |r.value| > 0 && forall i :: 0 <= i < |r.value| ==> IsDigit(r.value[i])
  {
    var q := Ws(c, a);
    var e := RunFrom(c, q, IsDigit);
    if e > q && tail(e).Some? then Some(c[q..e]) else None
  }

  /** `^WAIT\s*:\s*(\d+)\s*$`. */
  function WaitColon(c: string): (r: Option<Command>)
    ensures r.Some? ==> r.value.kind == "WAIT" && r.value.via.None?
    ensures r.Some? ==> r.value.content.Some? && IsNumeral(r.value.content.value)
  {
    var n :- WordAt(c, 0, "WAIT");
    var a :- WsChar(c, n, ':');
    var d :- Digits(c, a, WsEndK(c));
    Some(Command("WAIT", None, Some(d), None))
  }

  /** `^WAIT\s*\[\s*SECONDS\s*=\s*(\d+)\s*\]\s*$`. */
  function WaitBracket(c: string): (r: Option<Command>)
    ensures r.Some? ==> r.value.kind == "WAIT" && r.value.via.None?
    ensures r.Some? ==> r.value.content.Some? && IsNumeral(r.value.content.value)
  {
    var n :- WordAt(c, 0, "WAIT");
    var a :- WsChar(c, n, '[');
    var sec :- WsWord(c, a, "SECONDS");
    var e :- WsChar(c, sec, '=');
    var d :- Digits(c, e, CloseEndK(c));
    Some(Command("WAIT", None, Some(d), None))
  }

  /** A non-empty string of decimal digits. */
  predicate IsNumeral(s: string) {
    |s| > 0 && forall i :: 0 <= i < |s| ==> IsDigit(s[i])
  }

  /** `^ASK\s*USER\s*HELP\s*\[\s*TEXT\s*=\s*(.+?)\s*\]\s*$`. */
  function AskUserHelp(c: string): (r: Option<Command>)
    ensures r.Some? ==> r.value.kind == "ASK_USER_HELP" && r.value.via.None?
  {
    var n :- WordAt(c, 0, "ASK");
    var u :- WsWord(c, n, "USER");
    var h :- WsWord(c, u, "HELP");
    var a :- WsChar(c, h, '[');
    var t :- WsWord(c, a, "TEXT");
    var e :- WsChar(c, t, '=');
    match WsThen(c, e, (g: nat) => Span(c, g, Lazy(c, g, IsDot, CloseEndK(c))))
    case Some((_, x)) => Some(Command("ASK_USER_HELP", None, Some(Strip(x)), None))
    case None => None
  }

  // ---------------------------------------------------------------- the search query clean-up

  /** Where `\s*\(.*?\)\s*$` matches from `i`: it runs to the end of the text. */
  function ParenTail(s: string, i: nat): Option<nat> {
    if i > |s| then None
    else
      var j := Ws(s, i);
      if j < |s| && s[j] == '('
         && TryUp(s, j + 1, IsDot, (p: nat) => if p < |s| && s[p] == ')' && WsEnd(s, p + 1) then Some(()) else None).Some?
      then Some(|s|)
      else None
  }

  /** Where `\s*[\.\)]\s*$` matches from `i`. */
  function PunctTail(s: string, i: nat): Option<nat> {
    if i > |s| then None
    else
      var j := Ws(s, i);
      if j < |s| && (s[j] == '.' || s[j] == ')') && WsEnd(s, j + 1) then Some(|s|) else None
  }

  /** Where `\s+#.*$` matches from `i`: up to the end, or to a final newline. */
  function CommentTail(s: string, i: nat): Option<nat> {
    if i > |s| then None
    else
      var j := Ws(s, i);
      if j > i && j < |s| && s[j] == '#' && AtEnd(s, RunFrom(s, j + 1, IsDot)) then Some(RunFrom(s, j + 1, IsDot))
      else None
  }

  /** The leftmost match of a pattern, `m` giving where a match from a position ends. */
  function Leftmost(s: string, i: nat, m: nat -> Option<nat>): (r: Option<(nat, nat)>)
    requires i <= |s|
    ensures r.Some? ==> i <= r.value.0 <= r.value.1 <= |s| && m(r.value.0) == Some(r.value.1)
    ensures r.Some? ==> forall j :: i <= j < r.value.0 ==> m(j).None? || !(j <= m(j).value <= |s|)
    ensures r.None? ==> forall j :: i <= j <= |s| ==> m(j).None? || !(j <= m(j).value <= |s|)
    decreases |s| - i
  {
    if m(i).Some? && i <= m(i).value <= |s| then Some((i, m(i).value))
    else if i == |s| then None
    else Leftmost(s, i + 1, m)
  }

  /** `re.sub(pattern, '', s)` for a pattern anchored at the end, which matches at most once. */
  function RemoveTail(s: string, m: nat -> Option<nat>): (r: string)
    ensures |r| <= |s|
  {
    match Leftmost(s, 0, m)
    case Some((i, e)) => s[..i] + s[e..]
    case None => s
  }

  /** No two whitespace characters stand next to each other. */
  predicate NoDoubleSpace(s: string) {
    forall i :: 0 <= i < |s| - 1 ==> !(IsSpace(s[i]) && IsSpace(s[i + 1]))
  }

  /** `re.sub(r'\s{2,}', ' ', s)`: every run of two or more whitespace characters becomes
      one space; a lone whitespace character is kept as it is. */
  function CollapseSpaces(s: string): (r: string)
    ensures NoDoubleSpace(r)
    ensures s != [] && !IsSpace(s[0]) ==> r != [] && r[0] == s[0]
    decreases |s|
  {
    if s == [] then []
    else if !IsSpace(s[0]) then
      var t := CollapseSpaces(s[1..]);
      assert forall i :: 1 <= i < |[s[0]] + t| - 1 ==> ([s[0]] + t)[i] == t[i - 1];
      [s[0]] + t
    else
      var n := PrefixRun(s, IsSpace);
      var t := CollapseSpaces(s[n..]);
      var head := if n >= 2 then " " else s[..1];
      assert forall i :: 1 <= i < |head + t| - 1 ==> (head + t)[i] == t[i - 1];
      head + t
  }

  /** The clean-up `parse_command_line` applies to a search query: a parenthetical tail, a
      final period or parenthesis and a `#` comment are dropped, whitespace runs collapse. */
  function CleanQuery(q: string): string {
    var a := RemoveTail(q, (i: nat) => ParenTail(q, i));
    var b := RemoveTail(a, (i: nat) => PunctTail(a, i));
    var c := RemoveTail(b, (i: nat) => CommentTail(b, i));
    Strip(CollapseSpaces(c))
  }

  // ---------------------------------------------------------------- parse_command_line

  /** The patterns in the order they are tried. */
  const Patterns: seq<string -> Option<Command>> :=
    [NavigateAngle, NavigatePlain, NavigateUrl, NavigateColon, Search, ClickBracket, ClickColon,
     TypeBracket, TypeColon, Submit, Clear, ScrollBracket, ScrollColon, GetDom, Screenshot,
     WaitColon, WaitBracket, AskUserHelp]

  /** The result of the first of `ps`, from the `k`-th on, that matches `c`. */
  function FirstMatch(ps: seq<string -> Option<Command>>, c: string, k: nat): Option<Command>
    decreases |ps| - k
  {
    if k >= |ps| then None
    else match ps[k](c)
      case Some(cmd) => Some(cmd)
      case None => FirstMatch(ps, c, k + 1)
  }

  /** `parse_command_line`: nothing for an empty line; otherwise the stripped line is tried
      against each pattern in turn. */
  function ParseCommandLine(cmd: string): Option<Command> {
    if cmd == "" then None else FirstMatch(Patterns, Strip(cmd), 0)
  }

  /** The kind of command each pattern produces, in the order the patterns are tried. */
  const PatternKinds: seq<string> :=
    ["NAVIGATE", "NAVIGATE", "NAVIGATE", "NAVIGATE", "SEARCH", "CLICK", "CLICK", "TYPE", "TYPE",
     "SUBMIT", "CLEAR", "SCROLL", "SCROLL", "GET_DOM", "SCREENSHOT", "WAIT", "WAIT", "ASK_USER_HELP"]

  /** The kinds that can name their target by agentq id. */
  const ByIdKinds: set<string> := {"CLICK", "TYPE", "SUBMIT", "CLEAR"}

  /** What each pattern promises about the command it produces. */
  predicate PatternPromise(j: nat, r: Option<Command>)
    requires j < |PatternKinds|
  {
    r.Some? ==>
      && r.value.kind == PatternKinds[j]
      && (r.value.via.Some? ==> r.value.via == Some(AgentqId) && r.value.kind in ByIdKinds)
      && (r.value.kind == "SCROLL" ==> r.value.target == Some("up") || r.value.target == Some("down"))
      && (r.value.kind == "WAIT" ==> r.value.content.Some? && IsNumeral(r.value.content.value))
      && (r.value.kind == "SCREENSHOT" ==> r.value.target.Some?)
  }

  lemma PatternKeepsPromise(j: nat, c: string)
    requires j < |Patterns|
    ensures |Patterns| == |PatternKinds|
    ensures PatternPromise(j, Patterns[j](c))
  {
  }

  lemma {:induction false} FirstMatchIsFirst(ps: seq<string -> Option<Command>>, c: string, i: nat, k: nat)
    requires i <= k < |ps|
    requires ps[k](c).Some?
    requires forall j :: i <= j < k ==> ps[j](c).None?
    ensures FirstMatch(ps, c, i) == ps[k](c)
    decreases k - i
  {
    if i < k {
      FirstMatchIsFirst(ps, c, i + 1, k);
    }
  }

  lemma {:induction false} FirstMatchNone(ps: seq<string -> Option<Command>>, c: string, i: nat)
    requires forall j :: i <= j < |ps| ==> ps[j](c).None?
    ensures FirstMatch(ps, c, i).None?
    decreases |ps| - i
  {
    if i < |ps| {
      FirstMatchNone(ps, c, i + 1);
    }
  }

  lemma {:induction false} FirstMatchWitness(ps: seq<string -> Option<Command>>, c: string, i: nat) returns (k: nat)
    requires FirstMatch(ps, c, i).Some?
    ensures i <= k < |ps| && FirstMatch(ps, c, i) == ps[k](c)
    ensures forall j :: i <= j < k ==> ps[j](c).None?
    decreases |ps| - i
  {
    if ps[i](c).Some? {
      k := i;
    } else {
      k := FirstMatchWitness(ps, c, i + 1);
    }
  }

  /** The patterns are tried in order and the first one that matches gives the command. */
  lemma ParseFirstMatchWins(cmd: string, k: nat)
    requires cmd != "" && k < |Patterns|
    requires Patterns[k](Strip(cmd)).Some?
    requires forall j :: 0 <= j < k ==> Patterns[j](Strip(cmd)).None?
    ensures ParseCommandLine(cmd) == Patterns[k](Strip(cmd))
    ensures ParseCommandLine(cmd).value.kind == PatternKinds[k]
  {
    FirstMatchIsFirst(Patterns, Strip(cmd), 0, k);
    PatternKeepsPromise(k, Strip(cmd));
  }

  /** A line matched by no pattern, and an empty one, give nothing. */
  lemma ParseNoMatch(cmd: string)
    requires forall j :: 0 <= j < |Patterns| ==> Patterns[j](Strip(cmd)).None?
    ensures ParseCommandLine(cmd).None?
  {
    FirstMatchNone(Patterns, Strip(cmd), 0);
  }

  /** A line with nothing but whitespace gives nothing: every pattern starts with a word. */
  lemma ParseBlank(cmd: string)
    requires Strip(cmd) == ""
    ensures ParseCommandLine(cmd).None?
  {
    forall j | 0 <= j < |Patterns| ensures Patterns[j]("").None? {
    }
    ParseNoMatch(cmd);
  }

  /** Every command has the kind of the pattern that produced it; only CLICK, TYPE, SUBMIT
      and CLEAR name a target by agentq id; a scroll goes up or down; a wait carries a
      number; a screenshot always has a path. */
  lemma ParsedCommandShape(cmd: string)
    ensures var r := ParseCommandLine(cmd);
      r.Some? ==>
        && r.value.kind in PatternKinds
        && (r.value.via.Some? ==> r.value.via == Some(AgentqId) && r.value.kind in ByIdKinds)
        && (r.value.kind == "SCROLL" ==> r.value.target == Some("up") || r.value.target == Some("down"))
        && (r.value.kind == "WAIT" ==> r.value.content.Some? && IsNumeral(r.value.content.value))
        && (r.value.kind == "SCREENSHOT" ==> r.value.target.Some?)
  {
    if ParseCommandLine(cmd).Some? {
      var k := FirstMatchWitness(Patterns, Strip(cmd), 0);
      PatternKeepsPromise(k, Strip(cmd));
    }
  }

  // ---------------------------------------------------------------- the forms a model writes

  /** The lower-case letters each pattern can start with. */
  const Initials: seq<set<char>> :=
    [{'g', 'n'}, {'g', 'n'}, {'g', 'n'}, {'g', 'n'}, {'s'}, {'c'}, {'c'}, {'t'}, {'t'},
     {'s'}, {'c'}, {'s'}, {'s'}, {'g'}, {'s'}, {'w'}, {'w'}, {'a'}]

  /** A literal cannot occur at the start of a line whose first letter differs from its own. */
  lemma NoWordAt(c: string, w: string)
    requires w != [] && (c == [] || LowerChar(c[0]) != LowerChar(w[0]))
    ensures WordAt(c, 0, w).None?
  {
  }

  lemma {:induction false} NoFirstWord(c: string, ws: seq<string>)
    requires forall k :: 0 <= k < |ws| ==> WordAt(c, 0, ws[k]).None?
    ensures FirstWord(c, 0, ws).None?
    decreases |ws|
  {
    if ws != [] {
      NoFirstWord(c, ws[1..]);
    }
  }

  lemma NoNavigateWord(c: string)
    requires c == [] || LowerChar(c[0]) !in {'g', 'n'}
    ensures FirstWord(c, 0, ["GOTO", "GO TO", "NAVIGATE"]).None?
    ensures FirstWord(c, 0, ["NAVIGATE", "GOTO"]).None?
  {
    NoWordAt(c, "GOTO");
    NoWordAt(c, "GO TO");
    NoWordAt(c, "NAVIGATE");
    NoFirstWord(c, ["GOTO", "GO TO", "NAVIGATE"]);
    NoFirstWord(c, ["NAVIGATE", "GOTO"]);
  }

  /** A pattern does not match a line that does not start with one of its letters. */
  lemma PatternInitial(j: nat, c: string)
    requires j < |Patterns|
    requires c == [] || LowerChar(c[0]) !in Initials[j]
    ensures Patterns[j](c).None?
  {
    if j < 4 {
      NoNavigateWord(c);
    } else if j == 4 {
      } else if j < 7 {
      } else if j < 9 {
      NoWordAt(c, "TYPE");
    } else if j == 9 {
      } else if j == 10 {
      NoWordAt(c, "CLEAR");
    } else if j < 13 {
      } else if j == 13 {
      NoWordAt(c, "GET");
    } else if j == 14 {
      NoWordAt(c, "SCREENSHOT");
    } else if j < 17 {
      NoWordAt(c, "WAIT");
    } else {
      NoWordAt(c, "ASK");
    }
  }

  /** A literal written out in the line occurs there. */
  lemma {:induction false} WordAtSlice(s: string, i: nat, w: string)
    requires i + |w| <= |s| && s[i..i + |w|] == w
    ensures WordAt(s, i, w) == Some(i + |w|)
    decreases |w|
  {
    if w != [] {
      assert s[i + 1..i + 1 + |w[1..]|] == w[1..];
      WordAtSlice(s, i + 1, w[1..]);
    }
  }

  /** A run of a class that holds up to the end of the text reaches the end. */
  lemma RunToEnd(s: string, p: nat, ok: char -> bool)
    requires p <= |s|
    requires forall j :: p <= j < |s| ==> ok(s[j])
    ensures RunFrom(s, p, ok) == |s|
  {
  }

  /** A run of a class stops at the first character outside it. */
  lemma {:induction false} RunUntil(s: string, p: nat, ok: char -> bool, q: nat)
    requires p <= q < |s|
    requires forall j :: p <= j < q ==> ok(s[j])
    requires !ok(s[q])
    ensures RunFrom(s, p, ok) == q
    decreases q - p
  {
    if p < q {
      RunUntil(s, p + 1, ok, q);
    }
  }

  /** `\s*$` cannot match before the end of a line that ends in a non-space. */
  lemma NotWsEnd(s: string, j: nat)
    requires j < |s| && !IsSpace(s[|s| - 1])
    ensures !WsEnd(s, j)
  {
  }

  /** `\s*(.+)$` on a rest of the line that starts with a non-space and has no newline
      captures all of it. */
  lemma DotRestWhole(s: string, a: nat)
    requires a < |s| && !IsSpace(s[a])
    requires forall j :: a <= j < |s| ==> s[j] != '\n'
    ensures DotRest(s, a) == Some(s[a..])
  {
    assert Ws(s, a) == a;
    GreedyToEnd(s, a);
    var k := (g: nat) => Span(s, g, Greedy(s, g, IsDot, EndK(s)));
    assert k(a) == Some(s[a..]);
    assert TryDown(a, a, k) == Some((a, s[a..]));
    assert WsThen(s, a, k) == TryDown(a, a, k);
  }

  /** `(.+)$` from `a` on a rest of the line with no newline takes all of it. */
  lemma GreedyToEnd(s: string, a: nat)
    requires a < |s|
    requires forall j :: a <= j < |s| ==> s[j] != '\n'
    ensures Span(s, a, Greedy(s, a, IsDot, EndK(s))) == Some(s[a..])
  {
    RunToEnd(s, a, IsDot);
    assert EndK(s)(|s|) == Some(());
    assert TryDown(a + 1, |s|, EndK(s)) == Some((|s|, ()));
    var m := Greedy(s, a, IsDot, EndK(s));
    assert m == Some((|s|, ()));
    assert s[a..m.value.0] == s[a..];
  }

  /** `\s*(.+)$` from a single space before the rest of the line, as in `VERB: rest`. */
  lemma DotRestAfterSpace(s: string, a: nat)
    requires a + 1 < |s| && IsSpace(s[a]) && !IsSpace(s[a + 1])
    requires forall j :: a + 1 <= j < |s| ==> s[j] != '\n'
    ensures DotRest(s, a) == Some(s[a + 1..])
  {
    assert Ws(s, a + 1) == a + 1;
    assert Ws(s, a) == a + 1;
    GreedyToEnd(s, a + 1);
    var k := (g: nat) => Span(s, g, Greedy(s, g, IsDot, EndK(s)));
    assert k(a + 1) == Some(s[a + 1..]);
    assert TryDown(a, a + 1, k) == Some((a + 1, s[a + 1..]));
  }

  /** The id of a target written `ID=x`. */
  lemma IdFormOf(t: string, x: string)
    requires t == "ID=" + x
    requires x != [] && !IsSpace(x[0]) && !IsSpace(x[|x| - 1])
    requires forall j :: 0 <= j < |x| ==> x[j] != '\n'
    ensures IdForm(t) == Some(x)
  {
    WordAtSlice(t, 0, "ID");
    assert WsChar(t, 2, '=') == Some(3);
    DotRestWhole(t, 3);
    assert t[3..] == x;
    StripNoop(x);
  }

  /** `w: rest` at the start of `c`, the rest starting at `a`, with no newline and no
      whitespace at the start or at the end. */
  predicate ColonForm(c: string, w: string, a: nat) {
    && |w| + 2 == a < |c|
    && c[..|w|] == w && c[|w|] == ':' && c[|w| + 1] == ' ' && !IsSpace(c[a]) && !IsSpace(c[|c| - 1])
    && (forall j :: a <= j < |c| ==> c[j] != '\n')
  }

  /** `CLICK: t` matches the colon form and not the bracket form. */
  lemma ClickColonOf(c: string)
    requires ColonForm(c, "CLICK", 7)
    ensures ClickBracket(c).None?
    ensures ClickColon(c) == Some(Click(Strip(c[7..])))
  {
    WordAtSlice(c, 0, "CLICK");
    assert Ws(c, 5) == 5;
    DotRestAfterSpace(c, 6);
  }

  /** No pattern before the `k`-th can start with the first letter of `c`. */
  lemma InitialsBefore(c: string, k: nat)
    requires c != [] && k <= |Patterns|
    requires forall j :: 0 <= j < k ==> LowerChar(c[0]) !in Initials[j]
    ensures forall j :: 0 <= j < k ==> Patterns[j](c).None?
  {
    forall j | 0 <= j < k ensures Patterns[j](c).None? {
      PatternInitial(j, c);
    }
  }

  /** A stripped line that the `k`-th pattern matches, and whose first letter starts none of
      the patterns before it, is parsed by the `k`-th. */
  lemma ParseAfterInitials(c: string, k: nat, ch: char)
    requires c != [] && Strip(c) == c && k < |Patterns| && LowerChar(c[0]) == ch
    requires forall j :: 0 <= j < k ==> ch !in Initials[j]
    requires Patterns[k](c).Some?
    ensures ParseCommandLine(c) == Patterns[k](c)
  {
    InitialsBefore(c, k);
    ParseAt(c, k);
  }

  /** A stripped line that the `k`-th pattern is the first to match is parsed by it. */
  lemma ParseAt(c: string, k: nat)
    requires c != [] && Strip(c) == c && k < |Patterns|
    requires forall j :: 0 <= j < k ==> Patterns[j](c).None?
    requires Patterns[k](c).Some?
    ensures ParseCommandLine(c) == Patterns[k](c)
  {
    ParseFirstMatchWins(c, k);
  }

  /** The navigation and search patterns do not match a line that starts with `c`. */
  lemma BeforeClick(c: string)
    requires c != [] && LowerChar(c[0]) == 'c'
    ensures forall j :: 0 <= j < 5 ==> Patterns[j](c).None?
  {
    InitialsBefore(c, 5);
  }

  /** The letters that start a search line and a wait line start no pattern before theirs. */
  lemma SearchSlot()
    ensures Patterns[4] == Search
    ensures forall j :: 0 <= j < 4 ==> 's' !in Initials[j]
  {
  }

  lemma WaitSlot()
    ensures Patterns[15] == WaitColon
    ensures forall j :: 0 <= j < 15 ==> 'w' !in Initials[j]
  {
  }

  lemma NavigateSlot()
    ensures Patterns[0] == NavigateAngle
  {
  }

  lemma ClickSlots()
    ensures Patterns[5] == ClickBracket && Patterns[6] == ClickColon
  {
  }

  /** A stripped line that starts with `c` and that the sixth pattern is the first to match
      is parsed by it. */
  lemma ParseAsClick(c: string, k: nat)
    requires c != [] && LowerChar(c[0]) == 'c' && Strip(c) == c
    requires k == 5 || k == 6
    requires k == 6 ==> Patterns[5](c).None?
    requires Patterns[k](c).Some?
    ensures ParseCommandLine(c) == Patterns[k](c)
  {
    BeforeClick(c);
    if k == 6 {
      NoneThrough(Patterns, c, 5);
    }
    ParseAt(c, k);
  }

  /** One more pattern that does not match extends a run of patterns that do not. */
  lemma NoneThrough(ps: seq<string -> Option<Command>>, c: string, k: nat)
    requires k < |ps|
    requires forall j :: 0 <= j < k ==> ps[j](c).None?
    requires ps[k](c).None?
    ensures forall j :: 0 <= j < k + 1 ==> ps[j](c).None?
  {
  }

  /** The line `CLICK: t` clicks `t`, by agentq id when `t` is written `ID=x`. */
  lemma ParseClickColon(c: string)
    requires ColonForm(c, "CLICK", 7)
    ensures ParseCommandLine(c) == Some(Click(c[7..]))
  {
    ClickColonOf(c);
    StripNoop(c);
    StripNoop(c[7..]);
    assert c[0] == "CLICK"[0];
    ClickSlots();
    ParseAsClick(c, 6);
  }

  /** `CLICK: ID=x` clicks the element whose agentq id is `x`. */
  lemma ClickColonById(c: string, x: string)
    requires c == "CLICK: ID=" + x
    requires x != [] && !IsSpace(x[0]) && !IsSpace(x[|x| - 1])
    requires forall j :: 0 <= j < |x| ==> x[j] != '\n'
    ensures ParseCommandLine(c) == Some(Command("CLICK", Some(x), None, Some(AgentqId)))
  {
    assert c[..5] == "CLICK" && c[5] == ':' && c[6] == ' ' && c[7] == 'I';
    assert c[7..] == "ID=" + x;
    assert ColonForm(c, "CLICK", 7);
    ParseClickColon(c);
    IdFormOf(c[7..], x);
  }

  // ---------------------------------------------------------------- targets written ID=x

  /** A target written `ID=x` names the element whose agentq id is `x`. */
  lemma ClickById(x: string)
    requires x != [] && !IsSpace(x[0]) && !IsSpace(x[|x| - 1])
    requires forall j :: 0 <= j < |x| ==> x[j] != '\n'
    ensures Click("ID=" + x) == Command("CLICK", Some(x), None, Some(AgentqId))
  {
    IdFormOf("ID=" + x, x);
  }

  lemma TypeById(x: string, txt: string)
    requires x != [] && !IsSpace(x[0]) && !IsSpace(x[|x| - 1])
    requires forall j :: 0 <= j < |x| ==> x[j] != '\n'
    ensures TypeInto("ID=" + x, txt) == Command("TYPE", Some(x), Some(txt), Some(AgentqId))
  {
    IdFormOf("ID=" + x, x);
  }

  /** Any other target is a selector, kept as it is, with no `by`. */
  lemma ClickBySelector(t: string)
    requires t == [] || LowerChar(t[0]) != 'i'
    ensures Click(t) == Command("CLICK", Some(t), None, None)
  {
    NoWordAt(t, "ID");
  }

  lemma TypeBySelector(t: string, txt: string)
    requires t == [] || LowerChar(t[0]) != 'i'
    ensures TypeInto(t, txt) == Command("TYPE", Some(t), Some(txt), None)
  {
    NoWordAt(t, "ID");
  }

  // ---------------------------------------------------------------- whole lines

  /** `\s*([^\]]+)\s*\]\s*$` on a rest of the line that starts with a non-space, holds no
      `]` and is closed by the last character captures all of it up to the bracket. */
  lemma BracketRestWhole(s: string, a: nat)
    requires a + 1 < |s| && !IsSpace(s[a]) && s[|s| - 1] == ']'
    requires forall j :: a <= j < |s| - 1 ==> s[j] != ']'
    ensures BracketRest(s, a) == Some(s[a..|s| - 1])
  {
    assert Ws(s, a) == a;
    GreedyToClose(s, a);
    var k := (g: nat) => Span(s, g, Greedy(s, g, NotClose, CloseEndK(s)));
    assert k(a) == Some(s[a..|s| - 1]);
    assert TryDown(a, a, k) == Some((a, s[a..|s| - 1]));
    assert WsThen(s, a, k) == TryDown(a, a, k);
  }

  /** `([^\]]+)\s*\]\s*$` from `a` on a rest of the line closed by its last character, with no
      other `]`, takes all of it up to the bracket. */
  lemma GreedyToClose(s: string, a: nat)
    requires a + 1 < |s| && s[|s| - 1] == ']'
    requires forall j :: a <= j < |s| - 1 ==> s[j] != ']'
    ensures Span(s, a, Greedy(s, a, NotClose, CloseEndK(s))) == Some(s[a..|s| - 1])
  {
    RunUntil(s, a, NotClose, |s| - 1);
    assert Ws(s, |s| - 1) == |s| - 1;
    assert CloseEndK(s)(|s| - 1) == Some(());
    assert TryDown(a + 1, |s| - 1, CloseEndK(s)) == Some((|s| - 1, ()));
  }

  /** `w`, then a bracketed rest with no `]` in it, no whitespace at its ends. */
  predicate BracketForm(c: string, w: string) {
    && |w| + 1 < |c| && c[..|w|] == w && c[|c| - 1] == ']'
    && !IsSpace(c[|w|]) && !IsSpace(c[|c| - 2])
    && (forall j :: |w| <= j < |c| - 1 ==> c[j] != ']')
  }

  /** The pattern reads `CLICK [ID=` as the word, the bracket, the `ID` and the `=`. */
  lemma ClickBracketIdHead(c: string)
    requires |c| > 10 && c[..10] == "CLICK [ID="
    ensures WordAt(c, 0, "CLICK") == Some(5)
    ensures WsChar(c, 5, '[') == Some(7)
    ensures FirstWord(c, Ws(c, 7), ["ID", "SELECTOR"]) == Some(9)
    ensures WsChar(c, 9, '=') == Some(10)
  {
    ClickBracketIdChars(c);
    WordAtSlice(c, 0, "CLICK");
    assert Ws(c, 5) == 6;
    assert Ws(c, 7) == 7;
    WordAtSlice(c, 7, "ID");
  }

  lemma ClickBracketIdChars(c: string)
    requires |c| > 10 && c[..10] == "CLICK [ID="
    ensures c[..5] == "CLICK" && c[5] == ' ' && c[6] == '[' && c[7..9] == "ID" && c[9] == '='
  {
    var h := c[..10];
    assert h[..5] == c[..5] && h[7..9] == c[7..9];
    assert c[5] == h[5] && c[6] == h[6] && c[9] == h[9];
  }

  /** `CLICK [ID=t]` matches the bracket form with the group `t`: the `ID=` is eaten by the
      pattern itself. */
  lemma ClickBracketOf(c: string)
    requires BracketForm(c, "CLICK [ID=")
    ensures ClickBracket(c) == Some(Click(c[10..|c| - 1]))
  {
    ClickBracketIdHead(c);
    BracketRestWhole(c, 10);
    var t := c[10..|c| - 1];
    assert t[0] == c[10] && t[|t| - 1] == c[|c| - 2];
    StripNoop(t);
  }

  /** `CLICK [ID=x]` clicks a selector `x`, with no `by`: unlike `CLICK: ID=x`, the id form
      inside the brackets never reaches the agentq-id branch. */
  lemma ClickBracketIdHasNoBy(c: string, x: string)
    requires c == "CLICK [ID=" + x + "]"
    requires x != [] && !IsSpace(x[0]) && !IsSpace(x[|x| - 1]) && LowerChar(x[0]) != 'i'
    requires forall j :: 0 <= j < |x| ==> x[j] != ']'
    ensures ParseCommandLine(c) == Some(Command("CLICK", Some(x), None, None))
  {
    assert c[..10] == "CLICK [ID=" && c[10..|c| - 1] == x;
    assert BracketForm(c, "CLICK [ID=");
    ClickBracketOf(c);
    ClickBySelector(x);
    StripNoop(c);
    assert c[0] == 'C';
    ClickSlots();
    ParseAsClick(c, 5);
  }

  /** The characters of `GOTO [URL=`. */
  lemma GotoUrlChars(c: string)
    requires |c| > 10 && c[..10] == "GOTO [URL="
    ensures c[..4] == "GOTO" && c[4] == ' ' && c[5] == '[' && c[6..9] == "URL" && c[9] == '='
  {
    var w := c[..10];
    assert c[0] == w[0] == 'G' && c[1] == w[1] == 'O' && c[2] == w[2] == 'T' && c[3] == w[3] == 'O';
    assert c[4] == w[4] == ' ' && c[5] == w[5] == '[' && c[6] == w[6] == 'U' && c[7] == w[7] == 'R';
    assert c[8] == w[8] == 'L' && c[9] == w[9] == '=';
  }

  /** The literal part of `GOTO [URL=u]`, up to the `=`. */
  lemma GotoUrlHead(c: string)
    requires |c| > 10 && c[..10] == "GOTO [URL="
    ensures FirstWord(c, 0, ["GOTO", "GO TO", "NAVIGATE"]) == Some(4)
    ensures WsChar(c, 4, '[') == Some(6) && WsWord(c, 6, "URL") == Some(9)
    ensures WsChar(c, 9, '=') == Some(10)
  {
    GotoUrlChars(c);
    WordAtSlice(c, 0, "GOTO");
    assert Ws(c, 4) == 5;
    assert Ws(c, 6) == 6;
    WordAtSlice(c, 6, "URL");
    assert Ws(c, 9) == 9;
  }

  /** The literal part of `GOTO [URL=<u>]`, up to the `<`. */
  lemma GotoUrlPrefix(c: string)
    requires |c| > 11 && c[..11] == "GOTO [URL=<"
    ensures FirstWord(c, 0, ["GOTO", "GO TO", "NAVIGATE"]) == Some(4)
    ensures WsChar(c, 4, '[') == Some(6) && WsWord(c, 6, "URL") == Some(9)
    ensures WsChar(c, 9, '=') == Some(10) && WsChar(c, 10, '<') == Some(11)
  {
    assert c[..10] == c[..11][..10];
    GotoUrlHead(c);
    assert c[10] == c[..11][10];
    assert Ws(c, 10) == 10;
  }

  /** `GOTO [URL=<u>]`. */
  lemma NavigateAngleOf(c: string)
    requires |c| > 13 && c[..11] == "GOTO [URL=<" && c[|c| - 2] == '>' && c[|c| - 1] == ']'
    requires forall j :: 11 <= j < |c| - 2 ==> c[j] != '>' && c[j] != ']'
    ensures NavigateAngle(c) == Some(Navigate(Strip(c[11..|c| - 2])))
  {
    GotoUrlPrefix(c);
    RunUntil(c, 11, NotAngleOrClose, |c| - 2);
    assert Ws(c, |c| - 1) == |c| - 1;
    assert CloseEndK(c)(|c| - 1) == Some(());
  }

  /** The line `GOTO [URL=<u>]` navigates to `u`, stripped. */
  lemma ParseGotoAngle(c: string, u: string)
    requires c == "GOTO [URL=<" + u + ">]"
    requires u != [] && forall j :: 0 <= j < |u| ==> u[j] != '>' && u[j] != ']'
    ensures ParseCommandLine(c) == Some(Navigate(Strip(u)))
  {
    assert c[..11] == "GOTO [URL=<" && c[11..|c| - 2] == u;
    NavigateAngleOf(c);
    StripNoop(c);
    NavigateSlot();
    ParseAt(c, 0);
  }

  /** A query the clean-up leaves alone: stripped, without double spaces, without `(`, `#`
      or line ends, and not ending in `.` or `)`. */
  predicate PlainQuery(q: string) {
    && q != [] && !IsSpace(q[0]) && !IsSpace(q[|q| - 1]) && NoDoubleSpace(q)
    && q[|q| - 1] != '.' && q[|q| - 1] != ')'
    && (forall j :: 0 <= j < |q| ==> q[j] != '(' && q[j] != '#' && q[j] != '\n' && q[j] != '\r')
  }

  lemma {:induction false} LeftmostNone(s: string, i: nat, m: nat -> Option<nat>)
    requires i <= |s|
    requires forall j :: i <= j <= |s| ==> m(j).None?
    ensures Leftmost(s, i, m).None?
    decreases |s| - i
  {
    if i < |s| {
      LeftmostNone(s, i + 1, m);
    }
  }

  lemma {:induction false} CollapseNoop(s: string)
    requires NoDoubleSpace(s)
    ensures CollapseSpaces(s) == s
    decreases |s|
  {
    if s != [] {
      assert NoDoubleSpace(s[1..]) by {
        forall i | 0 <= i < |s[1..]| - 1 ensures !(IsSpace(s[1..][i]) && IsSpace(s[1..][i + 1])) {
          assert s[1..][i] == s[i + 1] && s[1..][i + 1] == s[i + 2];
        }
      }
      CollapseNoop(s[1..]);
      if IsSpace(s[0]) {
        assert PrefixRun(s, IsSpace) == 1 by {
          if |s| > 1 {
            assert !IsSpace(s[1]);
          }
        }
        assert s == s[..1] + s[1..];
      } else {
        assert s == [s[0]] + s[1..];
      }
    }
  }

  /** A plain query comes out of the clean-up as it went in. */
  lemma CleanQueryPlain(q: string)
    requires PlainQuery(q)
    ensures CleanQuery(q) == q
  {
    forall i | 0 <= i <= |q| ensures ParenTail(q, i).None? {
    }
    LeftmostNone(q, 0, (i: nat) => ParenTail(q, i));
    forall i | 0 <= i <= |q| ensures PunctTail(q, i).None? {
      var j := Ws(q, i);
      if j + 1 < |q| {
        NotWsEnd(q, j + 1);
      }
    }
    LeftmostNone(q, 0, (i: nat) => PunctTail(q, i));
    forall i | 0 <= i <= |q| ensures CommentTail(q, i).None? {
    }
    LeftmostNone(q, 0, (i: nat) => CommentTail(q, i));
    CollapseNoop(q);
    StripNoop(q);
  }

  lemma {:induction false} TryUpFirst<T>(s: string, e: nat, ok: char -> bool, k: nat -> Option<T>, t: nat)
    requires e <= t <= |s|
    requires forall j :: e <= j < t ==> ok(s[j]) && k(j).None?
    requires k(t).Some?
    ensures TryUp(s, e, ok, k) == Some((t, k(t).value))
    decreases t - e
  {
    if e < t {
      TryUpFirst(s, e + 1, ok, k, t);
    }
  }

  /** `SEARCH: q` captures all of `q` when it holds no `#` and no line end. */
  lemma SearchColonOf(c: string)
    requires ColonForm(c, "SEARCH", 8)
    requires forall j :: 8 <= j < |c| ==> c[j] != '#' && c[j] != '\r'
    ensures SearchGroup(c) == Some(c[8..])
  {
    WordAtSlice(c, 0, "SEARCH");
    assert Ws(c, 6) == 6;
    assert Ws(c, 7) == 8;
    var tail := WsEndK(c);
    forall j | 9 <= j < |c| ensures tail(j).None? {
      NotWsEnd(c, j);
    }
    assert tail(|c|) == Some(());
    TryUpFirst(c, 9, NotLineOrHash, tail, |c|);
    var m := Lazy(c, 8, NotLineOrHash, tail);
    assert m == Some((|c|, ()));
    assert c[8..m.value.0] == c[8..];
    var k := (g: nat) => Span(c, g, Lazy(c, g, NotLineOrHash, WsEndK(c)));
    assert k(8) == Span(c, 8, m);
    assert TryDown(7, 8, k) == Some((8, c[8..]));
    assert WsThen(c, 7, k) == TryDown(7, 8, k);
  }

  /** The line `SEARCH: q` searches for the cleaned-up `q`. */
  lemma ParseSearchColon(c: string)
    requires ColonForm(c, "SEARCH", 8)
    requires forall j :: 8 <= j < |c| ==> c[j] != '#' && c[j] != '\r'
    ensures ParseCommandLine(c) == Some(Command("SEARCH", None, Some(CleanQuery(Strip(c[8..]))), None))
  {
    SearchColonOf(c);
    StripNoop(c);
    assert c[0] == "SEARCH"[0];
    SearchSlot();
    ParseAfterInitials(c, 4, 's');
  }

  /** `SEARCH: q` searches for a plain query `q` exactly. */
  lemma ParseSearchPlain(c: string, q: string)
    requires c == "SEARCH: " + q
    requires PlainQuery(q)
    ensures ParseCommandLine(c) == Some(Command("SEARCH", None, Some(q), None))
  {
    assert c[..6] == "SEARCH" && c[8..] == q;
    assert ColonForm(c, "SEARCH", 8);
    ParseSearchColon(c);
    StripNoop(q);
    CleanQueryPlain(q);
  }

  /** `WAIT: n` for a digit string `n`. */
  lemma WaitColonOf(c: string)
    requires ColonForm(c, "WAIT", 6)
    requires forall j :: 6 <= j < |c| ==> IsDigit(c[j])
    ensures WaitColon(c) == Some(Command("WAIT", None, Some(c[6..]), None))
  {
    WordAtSlice(c, 0, "WAIT");
    assert Ws(c, 4) == 4;
    assert Ws(c, 5) == 6;
    RunToEnd(c, 6, IsDigit);
    assert WsEndK(c)(|c|) == Some(());
    assert Digits(c, 5, WsEndK(c)) == Some(c[6..|c|]);
    assert c[6..|c|] == c[6..];
  }

  /** `WAIT: n` waits `n` seconds, the number written as it came. */
  lemma ParseWait(c: string, n: nat)
    requires c == "WAIT: " + NatToString(n)
    ensures ParseCommandLine(c) == Some(Command("WAIT", None, Some(NatToString(n)), None))
  {
    var d := NatToString(n);
    assert c[..4] == "WAIT" && c[6..] == d;
    assert ColonForm(c, "WAIT", 6);
    WaitColonOf(c);
    StripNoop(c);
    assert c[0] == 'W';
    WaitSlot();
    ParseAfterInitials(c, 15, 'w');
  }

  /** The direction is matched without case and comes out lower-cased. */
  lemma DirectionLowered(c: string, q: nat)
    ensures CiAt(c, q, "UP") ==> Direction(c, q) == Some((q + 2, "up"))
    ensures CiAt(c, q, "DOWN") ==> Direction(c, q) == Some((q + 4, "down"))
    ensures !CiAt(c, q, "UP") && !CiAt(c, q, "DOWN") ==> Direction(c, q).None?
  {
    if CiAt(c, q, "DOWN") {
      assert !CiAt(c, q, "UP");
    }
  }

  /** `SCREENSHOT` alone, in any case, takes the default path. */
  lemma ScreenshotDefaultPath(c: string)
    requires |c| == 10 && CiAt(c, 0, "SCREENSHOT")
    ensures Screenshot(c) == Some(Command("SCREENSHOT", Some(DefaultScreenshot), None, None))
  {
    assert WordAt(c, 0, "SCREENSHOT") == Some(10);
    assert Ws(c, 10) == 10;
    assert WsChar(c, 10, '[').None? && WsEnd(c, 10);
  }
  // ---------------------------------------------------------------- more whole lines

  /** The slot of every pattern in the order they are tried. */
  lemma Slots()
    ensures Patterns[1] == NavigatePlain && Patterns[2] == NavigateUrl && Patterns[3] == NavigateColon
    ensures Patterns[7] == TypeBracket && Patterns[8] == TypeColon
    ensures Patterns[9] == Submit && Patterns[10] == Clear && Patterns[11] == ScrollBracket
    ensures Patterns[12] == ScrollColon && Patterns[14] == Screenshot
    ensures Patterns[16] == WaitBracket && Patterns[17] == AskUserHelp
  {
  }

  /** A stripped `GOTO http…` line that the bracket and plain forms do not match is parsed
      by the URL form. */
  lemma UrlWins(c: string)
    requires c != [] && Strip(c) == c
    requires NavigateAngle(c).None? && NavigatePlain(c).None? && NavigateUrl(c).Some?
    ensures ParseCommandLine(c) == NavigateUrl(c)
  {
    NavigateSlot();
    Slots();
    NoneThrough(Patterns, c, 0);
    NoneThrough(Patterns, c, 1);
    ParseAt(c, 2);
  }

  /** The letters `s` and `c` start none of the patterns in the runs skipped above. */
  lemma LetterSlots()
    ensures forall j :: 5 <= j < 9 ==> 's' !in Initials[j]
    ensures forall j :: 7 <= j < 10 ==> 'c' !in Initials[j]
    ensures 's' !in Initials[10] && 's' !in Initials[13]
  {
  }

  /** A stripped line starting with `s` that the search form does not match and the submit
      form does is parsed by the submit form. */
  lemma SubmitWins(c: string)
    requires c != [] && Strip(c) == c && LowerChar(c[0]) == 's'
    requires Search(c).None? && Submit(c).Some?
    ensures ParseCommandLine(c) == Submit(c)
  {
    Slots();
    SearchSlot();
    InitialsBefore(c, 4);
    NoneThrough(Patterns, c, 4);
    LetterSlots();
    InitialsFrom(c, 5, 9);
    ParseAt(c, 9);
  }

  /** A stripped line starting with `c` that neither click form matches and the clear form
      does is parsed by the clear form. */
  lemma ClearWins(c: string)
    requires c != [] && Strip(c) == c && LowerChar(c[0]) == 'c'
    requires ClickBracket(c).None? && ClickColon(c).None? && Clear(c).Some?
    ensures ParseCommandLine(c) == Clear(c)
  {
    Slots();
    BeforeClick(c);
    ClickSlots();
    NoneThrough(Patterns, c, 5);
    NoneThrough(Patterns, c, 6);
    LetterSlots();
    InitialsFrom(c, 7, 10);
    ParseAt(c, 10);
  }

  /** A stripped line starting with `s` that the search, submit and scroll forms do not match
      and the screenshot form does is parsed by the screenshot form. */
  lemma ScreenshotWins(c: string)
    requires c != [] && Strip(c) == c && LowerChar(c[0]) == 's'
    requires Search(c).None? && Submit(c).None? && ScrollBracket(c).None? && ScrollColon(c).None?
    requires Screenshot(c).Some?
    ensures ParseCommandLine(c) == Screenshot(c)
  {
    Slots();
    SearchSlot();
    InitialsBefore(c, 4);
    NoneThrough(Patterns, c, 4);
    LetterSlots();
    InitialsFrom(c, 5, 9);
    NoneThrough(Patterns, c, 9);
    PatternInitial(10, c);
    NoneThrough(Patterns, c, 10);
    NoneThrough(Patterns, c, 11);
    NoneThrough(Patterns, c, 12);
    PatternInitial(13, c);
    NoneThrough(Patterns, c, 13);
    ParseAt(c, 14);
  }

  /** The patterns before each of these can start with their first letter only where noted. */
  lemma TypeSlot()
    ensures forall j :: 0 <= j < 7 ==> 't' !in Initials[j]
  {
  }

  /** The patterns from `i` to `k` do not match a line whose first letter starts none of
      them, which extends a run of patterns that do not match. */
  lemma {:induction false} InitialsFrom(c: string, i: nat, k: nat)
    requires c != [] && i <= k <= |Patterns|
    requires forall j :: 0 <= j < i ==> Patterns[j](c).None?
    requires forall j :: i <= j < k ==> LowerChar(c[0]) !in Initials[j]
    ensures forall j :: 0 <= j < k ==> Patterns[j](c).None?
    decreases k - i
  {
    if i < k {
      PatternInitial(i, c);
      NoneThrough(Patterns, c, i);
      InitialsFrom(c, i + 1, k);
    }
  }

  lemma AskSlot()
    ensures forall j :: 0 <= j < 17 ==> 'a' !in Initials[j]
  {
  }

  /** A literal does not occur where one of its letters differs from the line's. */
  lemma {:induction false} NotCiAtAt(s: string, i: nat, w: string, k: nat)
    requires k < |w| && (i + k >= |s| || LowerChar(s[i + k]) != LowerChar(w[k]))
    ensures !CiAt(s, i, w)
    decreases k
  {
    if k > 0 && CiAt(s, i, w) {
      assert w[1..][k - 1] == w[k];
      NotCiAtAt(s, i + 1, w[1..], k - 1);
    }
  }

  /** `\s*\]` does not match before the last character of a line closed by `]` whose other
      characters after `j` hold no `]`, when the one before the bracket is not a space. */
  lemma NoCloseBefore(s: string, j: nat)
    requires j < |s| - 1 && s[|s| - 1] == ']' && !IsSpace(s[|s| - 2])
    requires forall i :: j <= i < |s| - 1 ==> s[i] != ']'
    ensures WsChar(s, j, ']').None?
  {
  }

  /** A lazy group from `a` that must be followed by `\s*\]` (with `\s*$` after it when `end`)
      stops at the line's final `]`. */
  lemma NoCloseInside(s: string, a: nat, ok: char -> bool, end: bool)
    requires a + 1 < |s| && s[|s| - 1] == ']' && !IsSpace(s[|s| - 2])
    requires forall j :: a <= j < |s| - 1 ==> ok(s[j]) && s[j] != ']'
    ensures forall j :: a + 1 <= j < |s| - 1 ==>
              ok(s[j]) && (if end then CloseEndK(s) else CloseK(s))(j).None?
  {
    forall j | a + 1 <= j < |s| - 1
      ensures ok(s[j]) && (if end then CloseEndK(s) else CloseK(s))(j).None?
    {
      NoCloseBefore(s, j);
    }
  }

  lemma LazyToClose(s: string, a: nat, ok: char -> bool, end: bool)
    requires a + 1 < |s| && s[|s| - 1] == ']' && !IsSpace(s[|s| - 2])
    requires forall j :: a <= j < |s| - 1 ==> ok(s[j]) && s[j] != ']'
    ensures Lazy(s, a, ok, if end then CloseEndK(s) else CloseK(s)) == Some((|s| - 1, ()))
  {
    var tail := if end then CloseEndK(s) else CloseK(s);
    NoCloseInside(s, a, ok, end);
    assert Ws(s, |s| - 1) == |s| - 1;
    assert tail(|s| - 1) == Some(());
    TryUpFirst(s, a + 1, ok, tail, |s| - 1);
  }

  /** Patterns that do not match, one by one, up to the `k`-th. */
  lemma NoneBefore(c: string, k: nat)
    requires k <= |Patterns|
    requires forall j :: 0 <= j < k ==> Patterns[j](c).None?
    ensures FirstMatch(Patterns, c, 0) == FirstMatch(Patterns, c, k)
    decreases k
  {
    if k > 0 {
      NoneBefore(c, k - 1);
    }
  }

  /** `GOTO [URL=u]` without angle brackets. */
  lemma NavigatePlainOf(c: string)
    requires |c| > 11 && c[..10] == "GOTO [URL=" && c[10] != '<' && c[|c| - 1] == ']'
    requires forall j :: 10 <= j < |c| - 1 ==> c[j] != ']' && !IsSpace(c[j])
    ensures NavigateAngle(c).None?
    ensures NavigatePlain(c) == Some(Navigate(Strip(c[10..|c| - 1])))
  {
    GotoUrlHead(c);
    assert Ws(c, 10) == 10;
    RunUntil(c, 10, NotCloseOrSpace, |c| - 1);
    assert Ws(c, |c| - 1) == |c| - 1;
    assert CloseEndK(c)(|c| - 1) == Some(());
  }

  /** The line `GOTO [URL=u]` navigates to `u`. */
  lemma ParseGotoPlain(c: string, u: string)
    requires c == "GOTO [URL=" + u + "]"
    requires u != [] && u[0] != '<' && forall j :: 0 <= j < |u| ==> u[j] != ']' && !IsSpace(u[j])
    ensures ParseCommandLine(c) == Some(Navigate(u))
  {
    assert c[..10] == "GOTO [URL=" && c[10..|c| - 1] == u && c[10] == u[0];
    assert forall j :: 10 <= j < |c| - 1 ==> c[j] == u[j - 10];
    ParseGotoPlainAt(c);
    StripNoop(u);
  }

  lemma ParseGotoPlainAt(c: string)
    requires |c| > 11 && c[..10] == "GOTO [URL=" && c[10] != '<' && c[|c| - 1] == ']'
    requires forall j :: 10 <= j < |c| - 1 ==> c[j] != ']' && !IsSpace(c[j])
    ensures ParseCommandLine(c) == Some(Navigate(Strip(c[10..|c| - 1])))
  {
    NavigatePlainOf(c);
    assert c[0] == c[..10][0];
    StripNoop(c);
    NavigateSlot();
    Slots();
    NoneThrough(Patterns, c, 0);
    ParseAt(c, 1);
  }

  /** `GOTO u` for a URL `u` that starts with `http://` or `https://`. */
  lemma NavigateUrlOf(c: string, secure: bool)
    requires |c| > (if secure then 13 else 12) && c[..4] == "GOTO" && c[4] == ' '
    requires if secure then c[5..13] == "https://" else c[5..12] == "http://"
    requires forall j :: 5 <= j < |c| ==> !IsSpace(c[j])
    ensures ParseCommandLine(c) == Some(Navigate(Strip(c[5..])))
  {
    NavigateUrlMatch(c, secure);
    assert c[0] == c[..4][0];
    StripNoop(c);
    UrlWins(c);
  }

  /** `GOTO u` matches the URL form only. */
  lemma NavigateUrlMatch(c: string, secure: bool)
    requires |c| > (if secure then 13 else 12) && c[..4] == "GOTO" && c[4] == ' '
    requires if secure then c[5..13] == "https://" else c[5..12] == "http://"
    requires forall j :: 5 <= j < |c| ==> !IsSpace(c[j])
    ensures NavigateAngle(c).None? && NavigatePlain(c).None?
    ensures NavigateUrl(c) == Some(Navigate(Strip(c[5..])))
  {
    WordAtSlice(c, 0, "GOTO");
    assert !IsSpace(c[5]);
    assert Ws(c, 4) == 5;
    UrlScheme(c, secure);
    RunToEnd(c, if secure then 13 else 12, NotSpace);
    assert c[5..|c|] == c[5..];
  }

  /** The scheme `http://` or `https://` written from `c[5]` on. */
  lemma UrlScheme(c: string, secure: bool)
    requires |c| > (if secure then 13 else 12)
    requires if secure then c[5..13] == "https://" else c[5..12] == "http://"
    ensures WordAt(c, 5, "http") == Some(9)
    ensures WordAt(c, 9, "s") == (if secure then Some(10) else None)
    ensures WordAt(c, if secure then 10 else 9, "://") == Some(if secure then 13 else 12)
  {
    if secure {
      SubSlice(c, 5, 13, 0, 4);
      SubSlice(c, 5, 13, 4, 5);
      SubSlice(c, 5, 13, 5, 8);
      WordAtSlice(c, 5, "http");
      WordAtSlice(c, 9, "s");
      WordAtSlice(c, 10, "://");
    } else {
      SubSlice(c, 5, 12, 0, 4);
      SubSlice(c, 5, 12, 4, 7);
      assert c[9] == c[5..12][4];
      WordAtSlice(c, 5, "http");
      NotCiAtAt(c, 9, "s", 0);
      WordAtSlice(c, 9, "://");
    }
  }

  /** The line `GOTO u`, for a URL with no whitespace, navigates to `u`. */
  lemma ParseGotoUrl(c: string, u: string)
    requires c == "GOTO " + u
    requires (|u| > 7 && u[..7] == "http://") || (|u| > 8 && u[..8] == "https://")
    requires forall j :: 0 <= j < |u| ==> !IsSpace(u[j])
    ensures ParseCommandLine(c) == Some(Navigate(u))
  {
    var secure := |u| > 8 && u[..8] == "https://";
    assert c[..4] == "GOTO" && c[4] == ' ' && c[5..] == u;
    if secure {
      assert c[5..13] == u[..8];
    } else {
      assert c[5..12] == u[..7];
    }
    assert forall j :: 5 <= j < |c| ==> c[j] == u[j - 5];
    NavigateUrlOf(c, secure);
    StripNoop(u);
  }

  /** Both lists of navigation verbs find `NAVIGATE` at the start of a line. */
  lemma NavigateWord(c: string)
    requires |c| > 8 && c[..8] == "NAVIGATE"
    ensures FirstWord(c, 0, ["GOTO", "GO TO", "NAVIGATE"]) == Some(8)
    ensures FirstWord(c, 0, ["NAVIGATE", "GOTO"]) == Some(8)
  {
    WordAtSlice(c, 0, "NAVIGATE");
    NoWordAt(c, "GOTO");
    NoWordAt(c, "GO TO");
    var ws := ["GOTO", "GO TO", "NAVIGATE"];
    assert ws[1..] == ["GO TO", "NAVIGATE"] && ws[1..][1..] == ["NAVIGATE"];
    assert FirstWord(c, 0, ["NAVIGATE"]) == Some(8);
    assert FirstWord(c, 0, ["GO TO", "NAVIGATE"]) == Some(8);
  }

  /** `NAVIGATE: u` fails the bracket and plain-URL forms and matches the colon form. */
  lemma NavigateColonOf(c: string)
    requires ColonForm(c, "NAVIGATE", 10)
    ensures NavigateAngle(c).None? && NavigatePlain(c).None? && NavigateUrl(c).None?
    ensures NavigateColon(c) == Some(Navigate(Strip(c[10..])))
  {
    NavigateWord(c);
    assert Ws(c, 8) == 8;
    NotCiAtAt(c, 8, "http", 0);
    DotRestAfterSpace(c, 9);
  }

  /** The line `NAVIGATE: u` navigates to `u`. */
  lemma ParseNavigateColon(c: string)
    requires ColonForm(c, "NAVIGATE", 10)
    ensures ParseCommandLine(c) == Some(Navigate(c[10..]))
  {
    NavigateColonOf(c);
    StripNoop(c);
    StripNoop(c[10..]);
    NavigateSlot();
    Slots();
    NoneThrough(Patterns, c, 0);
    NoneThrough(Patterns, c, 1);
    NoneThrough(Patterns, c, 2);
    ParseAt(c, 3);
  }

  /** The line `NAVIGATE: u` navigates to `u` exactly. */
  lemma ParseNavigatePlain(c: string, u: string)
    requires c == "NAVIGATE: " + u
    requires u != [] && !IsSpace(u[0]) && !IsSpace(u[|u| - 1]) && forall j :: 0 <= j < |u| ==> u[j] != '\n'
    ensures ParseCommandLine(c) == Some(Navigate(u))
  {
    assert c[..8] == "NAVIGATE" && c[10..] == u && c[10] == u[0];
    assert forall j :: 10 <= j < |c| ==> c[j] == u[j - 10];
    assert ColonForm(c, "NAVIGATE", 10);
    ParseNavigateColon(c);
  }

  /** The second bracket of `TYPE [t][x]`, from the `]` that closes the first. */
  lemma TypeSecondOf(c: string, p: nat)
    requires p + 3 < |c| && c[p] == ']' && c[p + 1] == '[' && c[|c| - 1] == ']'
    requires !IsSpace(c[p + 2]) && LowerChar(c[p + 2]) != 't'
    requires forall j :: p + 2 <= j < |c| - 1 ==> c[j] != ']'
    ensures TypeSecond(c, p) == Some(c[p + 2..|c| - 1])
  {
    assert Ws(c, p) == p;
    assert Ws(c, p + 1) == p + 1;
    assert Ws(c, p + 2) == p + 2;
    NotCiAtAt(c, p + 2, "TEXT", 0);
    GreedyToClose(c, p + 2);
    var g := (g: nat) => Span(c, g, Greedy(c, g, NotClose, CloseEndK(c)));
    var ot := (q: nat) => OptionalText(c, q, g);
    assert ot(p + 2) == Some(c[p + 2..|c| - 1]);
    assert TryDown(p + 2, p + 2, ot) == Some((p + 2, c[p + 2..|c| - 1]));
  }

  /** `TYPE [t][x]`: the first group runs up to the first `]`, the second to the last. */
  lemma TypeBracketOf(c: string, p: nat)
    requires 6 < p && p + 3 < |c| && c[..4] == "TYPE" && c[4] == ' ' && c[5] == '['
    requires !IsSpace(c[6]) && forall j :: 6 <= j < p ==> c[j] != ']'
    requires c[p] == ']' && c[p + 1] == '[' && c[|c| - 1] == ']'
    requires !IsSpace(c[p + 2]) && LowerChar(c[p + 2]) != 't'
    requires forall j :: p + 2 <= j < |c| - 1 ==> c[j] != ']'
    ensures TypeBracket(c) == Some(TypeInto(Strip(c[6..p]), Strip(c[p + 2..|c| - 1])))
  {
    WordAtSlice(c, 0, "TYPE");
    assert Ws(c, 4) == 5;
    assert Ws(c, 6) == 6;
    TypeSecondOf(c, p);
    RunUntil(c, 6, NotClose, p);
    var ts := (q: nat) => TypeSecond(c, q);
    assert TryDown(7, p, ts) == Some((p, c[p + 2..|c| - 1]));
    var k := (g: nat) => TypeFirst(c, g, Greedy(c, g, NotClose, ts));
    assert k(6) == Some((c[6..p], c[p + 2..|c| - 1]));
    assert TryDown(6, 6, k) == Some((6, (c[6..p], c[p + 2..|c| - 1])));
  }

  lemma ParseTypeBracketAt(c: string, p: nat)
    requires 6 < p && p + 3 < |c| && c[..4] == "TYPE" && c[4] == ' ' && c[5] == '['
    requires !IsSpace(c[6]) && forall j :: 6 <= j < p ==> c[j] != ']'
    requires c[p] == ']' && c[p + 1] == '[' && c[|c| - 1] == ']'
    requires !IsSpace(c[p + 2]) && LowerChar(c[p + 2]) != 't'
    requires forall j :: p + 2 <= j < |c| - 1 ==> c[j] != ']'
    ensures ParseCommandLine(c) == Some(TypeInto(Strip(c[6..p]), Strip(c[p + 2..|c| - 1])))
  {
    TypeBracketOf(c, p);
    assert c[0] == c[..4][0];
    StripNoop(c);
    Slots();
    TypeSlot();
    ParseAfterInitials(c, 7, 't');
  }

  /** The line `TYPE [t][x]` types `x` into `t`, by agentq id when `t` is written `ID=y`. */
  lemma ParseTypeBracket(c: string, t: string, x: string)
    requires c == "TYPE [" + t + "][" + x + "]"
    requires t != [] && !IsSpace(t[0]) && !IsSpace(t[|t| - 1]) && forall j :: 0 <= j < |t| ==> t[j] != ']'
    requires x != [] && !IsSpace(x[0]) && !IsSpace(x[|x| - 1]) && forall j :: 0 <= j < |x| ==> x[j] != ']'
    requires LowerChar(x[0]) != 't'
    ensures ParseCommandLine(c) == Some(TypeInto(t, x))
  {
    var p := 6 + |t|;
    assert c[..4] == "TYPE" && c[4] == ' ' && c[5] == '[';
    assert c[6..p] == t && c[p] == ']' && c[p + 1] == '[' && c[p + 2..|c| - 1] == x;
    assert forall j :: 6 <= j < p ==> c[j] == t[j - 6];
    assert forall j :: p + 2 <= j < |c| - 1 ==> c[j] == x[j - p - 2];
    ParseTypeBracketAt(c, p);
    StripNoop(t);
    StripNoop(x);
  }

  /** `PipeRest` does not match inside a target with no `|` whose last character is not a
      space. */
  lemma NoPipeInside(c: string, j: nat, e: nat)
    requires j < e <= |c| && !IsSpace(c[e - 1])
    requires forall i :: j <= i < e ==> c[i] != '|'
    ensures PipeRest(c, j).None?
  {
    var q := Ws(c, j);
    assert q < e;
    NotCiAtAt(c, q, "||", 0);
  }

  /** `TYPE: t || x`: the lazy target stops at the first `||`. */
  lemma TypeColonOf(c: string, p: nat)
    requires 6 < p && p + 4 < |c| && c[..4] == "TYPE" && c[4] == ':' && c[5] == ' '
    requires !IsSpace(c[6]) && !IsSpace(c[p - 1]) && forall j :: 6 <= j < p ==> c[j] != '|' && c[j] != '\n'
    requires c[p] == ' ' && c[p + 1..p + 3] == "||" && c[p + 3] == ' ' && !IsSpace(c[p + 4])
    requires forall j :: p + 4 <= j < |c| ==> c[j] != '\n'
    ensures TypeBracket(c).None?
    ensures TypeColon(c) == Some(TypeInto(Strip(c[6..p]), Strip(c[p + 4..])))
  {
    WordAtSlice(c, 0, "TYPE");
    assert Ws(c, 4) == 4;
    assert Ws(c, 5) == 6;
    var pr := (q: nat) => PipeRest(c, q);
    TypeTargetLazy(c, p);
    var k := (g: nat) => TypeFirst(c, g, Lazy(c, g, IsDot, pr));
    assert k(6) == Some((c[6..p], c[p + 4..]));
    assert TryDown(5, 6, k) == Some((6, (c[6..p], c[p + 4..])));
  }

  lemma ParseTypeColonAt(c: string, p: nat)
    requires 6 < p && p + 4 < |c| && c[..4] == "TYPE" && c[4] == ':' && c[5] == ' '
    requires !IsSpace(c[6]) && !IsSpace(c[p - 1]) && forall j :: 6 <= j < p ==> c[j] != '|' && c[j] != '\n'
    requires c[p] == ' ' && c[p + 1..p + 3] == "||" && c[p + 3] == ' ' && !IsSpace(c[p + 4])
    requires forall j :: p + 4 <= j < |c| ==> c[j] != '\n'
    requires !IsSpace(c[|c| - 1])
    ensures ParseCommandLine(c) == Some(TypeInto(Strip(c[6..p]), Strip(c[p + 4..])))
  {
    TypeColonOf(c, p);
    assert c[0] == c[..4][0];
    StripNoop(c);
    Slots();
    TypeSlot();
    InitialsBefore(c, 7);
    NoneThrough(Patterns, c, 7);
    ParseAt(c, 8);
  }

  /** The line `TYPE: t || x` types `x` into `t`, by agentq id when `t` is written `ID=y`. */
  lemma ParseTypeColon(c: string, t: string, x: string)
    requires c == "TYPE: " + t + " || " + x
    requires t != [] && !IsSpace(t[0]) && !IsSpace(t[|t| - 1])
    requires forall j :: 0 <= j < |t| ==> t[j] != '|' && t[j] != '\n'
    requires x != [] && !IsSpace(x[0]) && !IsSpace(x[|x| - 1]) && forall j :: 0 <= j < |x| ==> x[j] != '\n'
    ensures ParseCommandLine(c) == Some(TypeInto(t, x))
  {
    var p := 6 + |t|;
    assert c[..4] == "TYPE" && c[4] == ':' && c[5] == ' ';
    assert c[6..p] == t && c[p] == ' ' && c[p + 1..p + 3] == "||" && c[p + 3] == ' ' && c[p + 4..] == x;
    assert forall j :: 6 <= j < p ==> c[j] == t[j - 6];
    assert forall j :: p + 4 <= j < |c| ==> c[j] == x[j - p - 4];
    ParseTypeColonAt(c, p);
    StripNoop(t);
    StripNoop(x);
  }

  /** The lazy target group of `TYPE: target || text` ends at the first ` || `. */
  lemma TypeTargetLazy(c: string, p: nat)
    requires 6 < p && p + 4 < |c|
    requires !IsSpace(c[p - 1]) && forall j :: 6 <= j < p ==> c[j] != '|' && c[j] != '\n'
    requires c[p] == ' ' && c[p + 1..p + 3] == "||" && c[p + 3] == ' ' && !IsSpace(c[p + 4])
    requires forall j :: p + 4 <= j < |c| ==> c[j] != '\n'
    ensures Lazy(c, 6, IsDot, (q: nat) => PipeRest(c, q)) == Some((p, c[p + 4..]))
  {
    assert c[p + 1] == c[p + 1..p + 3][0];
    assert Ws(c, p) == p + 1;
    WordAtSlice(c, p + 1, "||");
    DotRestAfterSpace(c, p + 3);
    var pr := (q: nat) => PipeRest(c, q);
    assert pr(p) == Some(c[p + 4..]);
    forall j | 7 <= j < p ensures IsDot(c[j]) && pr(j).None? {
      NoPipeInside(c, j, p);
    }
    TryUpFirst(c, 7, IsDot, pr, p);
  }

  /** A slice of a slice is a slice of the whole. */
  lemma SubSlice(s: string, a: nat, b: nat, i: nat, j: nat)
    requires a <= b <= |s| && i <= j <= b - a
    ensures s[a..b][i..j] == s[a + i..a + j]
  {
    var u, v := s[a..b][i..j], s[a + i..a + j];
    assert |u| == |v|;
    forall k | 0 <= k < |u| ensures u[k] == v[k] {
      assert u[k] == s[a..b][i + k] == s[a + i + k];
    }
  }

  /** `VERB [ID=x]` for SUBMIT and CLEAR, the head being the verb and ` [ID=`. */
  lemma ByIdOf(c: string, verb: string)
    requires |verb| + 6 < |c| && c[..|verb|] == verb && c[|verb|..|verb| + 5] == " [ID="
    requires !IsSpace(c[|verb| + 5]) && c[|c| - 1] == ']'
    requires forall j :: |verb| + 5 <= j < |c| - 1 ==> c[j] != ']'
    ensures ById(c, verb) == Some(Command(verb, Some(Strip(c[|verb| + 5..|c| - 1])), None, Some(AgentqId)))
  {
    ByIdHead(c, verb);
    BracketRestWhole(c, |verb| + 5);
  }

  /** The literal part `VERB [ID=` of such a line. */
  lemma ByIdHead(c: string, verb: string)
    requires |verb| + 5 <= |c| && c[..|verb|] == verb && c[|verb|..|verb| + 5] == " [ID="
    ensures WordAt(c, 0, verb) == Some(|verb|) && WsChar(c, |verb|, '[') == Some(|verb| + 2)
    ensures WsWord(c, |verb| + 2, "ID") == Some(|verb| + 4) && WsChar(c, |verb| + 4, '=') == Some(|verb| + 5)
  {
    var n := |verb|;
    WordAtSlice(c, 0, verb);
    var h := c[n..n + 5];
    SubSlice(c, n, n + 5, 2, 4);
    assert c[n] == h[0] && c[n + 1] == h[1] && c[n + 4] == h[4];
    assert Ws(c, n) == n + 1;
    assert Ws(c, n + 2) == n + 2;
    WordAtSlice(c, n + 2, "ID");
    assert Ws(c, n + 4) == n + 4;
  }

  lemma ParseSubmitAt(c: string)
    requires 12 < |c| && c[..6] == "SUBMIT" && c[6..11] == " [ID="
    requires !IsSpace(c[11]) && c[|c| - 1] == ']'
    requires forall j :: 11 <= j < |c| - 1 ==> c[j] != ']'
    ensures ParseCommandLine(c) == Some(Command("SUBMIT", Some(Strip(c[11..|c| - 1])), None, Some(AgentqId)))
  {
    ByIdOf(c, "SUBMIT");
    SubmitLine(c);
    SubmitWins(c);
  }

  /** What the patterns ahead of the submit form see in a stripped line starting `SUBMIT`. */
  lemma SubmitLine(c: string)
    requires 6 < |c| && c[..6] == "SUBMIT" && c[|c| - 1] == ']'
    ensures c != [] && Strip(c) == c && LowerChar(c[0]) == 's' && Search(c).None?
  {
    assert c[0] == c[..6][0] && c[1] == c[..6][1];
    StripNoop(c);
    NotCiAtAt(c, 0, "SEARCH", 1);
  }

  /** The line `SUBMIT [ID=x]` submits the element whose agentq id is `x`. */
  lemma ParseSubmit(c: string, x: string)
    requires c == "SUBMIT [ID=" + x + "]"
    requires x != [] && !IsSpace(x[0]) && !IsSpace(x[|x| - 1]) && forall j :: 0 <= j < |x| ==> x[j] != ']'
    ensures ParseCommandLine(c) == Some(Command("SUBMIT", Some(x), None, Some(AgentqId)))
  {
    assert c[..6] == "SUBMIT" && c[6..11] == " [ID=" && c[11..|c| - 1] == x;
    assert forall j :: 11 <= j < |c| - 1 ==> c[j] == x[j - 11];
    ParseSubmitAt(c);
    StripNoop(x);
  }

  lemma ParseClearAt(c: string)
    requires 11 < |c| && c[..5] == "CLEAR" && c[5..10] == " [ID="
    requires !IsSpace(c[10]) && c[|c| - 1] == ']'
    requires forall j :: 10 <= j < |c| - 1 ==> c[j] != ']'
    ensures ParseCommandLine(c) == Some(Command("CLEAR", Some(Strip(c[10..|c| - 1])), None, Some(AgentqId)))
  {
    ByIdOf(c, "CLEAR");
    ClearLine(c);
    ClearWins(c);
  }

  /** What the patterns ahead of the clear form see in a stripped line starting `CLEAR`. */
  lemma ClearLine(c: string)
    requires 5 < |c| && c[..5] == "CLEAR" && c[|c| - 1] == ']'
    ensures c != [] && Strip(c) == c && LowerChar(c[0]) == 'c'
    ensures ClickBracket(c).None? && ClickColon(c).None?
  {
    assert c[0] == c[..5][0] && c[2] == c[..5][2];
    StripNoop(c);
    NotCiAtAt(c, 0, "CLICK", 2);
  }

  /** The line `CLEAR [ID=x]` clears the element whose agentq id is `x`. */
  lemma ParseClear(c: string, x: string)
    requires c == "CLEAR [ID=" + x + "]"
    requires x != [] && !IsSpace(x[0]) && !IsSpace(x[|x| - 1]) && forall j :: 0 <= j < |x| ==> x[j] != ']'
    ensures ParseCommandLine(c) == Some(Command("CLEAR", Some(x), None, Some(AgentqId)))
  {
    assert c[..5] == "CLEAR" && c[5..10] == " [ID=" && c[10..|c| - 1] == x;
    assert forall j :: 10 <= j < |c| - 1 ==> c[j] == x[j - 10];
    ParseClearAt(c);
    StripNoop(x);
  }

  /** `WAIT [SECONDS=n]` fails the colon form and matches the bracket form. */
  lemma WaitBracketOf(c: string)
    requires |c| > 15 && c[..14] == "WAIT [SECONDS=" && c[|c| - 1] == ']'
    requires forall j :: 14 <= j < |c| - 1 ==> IsDigit(c[j])
    ensures WaitColon(c).None?
    ensures WaitBracket(c) == Some(Command("WAIT", None, Some(c[14..|c| - 1]), None))
  {
    WaitHead(c);
    assert Ws(c, 14) == 14;
    RunUntil(c, 14, IsDigit, |c| - 1);
    assert Ws(c, |c| - 1) == |c| - 1;
    assert CloseEndK(c)(|c| - 1) == Some(());
  }

  lemma WaitChars(c: string)
    requires |c| > 15 && c[..14] == "WAIT [SECONDS="
    ensures c[..4] == "WAIT" && c[4] == ' ' && c[5] == '[' && c[6..13] == "SECONDS" && c[6] == 'S'
    ensures c[13] == '='
  {
    var h := c[..14];
    assert c[..4] == h[..4] && c[6..13] == h[6..13];
    assert c[4] == h[4] && c[5] == h[5] && c[6] == h[6] && c[13] == h[13];
  }

  /** The literal part of `WAIT [SECONDS=`. */
  lemma WaitHead(c: string)
    requires |c| > 15 && c[..14] == "WAIT [SECONDS="
    ensures WordAt(c, 0, "WAIT") == Some(4) && WsChar(c, 4, ':').None? && WsChar(c, 4, '[') == Some(6)
    ensures WsWord(c, 6, "SECONDS") == Some(13) && WsChar(c, 13, '=') == Some(14)
  {
    WaitChars(c);
    WordAtSlice(c, 0, "WAIT");
    assert Ws(c, 4) == 5;
    assert Ws(c, 6) == 6;
    WordAtSlice(c, 6, "SECONDS");
    assert Ws(c, 13) == 13;
  }

  /** The line `WAIT [SECONDS=n]` waits `n` seconds, the number written as it came. */
  lemma ParseWaitBracket(c: string, n: nat)
    requires c == "WAIT [SECONDS=" + NatToString(n) + "]"
    ensures ParseCommandLine(c) == Some(Command("WAIT", None, Some(NatToString(n)), None))
  {
    var d := NatToString(n);
    assert c[..14] == "WAIT [SECONDS=" && c[14..|c| - 1] == d;
    assert forall j :: 14 <= j < |c| - 1 ==> c[j] == d[j - 14];
    WaitBracketOf(c);
    StripNoop(c);
    WaitSlot();
    Slots();
    InitialsBefore(c, 15);
    NoneThrough(Patterns, c, 15);
    ParseAt(c, 16);
  }

  lemma AskChars(c: string)
    requires |c| > 20 && c[..20] == "ASK USER HELP [TEXT="
    ensures c[..3] == "ASK" && c[3] == ' ' && c[4..8] == "USER" && c[8] == ' ' && c[9..13] == "HELP"
    ensures c[13] == ' ' && c[14] == '[' && c[15..19] == "TEXT" && c[19] == '='
    ensures c[4] == 'U' && c[9] == 'H' && c[15] == 'T'
  {
    var h := c[..20];
    assert c[..3] == h[..3] && c[4..8] == h[4..8] && c[9..13] == h[9..13] && c[15..19] == h[15..19];
    assert c[3] == h[3] && c[8] == h[8] && c[13] == h[13] && c[14] == h[14] && c[19] == h[19];
    assert c[4] == h[4] && c[9] == h[9] && c[15] == h[15];
  }

  /** The literal part of `ASK USER HELP [TEXT=`. */
  lemma AskHead(c: string)
    requires |c| > 20 && c[..20] == "ASK USER HELP [TEXT="
    ensures WordAt(c, 0, "ASK") == Some(3) && WsWord(c, 3, "USER") == Some(8)
    ensures WsWord(c, 8, "HELP") == Some(13) && WsChar(c, 13, '[') == Some(15)
    ensures WsWord(c, 15, "TEXT") == Some(19) && WsChar(c, 19, '=') == Some(20)
  {
    AskChars(c);
    WordAtSlice(c, 0, "ASK");
    assert Ws(c, 3) == 4;
    WordAtSlice(c, 4, "USER");
    assert Ws(c, 8) == 9;
    WordAtSlice(c, 9, "HELP");
    assert Ws(c, 13) == 14;
    assert Ws(c, 15) == 15;
    WordAtSlice(c, 15, "TEXT");
    assert Ws(c, 19) == 19;
  }

  lemma ParseAskUserHelpAt(c: string)
    requires |c| > 21 && c[..20] == "ASK USER HELP [TEXT=" && c[|c| - 1] == ']'
    requires !IsSpace(c[20]) && !IsSpace(c[|c| - 2])
    requires forall j :: 20 <= j < |c| - 1 ==> c[j] != ']' && c[j] != '\n'
    ensures ParseCommandLine(c) == Some(Command("ASK_USER_HELP", None, Some(Strip(c[20..|c| - 1])), None))
  {
    AskLine(c);
    Slots();
    AskSlot();
    ParseAfterInitials(c, 17, 'a');
  }

  /** The ask-for-help form reads such a line whole. */
  lemma AskLine(c: string)
    requires |c| > 21 && c[..20] == "ASK USER HELP [TEXT=" && c[|c| - 1] == ']'
    requires !IsSpace(c[20]) && !IsSpace(c[|c| - 2])
    requires forall j :: 20 <= j < |c| - 1 ==> c[j] != ']' && c[j] != '\n'
    ensures c != [] && Strip(c) == c && LowerChar(c[0]) == 'a'
    ensures AskUserHelp(c) == Some(Command("ASK_USER_HELP", None, Some(Strip(c[20..|c| - 1])), None))
  {
    AskHead(c);
    assert Ws(c, 20) == 20;
    LazyToClose(c, 20, IsDot, true);
    var k := (g: nat) => Span(c, g, Lazy(c, g, IsDot, CloseEndK(c)));
    assert k(20) == Some(c[20..|c| - 1]);
    assert TryDown(20, 20, k) == Some((20, c[20..|c| - 1]));
    assert c[0] == c[..20][0];
    StripNoop(c);
  }

  /** The line `ASK USER HELP [TEXT=x]` asks the user `x`, for a question with no `]`. */
  lemma ParseAskUserHelp(c: string, x: string)
    requires c == "ASK USER HELP [TEXT=" + x + "]"
    requires x != [] && !IsSpace(x[0]) && !IsSpace(x[|x| - 1])
    requires forall j :: 0 <= j < |x| ==> x[j] != ']' && x[j] != '\n'
    ensures ParseCommandLine(c) == Some(Command("ASK_USER_HELP", None, Some(x), None))
  {
    assert c[..20] == "ASK USER HELP [TEXT=" && c[20..|c| - 1] == x && c[|c| - 2] == x[|x| - 1];
    assert forall j :: 20 <= j < |c| - 1 ==> c[j] == x[j - 20];
    ParseAskUserHelpAt(c);
    StripNoop(x);
  }

  lemma ScreenshotChars(c: string)
    requires |c| > 17 && c[..17] == "SCREENSHOT [PATH="
    ensures c[..10] == "SCREENSHOT" && c[10] == ' ' && c[11] == '[' && c[12..16] == "PATH" && c[16] == '='
    ensures c[0] == 'S' && c[1] == 'C' && c[3] == 'E' && c[12] == 'P'
  {
    var h := c[..17];
    assert c[..10] == h[..10] && c[12..16] == h[12..16];
    assert c[10] == h[10] && c[11] == h[11] && c[16] == h[16];
    assert c[0] == h[0] && c[1] == h[1] && c[3] == h[3] && c[12] == h[12];
  }

  /** A line that starts `SC?E` is not a search, submit or scroll line. */
  lemma NotSearchSubmitScroll(c: string)
    requires |c| > 3 && c[1] == 'C' && c[3] == 'E'
    ensures !CiAt(c, 0, "SEARCH") && !CiAt(c, 0, "SUBMIT") && !CiAt(c, 0, "SCROLL")
  {
    NotCiAtAt(c, 0, "SEARCH", 1);
    NotCiAtAt(c, 0, "SUBMIT", 1);
    NotCiAtAt(c, 0, "SCROLL", 3);
  }

  /** The literal part of `SCREENSHOT [PATH=`. */
  lemma ScreenshotHead(c: string)
    requires |c| > 17 && c[..17] == "SCREENSHOT [PATH="
    ensures WordAt(c, 0, "SCREENSHOT") == Some(10) && WsChar(c, 10, '[') == Some(12)
    ensures WsWord(c, 12, "PATH") == Some(16) && WsChar(c, 16, '=') == Some(17)
  {
    ScreenshotChars(c);
    WordAtSlice(c, 0, "SCREENSHOT");
    assert Ws(c, 10) == 11;
    assert Ws(c, 12) == 12;
    WordAtSlice(c, 12, "PATH");
    assert Ws(c, 16) == 16;
  }

  lemma ParseScreenshotPathAt(c: string)
    requires |c| > 18 && c[..17] == "SCREENSHOT [PATH=" && c[|c| - 1] == ']'
    requires !IsSpace(c[17]) && forall j :: 17 <= j < |c| - 1 ==> c[j] != ']'
    ensures ParseCommandLine(c) == Some(Command("SCREENSHOT", Some(Strip(c[17..|c| - 1])), None, None))
  {
    ScreenshotLine(c);
    ScreenshotWins(c);
  }

  /** What the patterns ahead of the screenshot form see in such a line. */
  lemma ScreenshotLine(c: string)
    requires |c| > 18 && c[..17] == "SCREENSHOT [PATH=" && c[|c| - 1] == ']'
    requires !IsSpace(c[17]) && forall j :: 17 <= j < |c| - 1 ==> c[j] != ']'
    ensures c != [] && Strip(c) == c && LowerChar(c[0]) == 's'
    ensures Search(c).None? && Submit(c).None? && ScrollBracket(c).None? && ScrollColon(c).None?
    ensures Screenshot(c) == Some(Command("SCREENSHOT", Some(Strip(c[17..|c| - 1])), None, None))
  {
    ScreenshotHead(c);
    BracketRestWhole(c, 17);
    ScreenshotChars(c);
    StripNoop(c);
    NotSearchSubmitScroll(c);
  }

  /** The line `SCREENSHOT [PATH=p]` saves the screenshot at `p`. */
  lemma ParseScreenshotPath(c: string, path: string)
    requires c == "SCREENSHOT [PATH=" + path + "]"
    requires path != [] && !IsSpace(path[0]) && !IsSpace(path[|path| - 1])
    requires forall j :: 0 <= j < |path| ==> path[j] != ']'
    ensures ParseCommandLine(c) == Some(Command("SCREENSHOT", Some(path), None, None))
  {
    assert c[..17] == "SCREENSHOT [PATH=" && c[17..|c| - 1] == path;
    assert forall j :: 17 <= j < |c| - 1 ==> c[j] == path[j - 17];
    ParseScreenshotPathAt(c);
    StripNoop(path);
  }

  /** `SEARCH [q]`: the lazy query stops at the line's final `]`. */
  lemma SearchBracketOf(c: string)
    requires |c| > 9 && c[..6] == "SEARCH" && c[6] == ' ' && c[7] == '[' && c[|c| - 1] == ']'
    requires !IsSpace(c[8]) && LowerChar(c[8]) != 't' && !IsSpace(c[|c| - 2])
    requires forall j :: 8 <= j < |c| - 1 ==> c[j] != ']'
    ensures SearchGroup(c) == Some(c[8..|c| - 1])
  {
    WordAtSlice(c, 0, "SEARCH");
    assert Ws(c, 6) == 7;
    assert Ws(c, 8) == 8;
    NotCiAtAt(c, 8, "TEXT", 0);
    LazyToClose(c, 8, NotClose, false);
    var g := (g: nat) => Span(c, g, Lazy(c, g, NotClose, CloseK(c)));
    var ot := (q: nat) => OptionalText(c, q, g);
    assert ot(8) == Some(c[8..|c| - 1]);
    assert TryDown(8, 8, ot) == Some((8, c[8..|c| - 1]));
  }

  lemma ParseSearchBracketAt(c: string)
    requires |c| > 9 && c[..6] == "SEARCH" && c[6] == ' ' && c[7] == '[' && c[|c| - 1] == ']'
    requires !IsSpace(c[8]) && LowerChar(c[8]) != 't' && !IsSpace(c[|c| - 2])
    requires forall j :: 8 <= j < |c| - 1 ==> c[j] != ']'
    ensures ParseCommandLine(c) == Some(Command("SEARCH", None, Some(CleanQuery(Strip(c[8..|c| - 1]))), None))
  {
    SearchBracketOf(c);
    assert c[0] == c[..6][0];
    StripNoop(c);
    SearchSlot();
    ParseAfterInitials(c, 4, 's');
  }

  /** The line `SEARCH [q]` searches for a plain query `q` exactly. */
  lemma ParseSearchBracket(c: string, q: string)
    requires c == "SEARCH [" + q + "]"
    requires PlainQuery(q) && LowerChar(q[0]) != 't' && forall j :: 0 <= j < |q| ==> q[j] != ']'
    ensures ParseCommandLine(c) == Some(Command("SEARCH", None, Some(q), None))
  {
    assert c[..6] == "SEARCH" && c[6] == ' ' && c[7] == '[' && c[8..|c| - 1] == q;
    assert c[8] == q[0] && c[|c| - 2] == q[|q| - 1];
    assert forall j :: 8 <= j < |c| - 1 ==> c[j] == q[j - 8];
    ParseSearchBracketAt(c);
    StripNoop(q);
    CleanQueryPlain(q);
  }
}
