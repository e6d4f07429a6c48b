/**
 * The inference-time tree search agent (InferenceTimeTreeSearch/nodes.py): a best-first
 * frontier of WebShop states, an LLM value function, a goal test, the LLM action parser,
 * majority voting over sampled actions, one frontier expansion and the stopping rule.
 *
 * The LLM and the WebShop server are oracles: `sample(i)` is the i-th response of one
 * prompt, `env(node, action)` the page the server returns.
 */
module TreeSearch {
  import opened Wrappers
  import opened Text
  import opened Seqs

  datatype Product = Product(id: string, title: string, price: real)

  /** A WebShop page as the client parses it; `clickables` are the keys of the clickable map. */
  datatype Observation = Observation(
    query: Option<string>,
    results: seq<Product>,
    cart: seq<Product>,
    clickables: seq<string>)

  datatype ActType = Search | Choose

  datatype Action = Action(kind: ActType, parameter: string)

  /** A search-tree node: the keys of the copied state dict that the nodes read. */
  datatype Node = Node(
    goal: string,
    branching: nat,
    observation: Option<Observation>,
    actionHistory: seq<string>)

  function KindName(k: ActType): string {
    match k
    case Search => "search"
    case Choose => "choose"
  }

  /** `str(action)`, e.g. `search('red shoes')`. */
  function ActionString(a: Action): string {
    KindName(a.kind) + "('" + a.parameter + "')"
  }

  /** Distinct actions never share a history entry. */
  lemma ActionStringInjective(a: Action, b: Action)
    requires ActionString(a) == ActionString(b)
    ensures a == b
  {
    var s, t := ActionString(a), ActionString(b);
    assert s[0] == t[0];
    assert a.kind == b.kind;
    var n := |KindName(a.kind)| + 2;
    assert a.parameter == s[n..|s| - 2];
    assert b.parameter == t[n..|t| - 2];
  }

  // ---------------------------------------------------------------- Frontier

  /** A heap entry: priority is the negated score, and only the priority is compared. */
  datatype PrioritizedItem = PrioritizedItem(priority: real, state: Node)

  /** Index of the first entry of least priority (the highest score). */
  function BestIndex(h: seq<PrioritizedItem>): (k: nat)
    requires h != []
    ensures k < |h|
    ensures forall j :: 0 <= j < |h| ==> h[k].priority <= h[j].priority
    ensures forall j :: 0 <= j < k ==> h[k].priority < h[j].priority
  {
    if |h| == 1 then 0
    else
      var k := BestIndex(h[1..]);
      if h[0].priority <= h[1..][k].priority then 0 else k + 1
  }

  /** The best-first priority queue (`Frontier`), a min-heap of negated scores. */
  class Frontier {
    var heap: seq<PrioritizedItem>

    constructor ()
      ensures heap == []
    {
      heap := [];
    }

    /** `push(score, state)`. */
    method Push(score: real, state: Node)
      modifies this
      ensures heap == old(heap) + [PrioritizedItem(-score, state)]
    {
      heap := heap + [PrioritizedItem(-score, state)];
    }

    /** `__len__` */
    function Len(): (n: nat)
      reads this
      ensures n == |heap|
    {
      |heap|
    }

    predicate IsEmpty()
      reads this
    {
      |heap| == 0
    }

    /** `pop()`: removes the entry `BestIndex` picks and returns its state with the
        original score; on an empty heap `heappop` raises IndexError, modelled as `None`. */
    method Pop() returns (r: Option<(Node, real)>)
      modifies this
      ensures old(heap) == [] ==> r.None? && heap == []
      ensures old(heap) != [] ==>
        var k := BestIndex(old(heap));
        r == Some((old(heap)[k].state, -old(heap)[k].priority)) && heap == RemoveAt(old(heap), k)
    {
      if heap == [] {
        return None;
      }
      var k := BestIndex(heap);
      var item := heap[k];
      heap := RemoveAt(heap, k);
      r := Some((item.state, -item.priority));
    }
  }

  function RemoveAt(h: seq<PrioritizedItem>, k: nat): (r: seq<PrioritizedItem>)
    requires k < |h|
    ensures |r| == |h| - 1
  {
    h[..k] + h[k + 1..]
  }

  /** The popped entry has the highest score of all held entries, and exactly that one
      entry is removed. */
  lemma PopTakesBest(h: seq<PrioritizedItem>)
    requires h != []
    ensures var k := BestIndex(h);
      && (forall j :: 0 <= j < |h| ==> -h[j].priority <= -h[k].priority)
      && multiset(RemoveAt(h, k)) + multiset{h[k]} == multiset(h)
  {
    RemoveMultiset(h, BestIndex(h));
  }

  // ---------------------------------------------------------------- value function

  const ScoreLabel := "Final Score: "

  function DigitRun(s: string): (n: nat)
    ensures n <= |s|
    ensures forall i :: 0 <= i < n ==> IsDigit(s[i])
    ensures n < |s| ==> !IsDigit(s[n])
  {
    PrefixRun(s, IsDigit)
  }

  /** The number `\d+\.?\d*` read right after a label, if a digit follows it. */
  function NumberAt(t: string): Option<real> {
    var n := DigitRun(t);
    if n == 0 then None
    else
      var whole := DigitsValue(t[..n]) as real;
      if n < |t| && t[n] == '.' then
        var rest := t[n + 1..];
        Some(whole + FracValue(rest[..DigitRun(rest)]))
      else Some(whole)
  }

  /** `re.search(r"Final Score: (\d+\.?\d*)", response)` converted by `float`. */
  function ScoreFrom(response: string, from: nat): Option<real>
    decreases |response| - from
  {
    match IndexFrom(response, ScoreLabel, from)
    case None => None
    case Some(i) =>
      var v := NumberAt(response[i + |ScoreLabel|..]);
      if v.Some? then v else ScoreFrom(response, i + 1)
  }

  function Clamp01(v: real): (c: real)
    ensures 0.0 <= c <= 1.0
    ensures 0.0 <= v <= 1.0 ==> c == v
  {
    if v < 0.0 then 0.0 else if v > 1.0 then 1.0 else v
  }

  /** Clamped scores of the first `n` responses, skipping those without a score. */
  function Scores(node: Node, n: nat, llm: (Node, nat) -> string): (s: seq<real>)
    ensures |s| <= n
    ensures forall i :: 0 <= i < |s| ==> 0.0 <= s[i] <= 1.0
  {
    if n == 0 then []
    else
      var v := ScoreFrom(llm(node, n - 1), 0);
      Scores(node, n - 1, llm) + (if v.Some? then [Clamp01(v.value)] else [])
  }

  function Sum(s: seq<real>): real {
    if s == [] then 0.0 else Sum(s[..|s| - 1]) + s[|s| - 1]
  }

  lemma {:induction false} SumBounds(s: seq<real>)
    requires forall i :: 0 <= i < |s| ==> 0.0 <= s[i] <= 1.0
    ensures 0.0 <= Sum(s) <= |s| as real
  {
    if s != [] {
      SumBounds(s[..|s| - 1]);
    }
  }

  /** What `value_function` returns: 0 without an observation or without any parsed
      score, else the mean of the clamped scores. */
  function ValueOf(node: Node, llm: (Node, nat) -> string): real {
    if node.observation.None? then 0.0
    else
      var s := Scores(node, node.branching, llm);
      if s == [] then 0.0 else Sum(s) / |s| as real
  }

  /** Every value lies in [0, 1]. */
  lemma ValueInUnitRange(node: Node, llm: (Node, nat) -> string)
    ensures 0.0 <= ValueOf(node, llm) <= 1.0
  {
    var s := Scores(node, node.branching, llm);
    SumBounds(s);
    if s != [] {
      MeanBounds(Sum(s), |s| as real);
    }
  }

  lemma MeanBounds(total: real, n: real)
    requires n > 0.0 && 0.0 <= total <= n
    ensures 0.0 <= total / n <= 1.0
  {
    assert total / n * n == total;
  }

  /** `value_function`: asks for `branching` samples and averages the scores found. */
  method ValueFunction(node: Node, llm: (Node, nat) -> string) returns (v: real)
    ensures v == ValueOf(node, llm)
    ensures 0.0 <= v <= 1.0
  {
    ValueInUnitRange(node, llm);
    if node.observation.None? {
      return 0.0;
    }
    var scores: seq<real> := [];
    var i := 0;
    while i < node.branching
      invariant 0 <= i <= node.branching
      invariant scores == Scores(node, i, llm)
    {
      var m := ScoreFrom(llm(node, i), 0);
      if m.Some? {
        scores := scores + [Clamp01(m.value)];
      }
      i := i + 1;
    }
    if scores == [] {
      return 0.0;
    }
    v := Sum(scores) / |scores| as real;
  }

  // ---------------------------------------------------------------- goal test

  /** `re.findall(r"\b\w+\b|'\w+'|\$\d+|\d+gb|\d+inch", s)`, scanning from `p`. */
  function GoalTokensFrom(s: string, p: nat): (r: seq<string>)
    requires p <= |s|
    ensures forall k :: 0 <= k < |r| ==> |r[k]| > 0
    decreases |s| - p
  {
    if p == |s| then []
    else if IsWordChar(s[p]) && (p == 0 || !IsWordChar(s[p - 1])) then
      var q := RunFrom(s, p, IsWordChar);
      [s[p..q]] + GoalTokensFrom(s, q)
    else if s[p] == '\'' && RunFrom(s, p + 1, IsWordChar) > p + 1 && RunFrom(s, p + 1, IsWordChar) < |s| && s[RunFrom(s, p + 1, IsWordChar)] == '\'' then
      var q := RunFrom(s, p + 1, IsWordChar) + 1;
      [s[p..q]] + GoalTokensFrom(s, q)
    else if s[p] == '$' && RunFrom(s, p + 1, IsDigit) > p + 1 then
      var q := RunFrom(s, p + 1, IsDigit);
      [s[p..q]] + GoalTokensFrom(s, q)
    else if IsDigit(s[p]) && StartsWith(s[RunFrom(s, p, IsDigit)..], "gb") then
      var q := RunFrom(s, p, IsDigit) + 2;
      [s[p..q]] + GoalTokensFrom(s, q)
    else if IsDigit(s[p]) && StartsWith(s[RunFrom(s, p, IsDigit)..], "inch") then
      var q := RunFrom(s, p, IsDigit) + 4;
      [s[p..q]] + GoalTokensFrom(s, q)
    else GoalTokensFrom(s, p + 1)
  }

  const StopWords: seq<string> := ["find", "a", "an", "the", "under", "with", "at", "least", "of", "ram", "cheapest", "need", "pair", "brand", "buy"]

  /** The goal keywords: the tokens of the lower-cased goal that are not stop words. */
  function Keywords(goal: string): (r: seq<string>)
    ensures forall k :: 0 <= k < |r| ==> r[k] !in StopWords
  {
    var t := GoalTokensFrom(Lower(goal), 0);
    FilterOut(t)
  }

  function FilterOut(t: seq<string>): (r: seq<string>)
    ensures forall k :: 0 <= k < |r| ==> r[k] !in StopWords && r[k] in t
  {
    if t == [] then []
    else (if t[0] in StopWords then [] else [t[0]]) + FilterOut(t[1..])
  }

  /** A keyword compared with titles: not a price, not a size in gb or inch. */
  predicate PlainKeyword(k: string) {
    !StartsWith(k, "$") && !EndsWith(k, "gb") && !EndsWith(k, "inch")
  }

  predicate TitleHasKeywords(title: string, keywords: seq<string>) {
    forall k :: 0 <= k < |keywords| && PlainKeyword(keywords[k]) ==> Contains(Lower(title), keywords[k])
  }

  /** `re.search(r'\$(\d+)', s)`: the digits after the first `$` that is followed by one, from `p`. */
  function PriceLimitFrom(s: string, p: nat): (r: Option<nat>)
    requires p <= |s|
    decreases |s| - p
  {
    if p == |s| then None
    else if s[p] == '$' && RunFrom(s, p + 1, IsDigit) > p + 1 then
      Some(DigitsValue(s[p + 1..RunFrom(s, p + 1, IsDigit)]))
    else PriceLimitFrom(s, p + 1)
  }

  function PriceLimit(goal: string): Option<nat> {
    PriceLimitFrom(Lower(goal), 0)
  }

  predicate WithinLimit(p: Product, limit: Option<nat>) {
    limit.None? || p.price <= limit.value as real
  }

  predicate HasPurchaseButton(clickables: seq<string>) {
    exists i :: 0 <= i < |clickables| && Lower(clickables[i]) in ["add to cart", "buy now"]
  }

  /** First result, from `i` on, that matches the keywords and the price limit. */
  function FirstQualifying(results: seq<Product>, kws: seq<string>, limit: Option<nat>, i: nat): (r: Option<nat>)
    requires i <= |results|
    ensures r.Some? ==> i <= r.value < |results| && TitleHasKeywords(results[r.value].title, kws) && WithinLimit(results[r.value], limit)
    ensures r.None? ==> forall j :: i <= j < |results| ==> !(TitleHasKeywords(results[j].title, kws) && WithinLimit(results[j], limit))
    decreases |results| - i
  {
    if i == |results| then None
    else if TitleHasKeywords(results[i].title, kws) && WithinLimit(results[i], limit) then Some(i)
    else FirstQualifying(results, kws, limit, i + 1)
  }

  /** First cart item, from `i` on, whose title has all the keywords. */
  function FirstInCart(cart: seq<Product>, kws: seq<string>, i: nat): (r: Option<nat>)
    requires i <= |cart|
    ensures r.Some? ==> i <= r.value < |cart| && TitleHasKeywords(cart[r.value].title, kws)
    ensures r.None? ==> forall j :: i <= j < |cart| ==> !TitleHasKeywords(cart[j].title, kws)
    decreases |cart| - i
  {
    if i == |cart| then None
    else if TitleHasKeywords(cart[i].title, kws) then Some(i)
    else FirstInCart(cart, kws, i + 1)
  }

  predicate ResultReachesGoal(o: Observation, goal: string) {
    && (exists j :: 0 <= j < |o.results| && TitleHasKeywords(o.results[j].title, Keywords(goal)) && WithinLimit(o.results[j], PriceLimit(goal)))
    && HasPurchaseButton(o.clickables)
  }

  predicate CartReachesGoal(o: Observation, goal: string) {
    exists j :: 0 <= j < |o.cart| && TitleHasKeywords(o.cart[j].title, Keywords(goal))
  }

  /** `is_goal_reached`: a result matching every plain keyword and the goal's `$N` limit
      while a purchase button is offered, or a cart item matching the keywords. */
  function IsGoalReached(obs: Option<Observation>, goal: string): (r: bool)
    ensures r <==> obs.Some? && (ResultReachesGoal(obs.value, goal) || CartReachesGoal(obs.value, goal))
  {
    if obs.None? then false
    else
      var o := obs.value;
      var kws := Keywords(goal);
      (FirstQualifying(o.results, kws, PriceLimit(goal), 0).Some? && HasPurchaseButton(o.clickables))
      || FirstInCart(o.cart, kws, 0).Some?
  }

  /** A goal reached through the result list never goes through a product above the goal's price. */
  lemma GoalRespectsPriceLimit(o: Observation, goal: string)
    requires IsGoalReached(Some(o), goal)
    requires forall j :: 0 <= j < |o.cart| ==> !TitleHasKeywords(o.cart[j].title, Keywords(goal))
    requires PriceLimit(goal).Some?
    ensures exists j :: 0 <= j < |o.results| && o.results[j].price <= PriceLimit(goal).value as real
  {
  }

  // ---------------------------------------------------------------- LLM action parsing

  /** The answer phrase of the prompt's metadata (written in pieces, which the verifier
      indexes more easily than one long literal). */
  const AnswerPhrase := "In summary, " + "the next action " + "I will perform is"
  const ActionSplitter := "```"

  predicate IsQuote(c: char) { c == '\'' || c == '"' }

  /** End of the lazy `(.*?)` in `['"](.*?)['"]\]`: the first quote followed by `]`
      before any line break. */
  function CloseQuote(s: string, k: nat): (r: Option<nat>)
    ensures r.Some? ==> k <= r.value && r.value + 1 < |s| && IsQuote(s[r.value]) && s[r.value + 1] == ']'
    ensures r.Some? ==> forall j :: k <= j < r.value ==> s[j] != '\n'
    decreases |s| - k
  {
    if k + 1 >= |s| || s[k] == '\n' then None
    else if IsQuote(s[k]) && s[k + 1] == ']' then Some(k)
    else CloseQuote(s, k + 1)
  }

  /** `re.search(kw + r"\[['\"](.*?)['\"]\]", s).group(1)`, trying start positions from `i`. */
  function QuotedArg(s: string, kw: string, i: nat): (r: Option<string>)
    decreases |s| - i
  {
    if i + |kw| + 2 > |s| then None
    else
      var open := i + |kw| + 2;
      if s[i..i + |kw|] == kw && s[i + |kw|] == '[' && IsQuote(s[i + |kw| + 1]) && CloseQuote(s, open).Some? then
        Some(s[open..CloseQuote(s, open).value])
      else QuotedArg(s, kw, i + 1)
  }

  /** The action written in one block: a search wins over a choice, a stop gives none. */
  function ActionsInBlock(raw: string): (r: seq<Action>)
    ensures |r| <= 1
    ensures QuotedArg(raw, "search", 0).Some? ==> r == [Action(Search, QuotedArg(raw, "search", 0).value)]
    ensures QuotedArg(raw, "search", 0).None? && QuotedArg(raw, "choose", 0).Some? ==> r == [Action(Choose, QuotedArg(raw, "choose", 0).value)]
    ensures r == [] <==> QuotedArg(raw, "search", 0).None? && QuotedArg(raw, "choose", 0).None?
  {
    var s := QuotedArg(raw, "search", 0);
    var c := QuotedArg(raw, "choose", 0);
    if s.Some? then [Action(Search, s.value)]
    else if c.Some? then [Action(Choose, c.value)]
    else []
  }

  /** The block that `parse_llm_action` reads: the text after the last answer phrase,
      stripped, then the first fenced block if any. */
  function ActionBlock(response: string): string {
    var r := if Contains(response, AnswerPhrase) then AfterLast(response, AnswerPhrase) else response;
    var blocks := Split(Strip(r), ActionSplitter);
    if |blocks| > 1 then blocks[1] else blocks[0]
  }

  /** `parse_llm_action`. */
  function ParseLlmAction(response: string): (r: seq<Action>)
    ensures |r| <= 1
  {
    ActionsInBlock(ActionBlock(response))
  }

  lemma AnswerPhraseCapitals(d: nat)
    requires 0 < d < |AnswerPhrase| && AnswerPhrase[d] == 'I'
    ensures d == 28
  {
  }

  lemma AnswerPhraseNoSelfOverlap()
    ensures NoSelfOverlap(AnswerPhrase)
  {
    var p := AnswerPhrase;
    forall d | 0 < d < |p| ensures p[d..] != p[..|p| - d] {
      if p[d] == 'I' {
        AnswerPhraseCapitals(d);
        assert p[29] == ' ' && p[1] == 'n';
        assert p[d..][1] != p[..|p| - d][1];
      } else {
        assert p[0] == 'I';
        assert p[d..][0] != p[..|p| - d][0];
      }
    }
  }

  /** Only the text after the last answer phrase matters: whatever precedes it is ignored. */
  lemma ParseIgnoresTextBeforeAnswer(x: string, y: string)
    requires !Contains(y, AnswerPhrase)
    ensures ParseLlmAction(x + AnswerPhrase + y) == ParseLlmAction(AnswerPhrase + y)
  {
    AnswerPhraseNoSelfOverlap();
    AfterLastOfTail(x, AnswerPhrase, y);
    AfterLastOfTail([], AnswerPhrase, y);
    assert [] + AnswerPhrase + y == AnswerPhrase + y;
    ContainsSlice(x + AnswerPhrase + y, |x|, |x| + |AnswerPhrase|);
    assert (x + AnswerPhrase + y)[|x|..|x| + |AnswerPhrase|] == AnswerPhrase;
    ContainsSlice(AnswerPhrase + y, 0, |AnswerPhrase|);
    assert (AnswerPhrase + y)[0..|AnswerPhrase|] == AnswerPhrase;
  }

  // ---------------------------------------------------------------- proposing actions

  /** All actions parsed from the first `n` samples, in order. */
  function Candidates(node: Node, n: nat, llm: (Node, nat) -> string): seq<Action> {
    if n == 0 then [] else Candidates(node, n - 1, llm) + ParseLlmAction(llm(node, n - 1))
  }

  /** The vote count of each candidate. */
  function Votes(c: seq<Action>): Action -> int {
    a => multiset(c)[a]
  }

  /** `Counter(c).most_common(k)`: distinct candidates by count, largest first; equal
      counts keep first-appearance order. */
  function MostCommon(c: seq<Action>, k: nat): seq<Action> {
    TakeSeq(SortDesc(Dedup(c), Votes(c)), k)
  }

  /** `most_common` keeps at most `k` distinct candidates, most frequent first, and nothing
      left out is more frequent than the last one kept. */
  lemma MostCommonIsTopK(c: seq<Action>, k: nat)
    ensures var r := MostCommon(c, k);
      && |r| == (if k < |Dedup(c)| then k else |Dedup(c)|)
      && NoDup(r)
      && (forall i :: 0 <= i < |r| ==> r[i] in c)
      && (forall i, j :: 0 <= i < j < |r| ==> multiset(c)[r[i]] >= multiset(c)[r[j]])
      && (forall i :: 0 <= i < |c| && c[i] !in r && |r| > 0 ==> multiset(c)[c[i]] <= multiset(c)[r[|r| - 1]])
  {
    MostCommonKept(c, k);
    MostCommonOrdered(c, k);
    MostCommonLeftOut(c, k);
  }

  lemma MostCommonLeftOut(c: seq<Action>, k: nat)
    ensures var r := MostCommon(c, k);
      forall i :: 0 <= i < |c| && c[i] !in r && |r| > 0 ==> multiset(c)[c[i]] <= multiset(c)[r[|r| - 1]]
  {
    var r := MostCommon(c, k);
    forall i | 0 <= i < |c| && c[i] !in r && |r| > 0 ensures multiset(c)[c[i]] <= multiset(c)[r[|r| - 1]] {
      LeftOutBound(c, k, i);
    }
  }

  lemma MostCommonKept(c: seq<Action>, k: nat)
    ensures var r := MostCommon(c, k);
      && |r| == (if k < |Dedup(c)| then k else |Dedup(c)|)
      && NoDup(r)
      && (forall i :: 0 <= i < |r| ==> r[i] in c)
  {
    var d := Dedup(c);
    var r := MostCommon(c, k);
    TopByKey(d, Votes(c), k);
    forall i | 0 <= i < |r| ensures r[i] in c {
      assert r[i] in d;
    }
  }

  lemma MostCommonOrdered(c: seq<Action>, k: nat)
    ensures var r := MostCommon(c, k);
      forall i, j :: 0 <= i < j < |r| ==> multiset(c)[r[i]] >= multiset(c)[r[j]]
  {
    TopByKey(Dedup(c), Votes(c), k);
    assert SortedDesc(MostCommon(c, k), Votes(c));
  }

  lemma LeftOutBound(c: seq<Action>, k: nat, i: nat)
    requires i < |c| && c[i] !in MostCommon(c, k) && |MostCommon(c, k)| > 0
    ensures multiset(c)[c[i]] <= multiset(c)[MostCommon(c, k)[|MostCommon(c, k)| - 1]]
  {
    var d := Dedup(c);
    var r := MostCommon(c, k);
    TopByKey(d, Votes(c), k);
    assert c[i] in d;
    var q :| 0 <= q < |d| && d[q] == c[i];
    assert Votes(c)(d[q]) <= Votes(c)(r[|r| - 1]);
  }

  /** Among candidates with the same count, `most_common` keeps first-appearance order. */
  lemma MostCommonTiesInFirstAppearanceOrder(c: seq<Action>, v: int)
    ensures WithKey(SortDesc(Dedup(c), Votes(c)), Votes(c), v) == WithKey(Dedup(c), Votes(c), v)
  {
    SortDescStable(Dedup(c), Votes(c), v);
  }

  /** The actions `propose_actions` returns for a node. */
  function Proposals(node: Node, llm: (Node, nat) -> string): (r: seq<Action>)
    ensures |r| <= 5 && NoDup(r)
    ensures node.observation.None? ==> r == []
  {
    if node.observation.None? then []
    else
      var c := Candidates(node, node.branching, llm);
      MostCommonIsTopK(c, 5);
      MostCommon(c, 5)
  }

  /** Nothing parsed from any sample means nothing proposed. */
  lemma ProposalsEmptyWithoutCandidates(node: Node, llm: (Node, nat) -> string)
    requires Candidates(node, node.branching, llm) == []
    ensures Proposals(node, llm) == []
  {
  }

  lemma CandidatesStep(node: Node, i: nat, llm: (Node, nat) -> string)
    ensures Candidates(node, i + 1, llm) == Candidates(node, i, llm) + ParseLlmAction(llm(node, i))
  {
  }

  /** The sampling loop of `propose_actions`: every parsed action, in sample order. */
  method CollectCandidates(node: Node, llm: (Node, nat) -> string) returns (candidates: seq<Action>)
    ensures candidates == Candidates(node, node.branching, llm)
  {
    candidates := [];
    var i := 0;
    while i < node.branching
      invariant 0 <= i <= node.branching
      invariant candidates == Candidates(node, i, llm)
    {
      var parsed := ParseLlmAction(llm(node, i));
      CandidatesStep(node, i, llm);
      if parsed != [] {
        candidates := candidates + parsed;
      }
      i := i + 1;
    }
  }

  /** `propose_actions`: majority vote over `branching` sampled responses. */
  method ProposeActions(node: Node, llm: (Node, nat) -> string) returns (r: seq<Action>)
    ensures r == Proposals(node, llm)
  {
    if node.observation.None? {
      return [];
    }
    var candidates := CollectCandidates(node, llm);
    if candidates == [] {
      assert MostCommon(candidates, 5) == [];
      return [];
    }
    r := MostCommon(candidates, 5);
  }

  // ---------------------------------------------------------------- expansion

  /** The graph state between expansions (the keys `expand_frontier` and
      `check_finish_condition` read or write). */
  datatype SearchState = SearchState(
    goal: string,
    maxSteps: int,
    branching: nat,
    budget: int,
    searchCounter: int,
    bestScore: real,
    bestState: Option<Node>,
    done: bool,
    finalAnswer: Option<string>)

  const GoalFoundAnswer := "목표 상품을 찾았습니다."

  /** `transition` merged into the current node: the page the server returns and the
      action appended to the history. */
  function NextNode(cur: Node, a: Action, env: (Node, Action) -> Observation): (n: Node)
    ensures n.actionHistory == cur.actionHistory + [ActionString(a)]
    ensures n.goal == cur.goal && n.branching == cur.branching && n.observation.Some?
  {
    cur.(observation := Some(env(cur, a)), actionHistory := cur.actionHistory + [ActionString(a)])
  }

  /** The heap entries pushed for the actions `acts`, in order, each with its value. */
  function Successors(cur: Node, acts: seq<Action>, valueLlm: (Node, nat) -> string, env: (Node, Action) -> Observation): (r: seq<PrioritizedItem>)
    ensures |r| == |acts|
  {
    if acts == [] then []
    else
      var next := NextNode(cur, acts[|acts| - 1], env);
      Successors(cur, acts[..|acts| - 1], valueLlm, env) + [PrioritizedItem(-ValueOf(next, valueLlm), next)]
  }

  /** What `expand_frontier` does to the graph state and to the heap. */
  function Expand(
    h: seq<PrioritizedItem>, st: SearchState,
    proposeLlm: (Node, nat) -> string, valueLlm: (Node, nat) -> string,
    env: (Node, Action) -> Observation): (SearchState, seq<PrioritizedItem>)
  {
    if h == [] then (st.(done := true), h)
    else
      var k := BestIndex(h);
      var cur, score := h[k].state, -h[k].priority;
      var bs := if score > st.bestScore then score else st.bestScore;
      var bst := if score > st.bestScore then Some(cur) else st.bestState;
      if IsGoalReached(cur.observation, cur.goal) then
        (st.(done := true, finalAnswer := Some(GoalFoundAnswer), bestState := bst, bestScore := bs), RemoveAt(h, k))
      else
        var acts := Proposals(cur, proposeLlm);
        (st.(bestScore := bs, bestState := bst, searchCounter := st.searchCounter + 1),
         RemoveAt(h, k) + Successors(cur, acts, valueLlm, env))
  }

  lemma SuccessorsStep(cur: Node, acts: seq<Action>, k: nat, valueLlm: (Node, nat) -> string, env: (Node, Action) -> Observation)
    requires k < |acts|
    ensures Successors(cur, acts[..k + 1], valueLlm, env)
      == Successors(cur, acts[..k], valueLlm, env)
         + [PrioritizedItem(-ValueOf(NextNode(cur, acts[k], env), valueLlm), NextNode(cur, acts[k], env))]
  {
    assert acts[..k + 1][..k] == acts[..k];
  }

  /** The push loop of `expand_frontier`: one valued successor per action, in order. */
  method PushSuccessors(frontier: Frontier, cur: Node, actions: seq<Action>,
                        valueLlm: (Node, nat) -> string, env: (Node, Action) -> Observation)
    modifies frontier
    ensures frontier.heap == old(frontier.heap) + Successors(cur, actions, valueLlm, env)
  {
    var k := 0;
    while k < |actions|
      invariant 0 <= k <= |actions|
      invariant frontier.heap == old(frontier.heap) + Successors(cur, actions[..k], valueLlm, env)
    {
      var next := NextNode(cur, actions[k], env);
      var v := ValueFunction(next, valueLlm);
      SuccessorsStep(cur, actions, k, valueLlm, env);
      frontier.Push(v, next);
      k := k + 1;
    }
    assert actions[..k] == actions;
  }

  /** `expand_frontier`: pop the best node, record it if it beats the best score, stop on
      a reached goal, otherwise push every proposed successor with its value. */
  method ExpandFrontier(
    frontier: Frontier, st: SearchState,
    proposeLlm: (Node, nat) -> string, valueLlm: (Node, nat) -> string,
    env: (Node, Action) -> Observation)
    returns (st': SearchState)
    modifies frontier
    ensures (st', frontier.heap) == Expand(old(frontier.heap), st, proposeLlm, valueLlm, env)
  {
    ghost var h := frontier.heap;
    if frontier.IsEmpty() {
      return st.(done := true);
    }
    var popped := frontier.Pop();
    var cur, score := popped.value.0, popped.value.1;
    var bestScore, bestState := st.bestScore, st.bestState;
    if score > bestScore {
      bestScore, bestState := score, Some(cur);
    }
    if IsGoalReached(cur.observation, cur.goal) {
      return st.(done := true, finalAnswer := Some(GoalFoundAnswer), bestState := bestState, bestScore := bestScore);
    }
    var actions := ProposeActions(cur, proposeLlm);
    if actions == [] {
      assert frontier.heap + Successors(cur, actions, valueLlm, env) == frontier.heap;
      return st.(bestScore := bestScore, bestState := bestState, searchCounter := st.searchCounter + 1);
    }
    PushSuccessors(frontier, cur, actions, valueLlm, env);
    st' := st.(searchCounter := st.searchCounter + 1, bestScore := bestScore, bestState := bestState);
  }

  /** The bookkeeping of one expansion: an empty frontier ends the search untouched;
      otherwise the best score never drops, a goal ends the search with the fixed answer,
      and any other expansion counts one step and pushes one entry per proposed action. */
  lemma ExpandBookkeeping(
    h: seq<PrioritizedItem>, st: SearchState,
    proposeLlm: (Node, nat) -> string, valueLlm: (Node, nat) -> string,
    env: (Node, Action) -> Observation)
    ensures var (st', h') := Expand(h, st, proposeLlm, valueLlm, env);
      && (h == [] ==> st' == st.(done := true) && h' == [])
      && st'.bestScore >= st.bestScore
      && st'.goal == st.goal && st'.maxSteps == st.maxSteps && st'.budget == st.budget
      && (h != [] ==>
          var top := h[BestIndex(h)];
          if IsGoalReached(top.state.observation, top.state.goal) then
            st'.done && st'.finalAnswer == Some(GoalFoundAnswer) && st'.searchCounter == st.searchCounter && |h'| == |h| - 1
          else
            st'.done == st.done && st'.searchCounter == st.searchCounter + 1
            && |h'| == |h| - 1 + |Proposals(top.state, proposeLlm)|)
  {
  }

  /** The best-score watermark: it only moves to the popped entry's score, which is the
      highest score on the frontier, and then records the popped node. */
  lemma ExpandWatermark(
    h: seq<PrioritizedItem>, st: SearchState,
    proposeLlm: (Node, nat) -> string, valueLlm: (Node, nat) -> string,
    env: (Node, Action) -> Observation)
    requires h != []
    ensures var st' := Expand(h, st, proposeLlm, valueLlm, env).0;
      var top := h[BestIndex(h)];
      && (st'.bestScore == st.bestScore ==> st'.bestState == st.bestState)
      && (st'.bestScore != st.bestScore ==>
          st'.bestScore == -top.priority && st'.bestState == Some(top.state)
          && forall j :: 0 <= j < |h| ==> -h[j].priority <= st'.bestScore)
  {
    PopTakesBest(h);
  }

  predicate ScoresInUnitRange(h: seq<PrioritizedItem>) {
    forall j :: 0 <= j < |h| ==> 0.0 <= -h[j].priority <= 1.0
  }

  lemma {:induction false} SuccessorsInUnitRange(cur: Node, acts: seq<Action>, valueLlm: (Node, nat) -> string, env: (Node, Action) -> Observation)
    ensures ScoresInUnitRange(Successors(cur, acts, valueLlm, env))
  {
    if acts != [] {
      SuccessorsInUnitRange(cur, acts[..|acts| - 1], valueLlm, env);
      ValueInUnitRange(NextNode(cur, acts[|acts| - 1], env), valueLlm);
    }
  }

  /** Every score held on the frontier stays in [0, 1], since every push is a value. */
  lemma ExpandKeepsScoresInUnitRange(
    h: seq<PrioritizedItem>, st: SearchState,
    proposeLlm: (Node, nat) -> string, valueLlm: (Node, nat) -> string,
    env: (Node, Action) -> Observation)
    requires ScoresInUnitRange(h)
    ensures ScoresInUnitRange(Expand(h, st, proposeLlm, valueLlm, env).1)
  {
    if h != [] {
      var k := BestIndex(h);
      var cur := h[k].state;
      var rest := RemoveAt(h, k);
      assert ScoresInUnitRange(rest) by {
        forall j | 0 <= j < |rest| ensures 0.0 <= -rest[j].priority <= 1.0 {
          if j < k { assert rest[j] == h[j]; } else { assert rest[j] == h[j + 1]; }
        }
      }
      if !IsGoalReached(cur.observation, cur.goal) {
        var succ := Successors(cur, Proposals(cur, proposeLlm), valueLlm, env);
        SuccessorsInUnitRange(cur, Proposals(cur, proposeLlm), valueLlm, env);
        var h' := rest + succ;
        forall j | 0 <= j < |h'| ensures 0.0 <= -h'[j].priority <= 1.0 {
          if j < |rest| { assert h'[j] == rest[j]; } else { assert h'[j] == succ[j - |rest|]; }
        }
      }
    }
  }

  /** `initialize_state`: the first node, valued and pushed on a fresh frontier; the step
      counter starts at 1 and the first node is the best so far. */
  method InitializeState(goal: string, maxSteps: int, branching: nat, budget: int,
                         initial: Observation, valueLlm: (Node, nat) -> string)
    returns (frontier: Frontier, st: SearchState)
    ensures fresh(frontier)
    ensures var n := Node(goal, branching, Some(initial), []);
      && frontier.heap == [PrioritizedItem(-ValueOf(n, valueLlm), n)]
      && st == SearchState(goal, maxSteps, branching, budget, 1, ValueOf(n, valueLlm), Some(n), false, None)
  {
    var n := Node(goal, branching, Some(initial), []);
    frontier := new Frontier();
    var score := ValueFunction(n, valueLlm);
    frontier.Push(score, n);
    st := SearchState(goal, maxSteps, branching, budget, 1, score, Some(n), false, None);
  }

  /** `check_finish_condition`: finish iff done, or the counter passed `max_steps`, or
      it passed `budget`. */
  function CheckFinish(st: SearchState): (r: string)
    ensures r == "finish" || r == "continue"
    ensures r == "finish" <==> st.done || st.searchCounter > st.maxSteps || st.searchCounter > st.budget
  {
    if st.done then "finish"
    else if st.searchCounter > st.maxSteps then "finish"
    else if st.searchCounter > st.budget then "finish"
    else "continue"
  }

  /** An expansion that does not end the search brings the counter one step closer to the
      limit, so after at most `min(max_steps, budget)` such expansions the search finishes. */
  lemma ContinueNeedsRoom(
    h: seq<PrioritizedItem>, st: SearchState,
    proposeLlm: (Node, nat) -> string, valueLlm: (Node, nat) -> string,
    env: (Node, Action) -> Observation)
    requires h != [] && !st.done
    requires CheckFinish(Expand(h, st, proposeLlm, valueLlm, env).0) == "continue"
    ensures st.searchCounter < st.maxSteps && st.searchCounter < st.budget
  {
    ExpandBookkeeping(h, st, proposeLlm, valueLlm, env);
  }
}
