/**
 * The KnowAgent tools (KnowAgent/tools.py): the action parser that reads `Type[argument]` from
 * the model's output, the keyword lookup over the last passage, and the guards in front of the
 * two network tools.
 */
module KnowTools {
  import opened Wrappers
  import opened Text

  // ---------------------------------------------------------------- parse_action

  predicate NotNewline(c: char) { c != '\n' }
  predicate IsBlank(c: char) { c == ' ' }
  predicate IsPeriod(c: char) { c == '.' }

  /** The last index `j` in `[lo, hi)` with `s[j] == c`. */
  function LastBefore(s: string, lo: nat, hi: nat, c: char): (r: Option<nat>)
    requires lo <= hi <= |s|
    ensures r.Some? ==> lo <= r.value < hi && s[r.value] == c
    ensures r.Some? ==> forall j :: r.value < j < hi ==> s[j] != c
    ensures r.None? ==> forall j :: lo <= j < hi ==> s[j] != c
    decreases hi - lo
  {
    if hi == lo then None
    else if s[hi - 1] == c then Some(hi - 1)
    else LastBefore(s, lo, hi - 1, c)
  }

  /**
   * The anchored pattern `^(\w+)\[(.+)\]$`: a word, a bracket, an argument of at least one
   * character free of line breaks, and a closing bracket at the very end (or just before one
   * final line break, where `$` also matches).
   */
  function StrictMatch(s: string): Option<(string, string)> {
    var q := RunFrom(s, 0, IsWordChar);
    var end := if EndsWith(s, "\n") then |s| - 1 else |s|;
    if 0 < q && q + 2 < end && s[q] == '[' && s[end - 1] == ']' && RunFrom(s, q + 1, NotNewline) >= end - 1
    then Some((s[..q], s[q + 1..end - 1]))
    else None
  }

  /**
   * `fuzzy_parse_action`: strip blanks, then periods, and match `^(\w+)\[(.+)\]` with no anchor
   * at the end, so the argument runs to the last `]` before the first line break; without a
   * match the whole stripped text comes back as the type, with an empty argument.
   */
  function FuzzyParse(text: string): (string, string) {
    var t := StripBy(StripBy(text, IsBlank), IsPeriod);
    var q := RunFrom(t, 0, IsWordChar);
    if 0 < q < |t| && t[q] == '[' then
      var e := RunFrom(t, q + 1, NotNewline);
      if q + 2 <= e then
        match LastBefore(t, q + 2, e, ']')
        case Some(j) => (t[..q], t[q + 1..j])
        case None => (t, "")
      else (t, "")
    else (t, "")
  }

  /** `parse_action`: the strict pattern first, the fuzzy one otherwise. */
  function ParseAction(s: string): (string, string) {
    match StrictMatch(s)
    case Some(p) => p
    case None => FuzzyParse(s)
  }

  predicate IsWord(w: string) {
    w != [] && forall i :: 0 <= i < |w| ==> IsWordChar(w[i])
  }

  predicate NoNewline(a: string) {
    forall i :: 0 <= i < |a| ==> a[i] != '\n'
  }

  /** A greedy run over a prefix whose characters all qualify, stopped by one that does not,
      ends exactly there. */
  lemma RunFromStops(s: string, p: nat, q: nat, ok: char -> bool)
    requires p <= q < |s|
    requires forall j :: p <= j < q ==> ok(s[j])
    requires !ok(s[q])
    ensures RunFrom(s, p, ok) == q
  {
  }

  /** A well-formed action `Type[argument]` parses back to its type and argument. */
  lemma ParseWellFormed(w: string, a: string)
    requires IsWord(w) && a != [] && NoNewline(a)
    ensures ParseAction(w + "[" + a + "]") == (w, a)
  {
    var s := w + "[" + a + "]";
    assert s[|w|] == '[';
    RunFromStops(s, 0, |w|, IsWordChar);
    assert !EndsWith(s, "\n") by { assert s[|s| - 1] == ']'; }
    var r := RunFrom(s, |w| + 1, NotNewline);
    assert forall j :: |w| + 1 <= j < |s| - 1 ==> s[j] == a[j - |w| - 1];
    assert s[..|w|] == w;
    assert s[|w| + 1..|s| - 1] == a;
  }

  /** Whatever the strict pattern accepts is a well-formed action, possibly followed by one
      line break. */
  lemma StrictMatchShape(s: string)
    requires StrictMatch(s).Some?
    ensures var (w, a) := StrictMatch(s).value;
      IsWord(w) && a != [] && NoNewline(a)
      && (s == w + "[" + a + "]" || s == w + "[" + a + "]" + "\n")
  {
    var (w, a) := StrictMatch(s).value;
    var q := |w|;
    var end := if EndsWith(s, "\n") then |s| - 1 else |s|;
    assert forall i :: 0 <= i < |a| ==> a[i] == s[q + 1 + i];
    if EndsWith(s, "\n") {
      assert s == w + "[" + a + "]" + "\n";
    } else {
      assert s == w + "[" + a + "]";
    }
  }

  /** The text up to a closing bracket, read as a word, a bracket and an argument. */
  lemma BracketPrefix(t: string, q: nat, j: nat)
    requires 0 < q < j < |t| && t[q] == '[' && t[j] == ']'
    ensures StartsWith(t, t[..q] + "[" + t[q + 1..j] + "]")
  {
    assert t[..j + 1] == t[..q] + "[" + t[q + 1..j] + "]";
  }

  /** When the fuzzy pattern matches, the type is a word and the argument is non-empty and on
      one line; otherwise the stripped text comes back whole. */
  lemma FuzzyParseShape(text: string)
    ensures FuzzyParse(text).1 == [] ==> FuzzyParse(text).0 == StripBy(StripBy(text, IsBlank), IsPeriod)
    ensures FuzzyParse(text).1 != [] ==>
      IsWord(FuzzyParse(text).0) && NoNewline(FuzzyParse(text).1)
      && StartsWith(StripBy(StripBy(text, IsBlank), IsPeriod), FuzzyParse(text).0 + "[" + FuzzyParse(text).1 + "]")
  {
    var t := StripBy(StripBy(text, IsBlank), IsPeriod);
    var q := RunFrom(t, 0, IsWordChar);
    if 0 < q < |t| && t[q] == '[' {
      var e := RunFrom(t, q + 1, NotNewline);
      if q + 2 <= e {
        var found := LastBefore(t, q + 2, e, ']');
        if found.Some? {
          var j := found.value;
          assert FuzzyParse(text) == (t[..q], t[q + 1..j]);
          BracketPrefix(t, q, j);
        }
      }
    }
  }

  /** The action type is a word and the argument is on one line whenever the argument is not
      empty: the decide node's fallback therefore only sees an empty argument on a parse that
      failed. */
  lemma ParseActionShape(s: string)
    ensures var (w, a) := ParseAction(s); a != [] ==> IsWord(w) && NoNewline(a)
  {
    if StrictMatch(s).Some? {
      StrictMatchShape(s);
    } else {
      FuzzyParseShape(s);
    }
  }

  // ---------------------------------------------------------------- sentence splitting

  predicate IsStop(c: char) { c == '.' || c == '!' || c == '?' }
  predicate IsEss(c: char) { c == 's' }

  /**
   * The separator of `lookup_keyword`'s split. Its pattern is the raw string `(?<=[.!?])\\s+`,
   * in which `\\` is a literal backslash: after an end mark, a backslash followed by one or more
   * letters `s` (not whitespace). This returns where such a separator starting at `i` ends.
   */
  function BreakEnd(s: string, i: nat): (r: Option<nat>)
    requires i <= |s|
    ensures r.Some? ==> i + 2 <= r.value <= |s|
    ensures r.Some? <==> EscapedBreak(s, i - 1)
  {
    if 1 <= i && i + 1 < |s| && IsStop(s[i - 1]) && s[i] == '\\' && s[i + 1] == 's'
    then Some(RunFrom(s, i + 1, IsEss))
    else None
  }

  /** An end mark at `j` followed by a backslash and an `s`. */
  predicate EscapedBreak(p: string, j: int) {
    0 <= j && j + 2 < |p| && IsStop(p[j]) && p[j + 1] == '\\' && p[j + 2] == 's'
  }

  predicate NoBreakInside(p: string) {
    forall j :: 0 <= j < |p| ==> !EscapedBreak(p, j)
  }

  /** `re.split` scanning from `i`, with the current piece starting at `start`. */
  function PiecesFrom(s: string, start: nat, i: nat): (r: seq<string>)
    requires start <= i <= |s|
    ensures |r| >= 1
    decreases |s| - i
  {
    match BreakEnd(s, i)
    case Some(e) => [s[start..i]] + PiecesFrom(s, e, e)
    case None => if i < |s| then PiecesFrom(s, start, i + 1) else [s[start..]]
  }

  function Sentences(s: string): (r: seq<string>)
    ensures |r| >= 1
  {
    PiecesFrom(s, 0, 0)
  }

  /** No piece the splitter produces still holds a separator after an end mark. */
  lemma {:induction false} PiecesHaveNoBreak(s: string, start: nat, i: nat)
    requires start <= i <= |s|
    requires forall j :: start <= j && j + 1 < i ==> !EscapedBreak(s, j)
    ensures forall k :: 0 <= k < |PiecesFrom(s, start, i)| ==> NoBreakInside(PiecesFrom(s, start, i)[k])
    decreases |s| - i
  {
    match BreakEnd(s, i)
    case Some(e) =>
      PiecesHaveNoBreak(s, e, e);
      PieceHasNoBreak(s, start, i);
    case None =>
      if i < |s| {
        PiecesHaveNoBreak(s, start, i + 1);
      } else {
        PieceHasNoBreak(s, start, |s|);
        assert BreakEnd(s, i).None?;
        assert PiecesFrom(s, start, i) == [s[start..]];
        assert s[start..] == s[start..|s|];
      }
  }

  /** A slice that ends before any separator has its end mark holds none. */
  lemma PieceHasNoBreak(s: string, start: nat, i: nat)
    requires start <= i <= |s|
    requires forall j :: start <= j && j + 1 < i ==> !EscapedBreak(s, j)
    ensures NoBreakInside(s[start..i])
  {
    var p := s[start..i];
    forall j | 0 <= j < |p| ensures !EscapedBreak(p, j) {
      assert EscapedBreak(p, j) ==> EscapedBreak(s, start + j);
    }
  }

  /** The split yields pieces without an escaped break. */
  lemma SentencesHaveNoBreak(s: string)
    ensures forall k :: 0 <= k < |Sentences(s)| ==> NoBreakInside(Sentences(s)[k])
  {
    PiecesHaveNoBreak(s, 0, 0);
  }

  /** Without a backslash in the text, the pattern never matches, so the text stays in one
      piece. */
  lemma {:induction false} NoBackslashOnePiece(s: string, start: nat, i: nat)
    requires start <= i <= |s|
    requires forall j :: 0 <= j < |s| ==> s[j] != '\\'
    ensures PiecesFrom(s, start, i) == [s[start..]]
    decreases |s| - i
  {
    if i < |s| {
      NoBackslashOnePiece(s, start, i + 1);
    }
  }

  // ---------------------------------------------------------------- lookup_keyword

  /** The first piece that contains the keyword, ignoring case. */
  function FirstContaining(pieces: seq<string>, keyword: string): (r: Option<string>)
    ensures r.Some? ==> r.value in pieces && Contains(Lower(r.value), Lower(keyword))
    ensures r.None? <==> forall k :: 0 <= k < |pieces| ==> !Contains(Lower(pieces[k]), Lower(keyword))
    decreases |pieces|
  {
    if pieces == [] then None
    else if Contains(Lower(pieces[0]), Lower(keyword)) then Some(pieces[0])
    else FirstContaining(pieces[1..], keyword)
  }

  const NoPassage := "No prior passage to lookup from."
  const NoKeyword := "No keyword provided for lookup."
  const NoSentence := "No sentence containing the keyword found in the last passage."

  /** `lookup_keyword`. */
  function LookupKeyword(lastText: string, keyword: string): string {
    if lastText == "" then NoPassage
    else if keyword == "" then NoKeyword
    else
      match FirstContaining(Sentences(lastText), keyword)
      case Some(p) => p
      case None => NoSentence
  }

  /**
   * The lookup answers with a note for an empty passage (checked first) or keyword; otherwise
   * with the first piece of the split that contains the keyword ignoring case; otherwise with a
   * note that none does.
   */
  lemma LookupKeywordCases(lastText: string, keyword: string)
    ensures lastText == "" ==> LookupKeyword(lastText, keyword) == NoPassage
    ensures lastText != "" && keyword == "" ==> LookupKeyword(lastText, keyword) == NoKeyword
    ensures lastText != "" && keyword != "" ==>
      var r := LookupKeyword(lastText, keyword);
      var ps := Sentences(lastText);
      (r == NoSentence && forall k :: 0 <= k < |ps| ==> !Contains(Lower(ps[k]), Lower(keyword)))
      || (r in ps && Contains(Lower(r), Lower(keyword)) && NoBreakInside(r))
  {
    SentencesHaveNoBreak(lastText);
  }

  /** A passage without backslashes is never split: the lookup answers with the whole passage
      whenever the keyword occurs anywhere in it, ignoring case. */
  lemma LookupReturnsWholePassage(lastText: string, keyword: string)
    requires lastText != "" && keyword != ""
    requires forall j :: 0 <= j < |lastText| ==> lastText[j] != '\\'
    requires Contains(Lower(lastText), Lower(keyword))
    ensures LookupKeyword(lastText, keyword) == lastText
  {
    NoBackslashOnePiece(lastText, 0, 0);
    assert Sentences(lastText) == [lastText];
  }

  /** The passage `A. B` with the keyword `b`: the answer is the whole passage, not `B`. */
  lemma LookupOfTwoSentences()
    ensures LookupKeyword("A. B", "b") == "A. B"
  {
    assert Lower("A. B") == "a. b";
    assert Contains("a. b", "b") by { assert OccursAt("a. b", "b", 3); }
    LookupReturnsWholePassage("A. B", "b");
  }

  // ---------------------------------------------------------------- network tools

  /** `wikipedia_retrieve`: an entity that strips to nothing is answered locally; otherwise the
      stripped entity goes to the lookup service, which answers with its summary. */
  function WikipediaRetrieve(entity: string, fetch: string -> string): string {
    var e := Strip(entity);
    if e == "" then "No entity provided." else fetch(e)
  }

  /** `web_search`: the same guard in front of the search service. */
  function WebSearch(query: string, search: string -> string): string {
    var q := Strip(query);
    if q == "" then "No query provided." else search(q)
  }

  /** The services see only the stripped request, and not at all when it is empty: two
      services that agree on the stripped request give the same answer, and surrounding
      whitespace makes no difference. */
  lemma NetworkToolsSeeStrippedRequest(request: string, f: string -> string, g: string -> string)
    requires Strip(request) != "" ==> f(Strip(request)) == g(Strip(request))
    ensures WikipediaRetrieve(request, f) == WikipediaRetrieve(request, g)
    ensures WebSearch(request, f) == WebSearch(request, g)
    ensures WikipediaRetrieve(Strip(request), f) == WikipediaRetrieve(request, f)
    ensures WebSearch(Strip(request), f) == WebSearch(request, f)
    ensures Strip(request) == "" ==>
      WikipediaRetrieve(request, f) == "No entity provided." && WebSearch(request, f) == "No query provided."
  {
    StripIdempotent(request);
  }
}
