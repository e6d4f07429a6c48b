/**
 * The Python string operations the agents rely on, written out over `seq<char>`:
 * character classes, case mapping, `strip`, `split`, `join`, `splitlines`,
 * whitespace `split()`, substring search and decimal rendering of integers.
 */
module Text {
  import opened Wrappers

  /** Python's `str.isspace()` set, which is also what the regex class `\s` matches. */
  predicate IsSpace(c: char) {
    c == ' ' || ('\t' <= c <= '\r') || ('\U{001C}' <= c <= '\U{001F}')
    || c == '\U{0085}' || c == '\U{00A0}' || c == '\U{1680}'
    || ('\U{2000}' <= c <= '\U{200A}') || c == '\U{2028}' || c == '\U{2029}'
    || c == '\U{202F}' || c == '\U{205F}' || c == '\U{3000}'
  }

  predicate IsDigit(c: char) { '0' <= c <= '9' }

  predicate IsAsciiLetter(c: char) { ('a' <= c <= 'z') || ('A' <= c <= 'Z') }

  /** The regex class `\w`, restricted to ASCII. */
  predicate IsWordChar(c: char) { IsAsciiLetter(c) || IsDigit(c) || c == '_' }

  /** The characters at which `str.splitlines()` breaks a line. */
  predicate IsLineBreak(c: char) {
    ('\n' <= c <= '\r') || ('\U{001C}' <= c <= '\U{001E}')
    || c == '\U{0085}' || c == '\U{2028}' || c == '\U{2029}'
  }

  function LowerChar(c: char): char {
    if 'A' <= c <= 'Z' then (c as int + 32) as char else c
  }

  function UpperChar(c: char): char {
    if 'a' <= c <= 'z' then (c as int - 32) as char else c
  }

  /** `s.lower()` on ASCII letters. */
  function Lower(s: string): (r: string)
    ensures |r| == |s|
    ensures forall i :: 0 <= i < |s| ==> r[i] == LowerChar(s[i])
  {
    seq(|s|, i requires 0 <= i < |s| => LowerChar(s[i]))
  }

  /** `s.upper()` on ASCII letters. */
  function Upper(s: string): (r: string)
    ensures |r| == |s|
    ensures forall i :: 0 <= i < |s| ==> r[i] == UpperChar(s[i])
  {
    seq(|s|, i requires 0 <= i < |s| => UpperChar(s[i]))
  }

  lemma LowerIdempotent(s: string)
    ensures Lower(Lower(s)) == Lower(s)
  {
  }

  lemma LowerConcat(a: string, b: string)
    ensures Lower(a + b) == Lower(a) + Lower(b)
  {
  }

  predicate StartsWith(s: string, p: string) { |p| <= |s| && s[..|p|] == p }

  predicate EndsWith(s: string, p: string) { |p| <= |s| && s[|s| - |p|..] == p }

  /** `sub` occurs in `s` at index `i`. */
  predicate OccursAt(s: string, sub: string, i: int) {
    0 <= i && i + |sub| <= |s| && s[i..i + |sub|] == sub
  }

  /** `s.find(sub, from)`: the first index at or after `from` where `sub` occurs. */
  function IndexFrom(s: string, sub: string, from: nat): (r: Option<nat>)
    ensures r.Some? ==> from <= r.value && OccursAt(s, sub, r.value)
    ensures r.Some? ==> forall j :: from <= j < r.value ==> !OccursAt(s, sub, j)
    ensures r.None? ==> forall j :: from <= j ==> !OccursAt(s, sub, j)
    decreases |s| - from
  {
    if from + |sub| > |s| then None
    else if s[from..from + |sub|] == sub then Some(from)
    else IndexFrom(s, sub, from + 1)
  }

  /** Python's `sub in s`. */
  predicate Contains(s: string, sub: string) {
    IndexFrom(s, sub, 0).Some?
  }

  lemma ContainsIff(s: string, sub: string)
    ensures Contains(s, sub) <==> exists j :: OccursAt(s, sub, j)
  {
    if !Contains(s, sub) {
      assert forall j :: 0 <= j ==> !OccursAt(s, sub, j);
    }
  }

  lemma ContainsWitness(s: string, sub: string, j: int)
    requires OccursAt(s, sub, j)
    ensures Contains(s, sub)
  {
    ContainsIff(s, sub);
  }

  /** A string contains every one of its own slices. */
  lemma ContainsSlice(s: string, i: nat, j: nat)
    requires i <= j <= |s|
    ensures Contains(s, s[i..j])
  {
    ContainsWitness(s, s[i..j], i);
  }

  /** The three pieces of a string glued from three pieces. */
  lemma PieceSlices(a: string, b: string, c: string)
    ensures (a + b + c)[..|a|] == a
    ensures (a + b + c)[|a|..|a| + |b|] == b
    ensures (a + b + c)[|a| + |b|..] == c
  {
  }

  /** Python's `s[:n]` for `n >= 0`. */
  function Take(s: string, n: nat): (r: string)
    ensures |r| == if n < |s| then n else |s|
    ensures r == s[..|r|]
  {
    if n < |s| then s[..n] else s
  }

  // ---------------------------------------------------------------- strip

  /** Length of the longest prefix of `s` whose characters all satisfy `p`. */
  function PrefixRun(s: string, p: char -> bool): (n: nat)
    ensures n <= |s|
    ensures forall i :: 0 <= i < n ==> p(s[i])
    ensures n < |s| ==> !p(s[n])
  {
    if s != [] && p(s[0]) then 1 + PrefixRun(s[1..], p) else 0
  }

  /** Length of the longest suffix of `s` whose characters all satisfy `p`. */
  function SuffixRun(s: string, p: char -> bool): (n: nat)
    ensures n <= |s|
    ensures forall i :: |s| - n <= i < |s| ==> p(s[i])
    ensures n < |s| ==> !p(s[|s| - n - 1])
  {
    if s != [] && p(s[|s| - 1]) then 1 + SuffixRun(s[..|s| - 1], p) else 0
  }

  /** `s.strip(chars)` where `p` tells which characters are stripped. */
  function StripBy(s: string, p: char -> bool): (r: string)
    ensures r == [] || (!p(r[0]) && !p(r[|r| - 1]))
  {
    var a := PrefixRun(s, p);
    var t := s[a..];
    t[..|t| - SuffixRun(t, p)]
  }

  /** `s.strip()`. */
  function Strip(s: string): (r: string)
    ensures r == [] || (!IsSpace(r[0]) && !IsSpace(r[|r| - 1]))
    ensures |r| <= |s|
  {
    StripBy(s, IsSpace)
  }

  /** `s.lstrip()`. */
  function TrimStart(s: string): (r: string)
    ensures |r| <= |s| && r == s[|s| - |r|..]
    ensures r == [] || !IsSpace(r[0])
    ensures forall i :: 0 <= i < |s| - |r| ==> IsSpace(s[i])
  {
    s[PrefixRun(s, IsSpace)..]
  }

  /** Stripping a string that has no surrounding whitespace leaves it alone. */
  lemma StripNoop(s: string)
    requires s == [] || (!IsSpace(s[0]) && !IsSpace(s[|s| - 1]))
    ensures Strip(s) == s
  {
  }

  lemma StripIdempotent(s: string)
    ensures Strip(Strip(s)) == Strip(s)
  {
    StripNoop(Strip(s));
  }

  // ---------------------------------------------------------------- split / join

  /** `s.split(sep)` for a non-empty separator. */
  function Split(s: string, sep: string): (r: seq<string>)
    requires |sep| > 0
    ensures |r| >= 1
    decreases |s|
  {
    match IndexFrom(s, sep, 0)
    case None => [s]
    case Some(i) => [s[..i]] + Split(s[i + |sep|..], sep)
  }

  /** `sep.join(parts)`. */
  function Join(parts: seq<string>, sep: string): string {
    if |parts| == 0 then ""
    else if |parts| == 1 then parts[0]
    else parts[0] + sep + Join(parts[1..], sep)
  }

  /** Splitting and joining back with the same separator gives the original text. */
  lemma {:induction false} JoinSplit(s: string, sep: string)
    requires |sep| > 0
    ensures Join(Split(s, sep), sep) == s
    decreases |s|
  {
    var r := IndexFrom(s, sep, 0);
    if r.Some? {
      var i := r.value;
      var rest := s[i + |sep|..];
      JoinSplit(rest, sep);
      var tail := Split(rest, sep);
      SplitAt(s, sep, i);
      JoinCons(s[..i], tail, sep);
      Recompose(s, sep, i);
    }
  }

  /** The first occurrence of the separator ends the first piece. */
  lemma SplitAt(s: string, sep: string, i: nat)
    requires |sep| > 0 && IndexFrom(s, sep, 0) == Some(i)
    ensures Split(s, sep) == [s[..i]] + Split(s[i + |sep|..], sep)
  {
    var k := IndexFrom(s, sep, 0);
    assert k.Some? && k.value == i;
  }

  /** Cutting a string around an occurrence of `sep` and gluing it back gives the string. */
  lemma Recompose(s: string, sep: string, i: nat)
    requires OccursAt(s, sep, i)
    ensures s == s[..i] + sep + s[i + |sep|..]
  {
    assert s[i..] == s[i..i + |sep|] + s[i + |sep|..];
    assert s == s[..i] + s[i..];
  }

  lemma JoinCons(a: string, tail: seq<string>, sep: string)
    requires |tail| >= 1
    ensures Join([a] + tail, sep) == a + sep + Join(tail, sep)
  {
    assert ([a] + tail)[1..] == tail;
  }

  /** No piece of a split contains the separator. */
  lemma {:induction false} SplitPiecesFree(s: string, sep: string)
    requires |sep| > 0
    ensures forall k :: 0 <= k < |Split(s, sep)| ==> !Contains(Split(s, sep)[k], sep)
    decreases |s|
  {
    match IndexFrom(s, sep, 0)
    case None =>
    case Some(i) =>
      var rest := s[i + |sep|..];
      SplitPiecesFree(rest, sep);
      var head := s[..i];
      if Contains(head, sep) {
        ContainsIff(head, sep);
        var j :| OccursAt(head, sep, j);
        assert s[j..j + |sep|] == head[j..j + |sep|];
        assert OccursAt(s, sep, j);
      }
  }

  /** Joining pieces that do not contain a one-character separator, then splitting, gives the pieces back. */
  lemma {:induction false} SplitJoin(parts: seq<string>, c: char)
    requires |parts| >= 1
    requires forall k :: 0 <= k < |parts| ==> c !in parts[k]
    ensures Split(Join(parts, [c]), [c]) == parts
    decreases |parts|
  {
    var s := Join(parts, [c]);
    var p := parts[0];
    if |parts| == 1 {
      assert s == p;
      NoCharNoOccurrence(p, c, 0);
    } else {
      var rest := Join(parts[1..], [c]);
      assert s == p + [c] + rest;
      assert OccursAt(s, [c], |p|);
      forall j | 0 <= j < |p| ensures !OccursAt(s, [c], j) {
        assert s[j] == p[j];
      }
      assert IndexFrom(s, [c], 0) == Some(|p|);
      assert s[..|p|] == p;
      assert s[|p| + 1..] == rest;
      SplitJoin(parts[1..], c);
    }
  }

  lemma {:induction false} NoCharNoOccurrence(s: string, c: char, from: nat)
    requires c !in s
    ensures IndexFrom(s, [c], from).None?
    decreases |s| - from
  {
    if from + 1 <= |s| {
      assert s[from] in s;
      NoCharNoOccurrence(s, c, from + 1);
    }
  }

  /** `s.split(sep)[0]`: the text before the first occurrence of `sep`, or all of `s`. */
  function BeforeFirst(s: string, sep: string): (r: string)
    requires |sep| > 0
    ensures StartsWith(s, r)
    ensures !Contains(r, sep)
  {
    SplitPiecesFree(s, sep);
    Split(s, sep)[0]
  }

  /** `s.split(sep)[-1]`: the text after the last occurrence of `sep`, or all of `s`
      (`AfterLastFacts`). */
  function AfterLast(s: string, sep: string): string
    requires |sep| > 0
  {
    Last(Split(s, sep))
  }

  function Last<T>(xs: seq<T>): T
    requires |xs| > 0
  {
    xs[|xs| - 1]
  }

  /** The text after the last separator ends the string and holds no separator. */
  lemma AfterLastFacts(s: string, sep: string)
    requires |sep| > 0
    ensures EndsWith(s, AfterLast(s, sep))
    ensures !Contains(AfterLast(s, sep), sep)
  {
    SplitPiecesFree(s, sep);
    SplitLastIsSuffix(s, sep);
  }

  lemma {:induction false} SplitLastIsSuffix(s: string, sep: string)
    requires |sep| > 0
    ensures EndsWith(s, Split(s, sep)[|Split(s, sep)| - 1])
    decreases |s|
  {
    match IndexFrom(s, sep, 0)
    case None =>
    case Some(i) =>
      SplitLastIsSuffix(s[i + |sep|..], sep);
  }

  /** No proper suffix of `sep` is also a prefix of it, so two occurrences never overlap. */
  predicate NoSelfOverlap(sep: string) {
    forall d :: 0 < d < |sep| ==> sep[d..] != sep[..|sep| - d]
  }

  lemma NoOccurrenceSplit(y: string, sep: string)
    requires |sep| > 0
    requires !Contains(y, sep)
    ensures Split(y, sep) == [y]
  {
  }

  /** For a separator that cannot overlap itself, the text after the last separator is
      whatever follows a separator written last. */
  lemma {:induction false} AfterLastOfTail(x: string, sep: string, y: string)
    requires |sep| > 0 && NoSelfOverlap(sep)
    requires !Contains(y, sep)
    ensures AfterLast(x + sep + y, sep) == y
    decreases |x|
  {
    var s := x + sep + y;
    assert OccursAt(s, sep, |x|) by {
      assert s[|x|..|x| + |sep|] == sep;
    }
    var i := IndexFrom(s, sep, 0).value;
    AfterLastStep(s, sep, i);
    if i == |x| {
      assert s[i + |sep|..] == y;
      NoOccurrenceSplit(y, sep);
    } else if i + |sep| <= |x| {
      var x' := x[i + |sep|..];
      assert s[i + |sep|..] == x' + sep + y;
      AfterLastOfTail(x', sep, y);
    } else {
      OverlapSelfMatch(s, sep, i, |x|);
      assert false;
    }
  }

  /** The text after the last separator is found after the first one. */
  lemma AfterLastStep(s: string, sep: string, i: nat)
    requires |sep| > 0 && IndexFrom(s, sep, 0) == Some(i)
    ensures AfterLast(s, sep) == AfterLast(s[i + |sep|..], sep)
  {
    SplitAt(s, sep, i);
    LastOfCons(s[..i], Split(s[i + |sep|..], sep));
  }

  lemma LastOfCons<T>(a: T, t: seq<T>)
    requires |t| > 0
    ensures Last([a] + t) == Last(t)
  {
  }

  /** Two overlapping occurrences of `sep` make a proper suffix of it equal to a prefix. */
  lemma OverlapSelfMatch(s: string, sep: string, i: nat, j: nat)
    requires OccursAt(s, sep, i) && OccursAt(s, sep, j) && i < j < i + |sep|
    ensures sep[j - i..] == sep[..|sep| - (j - i)]
  {
    var d := j - i;
    forall k | 0 <= k < |sep| - d ensures sep[d..][k] == sep[..|sep| - d][k] {
      assert sep[d..][k] == s[i..i + |sep|][d + k];
      assert sep[..|sep| - d][k] == s[j..j + |sep|][k];
    }
  }

  // ---------------------------------------------------------------- lines and words

  /** Index of the first line break at or after `from`, or `|s|`. */
  function NextBreak(s: string, from: nat): (r: nat)
    requires from <= |s|
    ensures from <= r <= |s|
    ensures forall j :: from <= j < r ==> !IsLineBreak(s[j])
    ensures r < |s| ==> IsLineBreak(s[r])
    decreases |s| - from
  {
    if from == |s| || IsLineBreak(s[from]) then from else NextBreak(s, from + 1)
  }

  /** `s.splitlines()`: `\r\n` ends one line, a final break adds no empty line. */
  function SplitLines(s: string): (r: seq<string>)
    ensures forall k, j :: 0 <= k < |r| && 0 <= j < |r[k]| ==> !IsLineBreak(r[k][j])
    ensures s == [] <==> r == []
    decreases |s|
  {
    if s == [] then []
    else
      var i := NextBreak(s, 0);
      if i == |s| then [s]
      else
        var skip := if s[i] == '\r' && i + 1 < |s| && s[i + 1] == '\n' then 2 else 1;
        [s[..i]] + SplitLines(s[i + skip..])
  }

  /** Text without any line break is one line. */
  lemma SplitLinesSingle(s: string)
    requires s != []
    requires forall j :: 0 <= j < |s| ==> !IsLineBreak(s[j])
    ensures SplitLines(s) == [s]
  {
  }

  /** Maximal runs of characters that are not separators, as produced by `s.split()` or by
      a regex split on separator characters followed by dropping empty pieces. */
  function TokensBy(s: string, isSep: char -> bool): (r: seq<string>)
    ensures forall k :: 0 <= k < |r| ==> |r[k]| > 0
    ensures forall k, j :: 0 <= k < |r| && 0 <= j < |r[k]| ==> !isSep(r[k][j])
    decreases |s|
  {
    var a := PrefixRun(s, isSep);
    var t := s[a..];
    if t == [] then []
    else
      var n := PrefixRun(t, c => !isSep(c));
      [t[..n]] + TokensBy(t[n..], isSep)
  }

  /** `s.split()` with no argument. */
  function Words(s: string): (r: seq<string>)
    ensures forall k :: 0 <= k < |r| ==> |r[k]| > 0
    ensures forall k, j :: 0 <= k < |r| && 0 <= j < |r[k]| ==> !IsSpace(r[k][j])
  {
    TokensBy(s, IsSpace)
  }

  /** Starting at `p`, the end of the longest run of characters satisfying `ok`: a greedy
      `X*` for a character class `X`. */
  function RunFrom(s: string, p: nat, ok: char -> bool): (q: nat)
    requires p <= |s|
    ensures p <= q <= |s|
    ensures forall j :: p <= j < q ==> ok(s[j])
    ensures q < |s| ==> !ok(s[q])
    decreases |s| - p
  {
    if p < |s| && ok(s[p]) then RunFrom(s, p + 1, ok) else p
  }

  // ---------------------------------------------------------------- numbers

  function DigitChar(d: nat): char
    requires d < 10
  {
    ('0' as int + d) as char
  }

  /** Decimal digits of `n`, as Python's `str(n)`. */
  function NatToString(n: nat): (r: string)
    ensures |r| > 0
    ensures forall i :: 0 <= i < |r| ==> IsDigit(r[i])
  {
    if n < 10 then [DigitChar(n)] else NatToString(n / 10) + [DigitChar(n % 10)]
  }

  /** Python's `str(i)` for an integer. */
  function IntToString(i: int): string {
    if i < 0 then "-" + NatToString(-i) else NatToString(i)
  }

  /** Value of a non-empty run of decimal digits. */
  function DigitsValue(s: string): (v: nat)
    requires forall i :: 0 <= i < |s| ==> IsDigit(s[i])
  {
    if s == [] then 0
    else
      assert IsDigit(s[|s| - 1]);
      10 * DigitsValue(s[..|s| - 1]) + (s[|s| - 1] as int - '0' as int)
  }

  /** Reading back the digits `NatToString` writes gives the number. */
  lemma {:induction false} DigitsValueOfNatToString(n: nat)
    ensures DigitsValue(NatToString(n)) == n
  {
    if n >= 10 {
      var s := NatToString(n);
      DigitsValueOfNatToString(n / 10);
      assert s[..|s| - 1] == NatToString(n / 10);
    }
  }

  /** Value of digits read as a decimal fraction: "25" is 0.25. */
  function FracValue(s: string): (v: real)
    requires forall i :: 0 <= i < |s| ==> IsDigit(s[i])
    ensures 0.0 <= v <= 1.0
  {
    if s == [] then 0.0
    else
      assert IsDigit(s[0]);
      ((s[0] as int - '0' as int) as real + FracValue(s[1..])) / 10.0
  }

  /** Python's `float(s)` for a string of digits and dots: at most one dot and at least one
      digit, else `ValueError`, modelled as `None`. Exact reals; IEEE rounding is not modelled. */
  function ParseDecimal(s: string): (r: Option<real>)
  {
    var n := PrefixRun(s, IsDigit);
    if n == |s| then
      if n == 0 then None else Some(DigitsValue(s) as real)
    else if s[n] == '.' && PrefixRun(s[n + 1..], IsDigit) == |s| - n - 1 && |s| > 1 then
      Some(DigitsValue(s[..n]) as real + FracValue(s[n + 1..]))
    else None
  }

  /** `float(str(n))` is `n`. */
  lemma ParseDecimalOfNat(n: nat)
    ensures ParseDecimal(NatToString(n)) == Some(n as real)
  {
    DigitsValueOfNatToString(n);
  }
}
