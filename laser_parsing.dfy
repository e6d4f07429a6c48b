/**
 * The WebShop observation parser of the LASER agent: a line scanner that cuts an
 * observation into sections (buttons, page line, customization options, item details,
 * instruction, item block) and reads buttons, items, the page number and the viewed flags
 * out of them, plus the reader of a shopping instruction's price limit and keywords.
 *
 * Each regular expression of the parser is written out as a matcher over the string; the
 * comments name the pattern it decides. Backtracking is spelled out where it can change the
 * outcome.
 */
module LaserParsing {
  import opened Wrappers
  import opened Text

  datatype Item = Item(itemId: Option<string>, name: string, priceStr: string)

  datatype Button = Button(text: string, clicked: bool)

  datatype PageInfo = PageInfo(currentPage: nat, totalResults: Option<nat>)

  /** The dict `parse_observation` returns; an empty `page_info` dict is `None`. */
  datatype Parsed = Parsed(
    buttons: seq<Button>,
    items: seq<Item>,
    pageInfo: Option<PageInfo>,
    customizations: map<string, seq<string>>,
    descriptionViewed: bool,
    featuresViewed: bool,
    reviewsViewed: bool,
    rawObs: Option<string>,
    itemDetailsText: string)

  function Default(obs: Option<string>): Parsed {
    Parsed([], [], None, map[], false, false, false, obs, "")
  }

  const ButtonTag := "[button]"
  const ButtonEndTag := "[button_]"
  const ClickedTag := "[clicked button]"
  const ClickedEndTag := "[clicked button_]"

  // ---------------------------------------------------------------- item lines

  /** `re.match(r"\[button\]\s*(B\w+)\s*\[button_]", line)`: the id and where the match ends. */
  function ButtonIdMatch(line: string): (r: Option<(string, nat)>)
    ensures r.Some? ==> StartsWith(line, ButtonTag) && r.value.1 <= |line|
    ensures r.Some? ==> |r.value.0| >= 2 && r.value.0[0] == 'B'
    ensures r.Some? ==> forall k :: 0 <= k < |r.value.0| ==> IsWordChar(r.value.0[k])
  {
    if !StartsWith(line, ButtonTag) then None
    else
      var a := RunFrom(line, |ButtonTag|, IsSpace);
      if a < |line| && line[a] == 'B' then
        var b := RunFrom(line, a + 1, IsWordChar);
        var c := RunFrom(line, b, IsSpace);
        if b > a + 1 && OccursAt(line, ButtonEndTag, c) then Some((line[a..b], c + |ButtonEndTag|))
        else None
      else None
  }

  predicate IsButtonLine(line: string) {
    ButtonIdMatch(Strip(line)).Some?
  }

  predicate IsPriceChar(c: char) { IsDigit(c) || c == '.' || c == ',' }

  /** The group of `\$([\d\.,]+(?:\s*to\s*\$[\d\.,]+)?)`, `to` in any case, matched at `p`. */
  function PriceAt(s: string, p: nat): (r: Option<string>)
    requires p <= |s|
    ensures r.Some? ==> p < |s| && s[p] == '$' && r.value != [] && IsPriceChar(r.value[0])
  {
    if p < |s| && s[p] == '$' then
      var b := RunFrom(s, p + 1, IsPriceChar);
      if b == p + 1 then None
      else
        var c := RunFrom(s, b, IsSpace);
        if c + 2 <= |s| && Lower(s[c..c + 2]) == "to" then
          var d := RunFrom(s, c + 2, IsSpace);
          if d < |s| && s[d] == '$' && RunFrom(s, d + 1, IsPriceChar) > d + 1 then
            Some(s[p + 1..RunFrom(s, d + 1, IsPriceChar)])
          else Some(s[p + 1..b])
        else Some(s[p + 1..b])
    else None
  }

  /** `re.search` of the price pattern from `from`: the leftmost match. */
  function PriceSearch(s: string, from: nat): (r: Option<string>)
    requires from <= |s|
    ensures r.Some? ==> exists p :: from <= p <= |s| && PriceAt(s, p) == r
    ensures r.None? ==> forall p :: from <= p <= |s| ==> PriceAt(s, p).None?
    decreases |s| - from
  {
    if from == |s| then None
    else if PriceAt(s, from).Some? then PriceAt(s, from)
    else PriceSearch(s, from + 1)
  }

  /** What the price search after a button line makes of one stripped line. */
  datatype PriceLook = Found(price: string) | Stop | Next

  function PriceLookAt(cand: string): PriceLook {
    if StartsWith(cand, "$") then Found(Strip(cand[1..]))
    else if StartsWith(Lower(cand), "price:") && PriceSearch(cand, 0).Some? then
      Found(PriceSearch(cand, 0).value)
    else if StartsWith(cand, ButtonTag) then Stop
    else Next
  }

  /**
   * The price search of a button item, from line `j` on: the price text and the index at
   * which the search stopped. It stops at the first line that gives a price or starts with
   * `[button]`; the price is "" when none is found.
   */
  function PriceScan(lines: seq<string>, j: nat): (r: (string, nat))
    ensures r.1 >= j && (r.1 == j || r.1 <= |lines|)
    decreases |lines| - j
  {
    if j >= |lines| then ("", j)
    else
      match PriceLookAt(Strip(lines[j]))
      case Found(p) => (p, j)
      case Stop => ("", j)
      case Next => PriceScan(lines, j + 1)
  }

  /** The search passes over exactly lines that give no price and open no button. */
  lemma {:induction false} PriceScanSkips(lines: seq<string>, j: nat)
    ensures forall k :: j <= k < PriceScan(lines, j).1 ==> PriceLookAt(Strip(lines[k])).Next?
    decreases |lines| - j
  {
    if j < |lines| && PriceLookAt(Strip(lines[j])).Next? {
      assert PriceScan(lines, j) == PriceScan(lines, j + 1);
      PriceScanSkips(lines, j + 1);
      forall k | j < k < PriceScan(lines, j).1
        ensures PriceLookAt(Strip(lines[k])).Next?
      {
        assert j + 1 <= k < PriceScan(lines, j + 1).1;
      }
    } else {
      assert PriceScan(lines, j).1 == j;
    }
  }

  /** The search takes its price from the line it stops at; past the end it finds "". */
  lemma {:induction false} PriceScanStops(lines: seq<string>, j: nat)
    ensures var r := PriceScan(lines, j); r.1 < |lines| ==> !PriceLookAt(Strip(lines[r.1])).Next?
    ensures var r := PriceScan(lines, j);
      r.1 < |lines| ==> r.0 == match PriceLookAt(Strip(lines[r.1])) case Found(p) => p case _ => ""
    ensures var r := PriceScan(lines, j);
      r.1 >= |lines| ==> r.0 == "" && r.1 == if j >= |lines| then j else |lines|
    decreases |lines| - j
  {
    if j < |lines| && PriceLookAt(Strip(lines[j])).Next? {
      PriceScanStops(lines, j + 1);
    }
  }

  /** The name of a button item: the rest of its line, unless that is empty or looks like a
      price, in which case the next line. */
  function ButtonItemName(lines: seq<string>, i: nat, rest: string): string {
    if rest != "" && !StartsWith(Lower(rest), "price:") && !StartsWith(rest, "$") then rest
    else if i + 1 < |lines| then Strip(lines[i + 1])
    else ""
  }

  /** The id-less item a `Price:` or `$` line stands for, named by the line before it. */
  function LooseItems(lines: seq<string>, i: nat): (r: seq<Item>)
    requires i < |lines|
    ensures |r| <= 1 && forall k :: 0 <= k < |r| ==> r[k].itemId.None?
  {
    var line := Strip(lines[i]);
    if StartsWith(Lower(line), "price:") || StartsWith(line, "$") then
      var name := if i >= 1 then Strip(lines[i - 1]) else "";
      var price := if StartsWith(line, "$") then Strip(line[1..])
        else match PriceSearch(line, 0) case Some(p) => p case None => "";
      [Item(None, name, price)]
    else []
  }

  /** The items the item-block scan appends, scanning from line `i`. */
  function ItemScan(lines: seq<string>, i: nat): seq<Item>
    decreases |lines| - i
  {
    if i >= |lines| then []
    else
      var line := Strip(lines[i]);
      match ButtonIdMatch(line)
      case Some(m) =>
        var pj := PriceScan(lines, i + 2);
        // The price search starts two lines down, so `max(j, i + 1)` is `j`.
        [Item(Some(m.0), ButtonItemName(lines, i, Strip(line[m.1..])), pj.0)]
        + ItemScan(lines, pj.1)
      case None => LooseItems(lines, i) + ItemScan(lines, i + 1)
  }

  /** One line of the price search, checked as the loop checks it: whether the search stops
      here, and the price it then takes. */
  method PriceLine(cand: string) returns (stop: bool, price: string)
    ensures stop <==> !PriceLookAt(cand).Next?
    ensures stop ==> price == match PriceLookAt(cand) case Found(p) => p case _ => ""
  {
    if StartsWith(cand, "$") {
      return true, Strip(cand[1..]);
    }
    if StartsWith(Lower(cand), "price:") {
      var m := PriceSearch(cand, 0);
      if m.Some? {
        return true, m.value;
      }
    }
    if StartsWith(cand, ButtonTag) {
      return true, "";
    }
    return false, "";
  }

  /** The inner price loop: the price found from line `from` on and where it stopped. */
  method ScanPrice(lines: seq<string>, from: nat) returns (price: string, j: nat)
    ensures j >= from
    ensures (price, j) == PriceScan(lines, from)
  {
    price := "";
    j := from;
    while j < |lines|
      invariant from <= j && price == ""
      invariant PriceScan(lines, j) == PriceScan(lines, from)
      decreases |lines| - j
    {
      var stop, p := PriceLine(Strip(lines[j]));
      if stop {
        price := p;
        return;
      }
      j := j + 1;
    }
  }

  /** One step of the scan at a button line. */
  lemma ItemScanAtButton(lines: seq<string>, i: nat, m: (string, nat))
    requires i < |lines| && ButtonIdMatch(Strip(lines[i])) == Some(m)
    ensures ItemScan(lines, i)
      == [Item(Some(m.0), ButtonItemName(lines, i, Strip(Strip(lines[i])[m.1..])), PriceScan(lines, i + 2).0)]
         + ItemScan(lines, PriceScan(lines, i + 2).1)
  {
  }

  /** One step of the scan at any other line. */
  lemma ItemScanAtOther(lines: seq<string>, i: nat)
    requires i < |lines| && ButtonIdMatch(Strip(lines[i])).None?
    ensures ItemScan(lines, i) == LooseItems(lines, i) + ItemScan(lines, i + 1)
  {
  }

  /** What the scan still has to read after a button line, once its item is appended. */
  lemma ButtonStepKeeps(lines: seq<string>, i: nat, out: seq<Item>, total: seq<Item>,
                        m: (string, nat), price: string, j: nat)
    requires i < |lines| && out + ItemScan(lines, i) == total
    requires ButtonIdMatch(Strip(lines[i])) == Some(m)
    requires (price, j) == PriceScan(lines, i + 2)
    ensures out + [Item(Some(m.0), ButtonItemName(lines, i, Strip(Strip(lines[i])[m.1..])), price)]
      + ItemScan(lines, j) == total
  {
    var it := Item(Some(m.0), ButtonItemName(lines, i, Strip(Strip(lines[i])[m.1..])), price);
    ItemScanAtButton(lines, i, m);
    AppendRegroup(out, [it], ItemScan(lines, j), total);
  }

  /** `out + (a + b)` regrouped as `out + a + b`. */
  lemma AppendRegroup(out: seq<Item>, a: seq<Item>, b: seq<Item>, total: seq<Item>)
    requires out + (a + b) == total
    ensures out + a + b == total
  {
    assert out + a + b == out + (a + b);
  }

  /** What the scan still has to read after any other line, once its items are appended. */
  lemma OtherStepKeeps(lines: seq<string>, i: nat, out: seq<Item>, total: seq<Item>)
    requires i < |lines| && out + ItemScan(lines, i) == total
    requires ButtonIdMatch(Strip(lines[i])).None?
    ensures out + LooseItems(lines, i) + ItemScan(lines, i + 1) == total
  {
    ItemScanAtOther(lines, i);
  }

  /** The item-block scan: appends to `items` what `ItemScan` reads from all of `lines`. */
  method ParseItemBlock(lines: seq<string>, items: seq<Item>) returns (out: seq<Item>)
    ensures out == items + ItemScan(lines, 0)
  {
    out := items;
    var i := 0;
    var n := |lines|;
    while i < n
      invariant 0 <= i
      invariant out + ItemScan(lines, i) == items + ItemScan(lines, 0)
      decreases n - i
    {
      var line := Strip(lines[i]);
      var m := ButtonIdMatch(line);
      if m.Some? {
        var name := ButtonItemName(lines, i, Strip(line[m.value.1..]));
        var price, j := ScanPrice(lines, i + 2);
        ButtonStepKeeps(lines, i, out, items + ItemScan(lines, 0), m.value, price, j);
        out := out + [Item(Some(m.value.0), name, price)];
        i := if j > i + 1 then j else i + 1;
      } else {
        OtherStepKeeps(lines, i, out, items + ItemScan(lines, 0));
        out := out + LooseItems(lines, i);
        i := i + 1;
      }
    }
  }

  // ---------------------------------------------------------------- item lemmas

  /** The ids among some items. */
  function IdsOf(items: seq<Item>): seq<string> {
    if items == [] then []
    else (if items[0].itemId.Some? then [items[0].itemId.value] else []) + IdsOf(items[1..])
  }

  lemma {:induction false} IdsOfAppend(a: seq<Item>, b: seq<Item>)
    ensures IdsOf(a + b) == IdsOf(a) + IdsOf(b)
  {
    if a != [] {
      assert (a + b)[0] == a[0];
      assert (a + b)[1..] == a[1..] + b;
      IdsOfAppend(a[1..], b);
    } else {
      assert a + b == b;
    }
  }

  lemma IdsOfLoose(lines: seq<string>, i: nat)
    requires i < |lines|
    ensures IdsOf(LooseItems(lines, i)) == []
  {
    var l := LooseItems(lines, i);
    if l != [] {
      assert l[1..] == [];
    }
  }

  /** The ids of the `[button] B… [button_]` lines at index `i` or later, in order. */
  function ButtonIdsFrom(lines: seq<string>, i: nat): seq<string>
    decreases |lines| - i
  {
    if i >= |lines| then []
    else
      (match ButtonIdMatch(Strip(lines[i])) case Some(m) => [m.0] case None => [])
      + ButtonIdsFrom(lines, i + 1)
  }

  predicate NoAdjacentButtonLines(lines: seq<string>) {
    forall i :: 0 <= i < |lines| - 1 && IsButtonLine(lines[i]) ==> !IsButtonLine(lines[i + 1])
  }

  lemma PlainLineStep(lines: seq<string>, a: nat)
    requires a < |lines| && !IsButtonLine(lines[a])
    ensures ButtonIdsFrom(lines, a) == ButtonIdsFrom(lines, a + 1)
  {
  }

  lemma {:induction false} SkipPlainLines(lines: seq<string>, a: nat, b: nat)
    requires a <= b
    requires forall k :: a <= k < b && k < |lines| ==> !IsButtonLine(lines[k])
    ensures ButtonIdsFrom(lines, a) == ButtonIdsFrom(lines, b)
    decreases b - a
  {
    if a < b && a < |lines| {
      PlainLineStep(lines, a);
      SkipPlainLines(lines, a + 1, b);
    }
  }

  /** A line the price search passes over is not a button line. */
  lemma NextLineIsPlain(line: string)
    requires PriceLookAt(Strip(line)).Next?
    ensures !IsButtonLine(line)
  {
  }

  /**
   * When no two button lines are adjacent, the items that carry an id are exactly the
   * button lines, one each and in order.
   */
  lemma {:induction false} ItemIdsAreButtonIds(lines: seq<string>, i: nat)
    requires NoAdjacentButtonLines(lines)
    ensures IdsOf(ItemScan(lines, i)) == ButtonIdsFrom(lines, i)
    decreases |lines| - i
  {
    if i < |lines| {
      var line := Strip(lines[i]);
      match ButtonIdMatch(line)
      case Some(m) =>
        var pj := PriceScan(lines, i + 2);
        PriceScanSkips(lines, i + 2);
        var next := if pj.1 > i + 1 then pj.1 else i + 1;
        var head := [Item(Some(m.0), ButtonItemName(lines, i, Strip(line[m.1..])), pj.0)];
        assert ItemScan(lines, i) == head + ItemScan(lines, next);
        IdsOfAppend(head, ItemScan(lines, next));
        assert IdsOf(head) == [m.0];
        ItemIdsAreButtonIds(lines, next);
        forall k | i + 1 <= k < next && k < |lines|
          ensures !IsButtonLine(lines[k])
        {
          if k > i + 1 {
            NextLineIsPlain(lines[k]);
          }
        }
        SkipPlainLines(lines, i + 1, next);
      case None =>
        IdsOfAppend(LooseItems(lines, i), ItemScan(lines, i + 1));
        IdsOfLoose(lines, i);
        ItemIdsAreButtonIds(lines, i + 1);
    }
  }

  /** A button item takes the rest of its line as its name, or the next line when that rest is
      empty or price-like, and takes the price the search from two lines below finds. */
  lemma ButtonLineItem(lines: seq<string>, i: nat)
    requires i < |lines| && IsButtonLine(lines[i])
    ensures var m := ButtonIdMatch(Strip(lines[i])).value;
      var rest := Strip(Strip(lines[i])[m.1..]);
      var r := ItemScan(lines, i);
      |r| >= 1 && r[0].itemId == Some(m.0) && r[0].priceStr == PriceScan(lines, i + 2).0
      && (rest != "" && !StartsWith(Lower(rest), "price:") && !StartsWith(rest, "$") ==> r[0].name == rest)
      && (rest == "" && i + 1 < |lines| ==> r[0].name == Strip(lines[i + 1]))
  {
  }

  /**
   * A button line directly followed by another one: the second line becomes the first
   * item's name and the scan resumes two lines down at the earliest, so the second line's id
   * is never read.
   */
  lemma AdjacentButtonLineSkipped(lines: seq<string>, i: nat)
    requires i + 1 < |lines| && IsButtonLine(lines[i]) && IsButtonLine(lines[i + 1])
    requires var m := ButtonIdMatch(Strip(lines[i])).value; Strip(Strip(lines[i])[m.1..]) == ""
    ensures var m := ButtonIdMatch(Strip(lines[i])).value;
      var j := PriceScan(lines, i + 2).1;
      j >= i + 2
      && ItemScan(lines, i)
         == [Item(Some(m.0), Strip(lines[i + 1]), PriceScan(lines, i + 2).0)] + ItemScan(lines, j)
  {
  }

  /** A line opening with `$` or `price:` in any case does not open with `[button]`. */
  lemma PriceOpenerIsNoButton(c: string)
    requires StartsWith(c, "$") || StartsWith(Lower(c), "price:")
    ensures !StartsWith(c, ButtonTag)
  {
    if StartsWith(c, "$") {
      assert c[0] == '$';
    } else {
      assert Lower(c)[0] == 'p';
    }
  }

  /** A line the price search accepts does not open with `[button]`. */
  lemma FoundLineIsNoButton(c: string)
    requires PriceLookAt(c).Found?
    ensures ButtonIdMatch(c).None?
  {
    PriceOpenerIsNoButton(c);
  }

  /** On a line the price search accepts, the id-less branch reads the same price. */
  lemma LooseItemsAtFound(lines: seq<string>, j: nat)
    requires 1 <= j < |lines| && PriceLookAt(Strip(lines[j])).Found?
    ensures LooseItems(lines, j) == [Item(None, Strip(lines[j - 1]), PriceLookAt(Strip(lines[j])).price)]
  {
  }

  /** A sequence that is `x` and then `y` and then `tail`. */
  lemma TwoHeads<T>(r: seq<T>, a: seq<T>, x: T, y: T, tail: seq<T>)
    requires r == [x] + a && a == [y] + tail
    ensures |r| >= 2 && r[0] == x && r[1] == y && r[2..] == tail
  {
    assert r == [x, y] + tail;
  }

  /**
   * After a button item whose price was found on line `j`, the scan resumes at line `j`, and
   * the id-less branch reads that price line once more: an extra item with no id, the line
   * above the price as its name, and the same price.
   */
  lemma PriceLineReadTwice(lines: seq<string>, i: nat, j: nat)
    requires i < |lines| && IsButtonLine(lines[i])
    requires j == PriceScan(lines, i + 2).1 && j < |lines| && PriceLookAt(Strip(lines[j])).Found?
    ensures |ItemScan(lines, i)| >= 2 && ItemScan(lines, i)[0].itemId.Some?
    ensures ItemScan(lines, i)[1] == Item(None, Strip(lines[j - 1]), ItemScan(lines, i)[0].priceStr)
    ensures ItemScan(lines, i)[2..] == ItemScan(lines, j + 1)
  {
    var m := ButtonIdMatch(Strip(lines[i])).value;
    ItemScanAtButton(lines, i, m);
    var price := PriceLookAt(Strip(lines[j])).price;
    PriceScanStops(lines, i + 2);
    assert PriceScan(lines, i + 2).0 == price;
    FoundLineIsNoButton(Strip(lines[j]));
    ItemScanAtOther(lines, j);
    LooseItemsAtFound(lines, j);
    var head := Item(Some(m.0), ButtonItemName(lines, i, Strip(Strip(lines[i])[m.1..])), price);
    var loose := Item(None, Strip(lines[j - 1]), price);
    TwoHeads(ItemScan(lines, i), ItemScan(lines, j), head, loose, ItemScan(lines, j + 1));
  }

  // ---------------------------------------------------------------- buttons

  /** The closing part of a lazy `(.*?)` group in the three patterns that use one. */
  datatype Closer =
    | ButtonEnd   // `\s*\[(?:clicked )?button_]`
    | OptionEnd   // `\s*\\[button_\\\\]\n`: a backslash, one of `button_\`, a newline
    | ChoiceEnd   // `\s*\\[button_]`: a backslash, one of `button_`

  /** Where the closer matches when the lazy group ends at `e`: the end of the whole match. */
  function CloseAt(k: Closer, s: string, e: nat): (r: Option<nat>)
    requires e <= |s|
    ensures r.Some? ==> e < r.value <= |s|
  {
    var f := RunFrom(s, e, IsSpace);
    match k
    case ButtonEnd =>
      if OccursAt(s, ButtonEndTag, f) then Some(f + |ButtonEndTag|)
      else if OccursAt(s, ClickedEndTag, f) then Some(f + |ClickedEndTag|)
      else None
    case OptionEnd =>
      if f + 2 < |s| && s[f] == '\\' && s[f + 1] in "button_\\" && s[f + 2] == '\n' then Some(f + 3)
      else None
    case ChoiceEnd =>
      if f + 1 < |s| && s[f] == '\\' && s[f + 1] in "button_" then Some(f + 2) else None
  }

  /**
   * A lazy `(.*?)` starting at `e` followed by a closer: the end of the group (the first
   * end at which the closer matches, the group holding no newline) and the end of the match.
   */
  function LazyUntil(k: Closer, s: string, e: nat): (r: Option<(nat, nat)>)
    requires e <= |s|
    ensures r.Some? ==> e <= r.value.0 < r.value.1 <= |s|
    ensures r.Some? ==> forall x :: e <= x < r.value.0 ==> s[x] != '\n'
    ensures r.Some? ==> CloseAt(k, s, r.value.0) == Some(r.value.1)
    decreases |s| - e
  {
    match CloseAt(k, s, e)
    case Some(end) => Some((e, end))
    case None => if e < |s| && s[e] != '\n' then LazyUntil(k, s, e + 1) else None
  }

  /**
   * One match of `\[(clicked )?button\]\s*(.*?)\s*\[(?:clicked )?button_]` at `p`. Giving
   * the first `\s*` back cannot make the group end earlier, so it is taken greedily.
   */
  function ButtonAt(s: string, p: nat): (r: Option<(Button, nat)>)
    requires p <= |s|
    ensures r.Some? ==> p < r.value.1 <= |s|
    ensures r.Some? ==> (r.value.0.clicked <==> OccursAt(s, ClickedTag, p))
    ensures r.Some? ==> r.value.0.clicked || OccursAt(s, ButtonTag, p)
    ensures r.Some? ==> '\n' !in r.value.0.text
  {
    var clicked := OccursAt(s, ClickedTag, p);
    if !clicked && !OccursAt(s, ButtonTag, p) then None
    else ButtonTextFrom(s, RunFrom(s, p + if clicked then |ClickedTag| else |ButtonTag|, IsSpace), clicked)
  }

  /** The `\s*(.*?)\s*\[(?:clicked )?button_]` part of the button pattern, from `a`. */
  function ButtonTextFrom(s: string, a: nat, clicked: bool): (r: Option<(Button, nat)>)
    requires a <= |s|
    ensures r.Some? ==> a < r.value.1 <= |s| && r.value.0.clicked == clicked
    ensures r.Some? ==> '\n' !in r.value.0.text
  {
    match LazyUntil(ButtonEnd, s, a)
    case None => None
    case Some(g) =>
      var t := Strip(s[a..g.0]);
      assert '\n' !in t by { StripInside(s[a..g.0]); }
      Some((Button(t, clicked), g.1))
  }


  /** The characters `Strip` keeps are characters of its argument. */
  lemma StripInside(s: string)
    ensures forall c :: c in Strip(s) ==> c in s
  {
    var a := PrefixRun(s, IsSpace);
    var t := s[a..];
    assert Strip(s) == t[..|t| - SuffixRun(t, IsSpace)];
    forall c | c in Strip(s)
      ensures c in s
    {
      var x :| 0 <= x < |Strip(s)| && Strip(s)[x] == c;
      assert s[a + x] == c;
    }
  }

  /** `re.findall` of the button pattern from `p`, as `(text, clicked)` pairs. */
  function ButtonsIn(s: string, p: nat): (r: seq<Button>)
    requires p <= |s|
    ensures forall k :: 0 <= k < |r| ==> '\n' !in r[k].text
    decreases |s| - p
  {
    if p == |s| then []
    else
      match ButtonAt(s, p)
      case Some(m) => [m.0] + ButtonsIn(s, m.1)
      case None => ButtonsIn(s, p + 1)
  }

  // ---------------------------------------------------------------- page line

  const TotalLabel := " (Total results: "

  /** The optional ` \(Total results: (\d+)\)` after the page number. */
  function TotalAt(s: string, q: nat): Option<nat>
    requires q <= |s|
  {
    if OccursAt(s, TotalLabel, q) then
      var a := q + |TotalLabel|;
      var b := RunFrom(s, a, IsDigit);
      if b > a && b < |s| && s[b] == ')' then Some(DigitsValue(s[a..b])) else None
    else None
  }

  /** `Page (\d+)(?: \(Total results: (\d+)\))?` matched at `p`. */
  function PageAt(s: string, p: nat): Option<PageInfo>
    requires p <= |s|
  {
    if OccursAt(s, "Page ", p) && p + 5 < |s| && IsDigit(s[p + 5]) then
      var q := RunFrom(s, p + 5, IsDigit);
      Some(PageInfo(DigitsValue(s[p + 5..q]), TotalAt(s, q)))
    else None
  }

  /** `re.search` of the page pattern from `from`. */
  function PageSearch(s: string, from: nat): (r: Option<PageInfo>)
    requires from <= |s|
    ensures r.Some? ==> exists p :: from <= p <= |s| && PageAt(s, p) == r
    ensures r.None? ==> forall p :: from <= p <= |s| ==> PageAt(s, p).None?
    decreases |s| - from
  {
    if from == |s| then None
    else if PageAt(s, from).Some? then PageAt(s, from)
    else PageSearch(s, from + 1)
  }

  function TotalText(total: Option<nat>): string {
    match total
    case None => ""
    case Some(m) => TotalLabel + NatToString(m) + ")"
  }

  /** The decimal digits of `n` at `p`, followed by a non-digit or the end, read as `n`. */
  lemma NumberAt(s: string, p: nat, n: nat)
    requires p + |NatToString(n)| <= |s| && s[p..p + |NatToString(n)|] == NatToString(n)
    requires p + |NatToString(n)| < |s| ==> !IsDigit(s[p + |NatToString(n)|])
    ensures RunFrom(s, p, IsDigit) == p + |NatToString(n)|
    ensures DigitsValue(s[p..p + |NatToString(n)|]) == n
  {
    var ds := NatToString(n);
    var q := p + |ds|;
    assert forall j :: p <= j < q ==> IsDigit(s[j]) by {
      forall j | p <= j < q ensures IsDigit(s[j]) { assert s[j] == ds[j - p]; }
    }
    RunAtLeast(s, p, q, IsDigit);
    DigitsValueOfNatToString(n);
  }

  /** ` (Total results: M)` at `q` reads as `M`. */
  lemma TotalAtSome(s: string, q: nat, m: nat, tail: string)
    requires q <= |s| && s[q..] == TotalText(Some(m)) + tail
    ensures TotalAt(s, q) == Some(m)
  {
    var t, ds := s[q..], NatToString(m);
    var a := q + |TotalLabel|;
    var b := a + |ds|;
    assert t == TotalLabel + ds + (")" + tail);
    PieceSlices(TotalLabel, ds, ")" + tail);
    assert s[q..a] == t[..|TotalLabel|];
    assert s[a..b] == t[|TotalLabel|..|TotalLabel| + |ds|];
    assert s[b] == t[|TotalLabel| + |ds|..][0];
    TotalAtParts(s, q, m);
  }

  lemma TotalAtParts(s: string, q: nat, m: nat)
    requires q + |TotalLabel| + |NatToString(m)| < |s|
    requires s[q..q + |TotalLabel|] == TotalLabel
    requires s[q + |TotalLabel|..q + |TotalLabel| + |NatToString(m)|] == NatToString(m)
    requires s[q + |TotalLabel| + |NatToString(m)|] == ')'
    ensures TotalAt(s, q) == Some(m)
  {
    NumberAt(s, q + |TotalLabel|, m);
  }

  /** Text that does not start with ` (Total results: ` carries no total. */
  lemma TotalAtNone(s: string, q: nat)
    requires q <= |s| && !StartsWith(s[q..], TotalLabel)
    ensures TotalAt(s, q).None?
  {
  }

  /** The page pattern matched at the start of `s`, given the three parts of `s`. */
  lemma PageLineReadParts(s: string, n: nat, total: Option<nat>, tail: string)
    requires total.None? ==> tail == [] || (!IsDigit(tail[0]) && !StartsWith(tail, TotalLabel))
    requires 5 + |NatToString(n)| <= |s|
    requires s[..5] == "Page " && s[5..5 + |NatToString(n)|] == NatToString(n)
    requires s[5 + |NatToString(n)|..] == TotalText(total) + tail
    ensures PageAt(s, 0) == Some(PageInfo(n, total))
  {
    var ds := NatToString(n);
    var q := 5 + |ds|;
    assert s[5] == ds[0];
    assert q < |s| ==> !IsDigit(s[q]) by {
      if q < |s| {
        assert s[q] == s[q..][0];
        if total.Some? { assert s[q] == ' '; } else { assert s[q] == tail[0]; }
      }
    }
    NumberAt(s, 5, n);
    match total {
      case None =>
        assert s[q..] == tail;
        TotalAtNone(s, q);
      case Some(m) => TotalAtSome(s, q, m, tail);
    }
  }

  /** A page line `Page N (Total results: M)` reads as `(N, M)`, and `Page N` alone as
      `(N, None)`. */
  lemma PageLineRead(n: nat, total: Option<nat>, tail: string)
    requires total.None? ==> tail == [] || (!IsDigit(tail[0]) && !StartsWith(tail, TotalLabel))
    ensures PageSearch("Page " + NatToString(n) + TotalText(total) + tail, 0)
      == Some(PageInfo(n, total))
  {
    var ds, rest := NatToString(n), TotalText(total) + tail;
    var s := "Page " + ds + rest;
    assert s == "Page " + NatToString(n) + TotalText(total) + tail;
    PieceSlices("Page ", ds, rest);
    PageLineReadParts(s, n, total, tail);
  }

  /** A run that holds up to `q` and stops there ends at `q`. */
  lemma {:induction false} RunAtLeast(s: string, p: nat, q: nat, ok: char -> bool)
    requires p <= q <= |s|
    requires forall j :: p <= j < q ==> ok(s[j])
    requires q < |s| ==> !ok(s[q])
    ensures RunFrom(s, p, ok) == q
    decreases q - p
  {
    if p < q {
      RunAtLeast(s, p + 1, q, ok);
    }
  }

  // ---------------------------------------------------------------- customization block

  predicate IsW(c: char) { c == 'w' }

  /** What the doubled backslashes make of `\w+`: a backslash followed by letters `w`. */
  predicate IsBackslashW(t: string) {
    |t| >= 2 && t[0] == '\\' && forall k :: 1 <= k < |t| ==> t[k] == 'w'
  }

  /** One repetition of `\s*\\[button\\]\s*.*?\s*\\[button_\\\\]\n` at `x`: where it ends. */
  function OptionLineAt(s: string, x: nat): (r: Option<nat>)
    requires x <= |s|
    ensures r.Some? ==> x < r.value <= |s|
  {
    var y := RunFrom(s, x, IsSpace);
    if y + 1 < |s| && s[y] == '\\' && s[y + 1] in "button\\" then
      match LazyUntil(OptionEnd, s, RunFrom(s, y + 2, IsSpace))
      case Some(g) => Some(g.1)
      case None => None
    else None
  }

  /** A greedy `(?:…)+` of option lines from `x`: the end of the last repetition. */
  function OptionLinesFrom(s: string, x: nat): (r: nat)
    requires x <= |s|
    ensures x <= r <= |s|
    decreases |s| - x
  {
    match OptionLineAt(s, x)
    case Some(e) => OptionLinesFrom(s, e)
    case None => x
  }

  /**
   * `^(\\w+):\n((?:…)+)` in multi-line mode at `p`: the type, the choices text and the end.
   * The type holds no whitespace, so stripping it changes nothing.
   */
  function CustomizationAt(s: string, p: nat): (r: Option<(string, string, nat)>)
    requires p <= |s|
    ensures r.Some? ==> IsBackslashW(r.value.0) && p < r.value.2 <= |s|
  {
    if (p == 0 || s[p - 1] == '\n') && p < |s| && s[p] == '\\' then
      var q := RunFrom(s, p + 1, IsW);
      if q > p + 1 && q + 1 < |s| && s[q] == ':' && s[q + 1] == '\n' then
        var e := OptionLinesFrom(s, q + 2);
        if e > q + 2 then Some((s[p..q], s[q + 2..e], e)) else None
      else None
    else None
  }

  /** One match of `\\[button\\]\s*(.*?)\s*\\[button_]` at `p`: the stripped choice and the end. */
  function ChoiceAt(s: string, p: nat): (r: Option<(string, nat)>)
    requires p <= |s|
    ensures r.Some? ==> p < r.value.1 <= |s|
  {
    if p + 1 < |s| && s[p] == '\\' && s[p + 1] in "button\\" then
      var a := RunFrom(s, p + 2, IsSpace);
      match LazyUntil(ChoiceEnd, s, a)
      case Some(g) => Some((Strip(s[a..g.0]), g.1))
      case None => None
    else None
  }

  function ChoicesIn(s: string, p: nat): seq<string>
    requires p <= |s|
    decreases |s| - p
  {
    if p == |s| then []
    else
      match ChoiceAt(s, p)
      case Some(m) => [m.0] + ChoicesIn(s, m.1)
      case None => ChoicesIn(s, p + 1)
  }

  /** The `finditer` loop of the customization block from `p`, writing into `acc`. Every key it
      adds is a backslash followed by `w`s. */
  function CustomizationsIn(s: string, p: nat, acc: map<string, seq<string>>)
    : (r: map<string, seq<string>>)
    requires p <= |s|
    ensures forall t :: t in r ==> t in acc || IsBackslashW(t)
    ensures forall t :: t in acc ==> t in r
    decreases |s| - p
  {
    if p == |s| then acc
    else
      match CustomizationAt(s, p)
      case Some(m) => CustomizationsIn(s, m.2, acc[m.0 := ChoicesIn(m.1, 0)])
      case None => CustomizationsIn(s, p + 1, acc)
  }

  // ---------------------------------------------------------------- sections

  datatype Section =
    | ButtonsSection
    | PageSection
    | CustomizationSection
    | DetailsSection
    | InstructionSection
    | ItemSection
    | OtherSection

  /** `re.match(r"^\\w+:\s*$", s)`: a backslash, letters `w`, a colon, then only whitespace. */
  predicate CustomizationHeader(s: string) {
    |s| >= 1 && s[0] == '\\'
    && var q := RunFrom(s, 1, IsW);
       q > 1 && q < |s| && s[q] == ':' && RunFrom(s, q + 1, IsSpace) == |s|
  }

  /** `re.match(r"Page \d+( \(Total results: \d+\))?", s)`: the optional part never decides. */
  predicate PageHeader(s: string) {
    StartsWith(s, "Page ") && |s| > 5 && IsDigit(s[5])
  }

  predicate MentionsDetails(s: string) {
    Contains(s, "description:") || Contains(s, "features:") || Contains(s, "reviews:")
  }

  /** The section a non-blank stripped line opens by itself, if any. */
  function OpenedBy(s: string): Option<Section> {
    if StartsWith(s, ButtonTag) || StartsWith(s, ClickedTag) then Some(ButtonsSection)
    else if PageHeader(s) then Some(PageSection)
    else if CustomizationHeader(s) && !StartsWith(s, "Instruction:") then Some(CustomizationSection)
    else if MentionsDetails(s) then Some(DetailsSection)
    else if Contains(s, "Instruction:") then Some(InstructionSection)
    else None
  }

  /** The section an ordinary line starts when no section is open. */
  function FreshSection(s: string): Section {
    if !(Contains(s, "Instruction:") || Contains(s, "Page ") || MentionsDetails(s))
       && !StartsWith(s, "[")
    then ItemSection
    else OtherSection
  }

  /** A details field counts as viewed when its label occurs without the page's placeholder. */
  predicate Viewed(block: string, field: string, placeholder: string) {
    Contains(block, field) && !Contains(block, placeholder)
  }

  /** `process_section`: what one finished section adds to the parse. */
  function ProcessSection(kind: Section, lines: seq<string>, d: Parsed): (r: Parsed)
    ensures r.rawObs == d.rawObs
    ensures forall t :: t in r.customizations ==> t in d.customizations || IsBackslashW(t)
  {
    if lines == [] then d
    else
      var block := Join(lines, "\n");
      match kind
      case ButtonsSection =>
        d.(buttons := d.buttons + ButtonsIn(block, 0), items := d.items + ItemScan(lines, 0))
      case PageSection =>
        (match PageSearch(block, 0) case Some(p) => d.(pageInfo := Some(p)) case None => d)
      case ItemSection => d.(items := d.items + ItemScan(lines, 0))
      case CustomizationSection =>
        d.(customizations := CustomizationsIn(block, 0, d.customizations))
      case DetailsSection =>
        d.(itemDetailsText := block,
           descriptionViewed := d.descriptionViewed
             || Viewed(block, "description:", "description: (if this is shown"),
           featuresViewed := d.featuresViewed
             || Viewed(block, "features:", "features: (if this is shown"),
           reviewsViewed := d.reviewsViewed
             || Viewed(block, "reviews:", "reviews: (if this is shown"))
      case _ => d
  }

  /** The scanner's state: the open section, its lines so far, and the parse so far. */
  datatype Scan = Scan(current: Option<Section>, lines: seq<string>, data: Parsed)

  function Close(st: Scan): Parsed {
    if st.current.Some? then ProcessSection(st.current.value, st.lines, st.data) else st.data
  }

  /** One iteration of the line loop. */
  function Step(st: Scan, line: string): Scan {
    var s := Strip(line);
    if s == [] then
      if st.current.Some? then Scan(None, [], Close(st)) else st
    else
      match OpenedBy(s)
      case Some(k) =>
        if st.current != Some(k) then Scan(Some(k), [line], Close(st))
        else Scan(st.current, st.lines + [line], st.data)
      case None =>
        if st.current.None? then Scan(Some(FreshSection(s)), st.lines + [line], st.data)
        else Scan(st.current, st.lines + [line], st.data)
  }

  function ScanLines(lines: seq<string>, st: Scan): Scan
    decreases |lines|
  {
    if lines == [] then st else ScanLines(lines[1..], Step(st, lines[0]))
  }

  /** `parse_observation`. */
  function ParseObservation(obs: Option<string>): Parsed {
    if obs.None? || Strip(obs.value) == [] then Default(obs)
    else Close(ScanLines(SplitLines(obs.value), Scan(None, [], Default(obs))))
  }

  /** The parse of a missing or blank observation is the default structure. */
  lemma BlankObservation(obs: Option<string>)
    requires obs.None? || Strip(obs.value) == []
    ensures var r := ParseObservation(obs);
      r.buttons == [] && r.items == [] && r.pageInfo.None? && r.customizations == map[]
      && !r.descriptionViewed && !r.featuresViewed && !r.reviewsViewed
      && r.rawObs == obs && r.itemDetailsText == ""
  {
  }

  /** What every scanner state keeps: the raw observation and backslash-`w` customization keys. */
  predicate ScanKeeps(st: Scan, obs: Option<string>) {
    st.data.rawObs == obs && forall t :: t in st.data.customizations ==> IsBackslashW(t)
  }

  lemma {:induction false} ScanLinesKeeps(lines: seq<string>, st: Scan, obs: Option<string>)
    requires ScanKeeps(st, obs)
    ensures ScanKeeps(ScanLines(lines, st), obs)
    decreases |lines|
  {
    if lines != [] {
      ScanLinesKeeps(lines[1..], Step(st, lines[0]), obs);
    }
  }

  /**
   * The parse keeps the raw observation, and a customization type is only ever a literal
   * backslash followed by `w`s: the pattern's doubled backslashes never match a word label.
   */
  lemma ParseKeepsRawAndCustomizationKeys(obs: Option<string>)
    ensures ParseObservation(obs).rawObs == obs
    ensures forall t :: t in ParseObservation(obs).customizations ==> IsBackslashW(t)
  {
    if !(obs.None? || Strip(obs.value) == []) {
      ScanLinesKeeps(SplitLines(obs.value), Scan(None, [], Default(obs)), obs);
    }
  }

  /** A label such as `color:` never opens a customization section. */
  lemma WordLabelIsNotCustomization(name: string)
    requires |name| > 0 && forall k :: 0 <= k < |name| ==> IsWordChar(name[k])
    ensures OpenedBy(name + ":") != Some(CustomizationSection)
  {
    assert (name + ":")[0] == name[0];
  }

  /** An item-details section sets a viewed flag iff its text names the field without the
      page's placeholder, and never clears one. */
  lemma DetailsFlags(lines: seq<string>, d: Parsed)
    requires lines != []
    ensures var r := ProcessSection(DetailsSection, lines, d);
      var block := Join(lines, "\n");
      r.itemDetailsText == block
      && (r.descriptionViewed <==>
            d.descriptionViewed
            || (Contains(block, "description:") && !Contains(block, "description: (if this is shown")))
      && (r.featuresViewed <==>
            d.featuresViewed
            || (Contains(block, "features:") && !Contains(block, "features: (if this is shown")))
      && (r.reviewsViewed <==>
            d.reviewsViewed
            || (Contains(block, "reviews:") && !Contains(block, "reviews: (if this is shown")))
  {
  }

  /** `process_section` as a method: the item scans run as loops. */
  method ProcessSectionM(kind: Section, lines: seq<string>, d: Parsed) returns (r: Parsed)
    ensures r == ProcessSection(kind, lines, d)
  {
    if lines == [] {
      return d;
    }
    var block := Join(lines, "\n");
    match kind {
      case ButtonsSection =>
        var items := ParseItemBlock(lines, d.items);
        r := d.(buttons := d.buttons + ButtonsIn(block, 0), items := items);
      case ItemSection =>
        var items := ParseItemBlock(lines, d.items);
        r := d.(items := items);
      case _ =>
        r := ProcessSection(kind, lines, d);
    }
  }

  method CloseM(st: Scan) returns (r: Parsed)
    ensures r == Close(st)
  {
    if st.current.Some? {
      r := ProcessSectionM(st.current.value, st.lines, st.data);
    } else {
      r := st.data;
    }
  }

  /** One iteration of the line loop, closing a finished section with the item-scan loops. */
  method StepM(st: Scan, line: string) returns (next: Scan)
    ensures next == Step(st, line)
  {
    var s := Strip(line);
    if s == [] {
      if st.current.Some? {
        var d := CloseM(st);
        next := Scan(None, [], d);
      } else {
        next := st;
      }
    } else {
      var k := OpenedBy(s);
      if k.Some? && st.current != k {
        var d := CloseM(st);
        next := Scan(k, [line], d);
      } else if k.None? && st.current.None? {
        next := Scan(Some(FreshSection(s)), st.lines + [line], st.data);
      } else {
        next := Scan(st.current, st.lines + [line], st.data);
      }
    }
  }

  lemma ScanLinesStep(lines: seq<string>, i: nat, st: Scan)
    requires i < |lines|
    ensures ScanLines(lines[i..], st) == ScanLines(lines[i + 1..], Step(st, lines[i]))
  {
    assert lines[i..][1..] == lines[i + 1..];
  }

  /** The line loop of `parse_observation`. */
  method ParseObservationM(obs: Option<string>) returns (r: Parsed)
    ensures r == ParseObservation(obs)
  {
    if obs.None? || Strip(obs.value) == [] {
      return Default(obs);
    }
    var lines := SplitLines(obs.value);
    var st := Scan(None, [], Default(obs));
    var i := 0;
    while i < |lines|
      invariant 0 <= i <= |lines|
      invariant ScanLines(lines[i..], st) == ScanLines(lines, Scan(None, [], Default(obs)))
    {
      ScanLinesStep(lines, i, st);
      st := StepM(st, lines[i]);
      i := i + 1;
    }
    assert lines[i..] == [];
    r := CloseM(st);
  }

  // ---------------------------------------------------------------- target instruction

  datatype Target = Target(keywords: seq<string>, maxPrice: Option<real>)

  predicate IsDigitOrDot(c: char) { IsDigit(c) || c == '.' }

  /** The separators of `re.split(r"\s+|[.,;!?]", …)`. */
  predicate IsKeywordSep(c: char) { IsSpace(c) || c in ".,;!?" }

  /**
   * `price (?:lower than|under) ([\d\.]+)(?: dollars)?`, ignoring case, at the start of `s`:
   * the number text and the length of the match.
   */
  function PricePhrase(s: string): (r: Option<(string, nat)>)
    ensures r.Some? ==> 0 < r.value.1 <= |s| && r.value.0 != []
    ensures r.Some? ==> forall k :: 0 <= k < |r.value.0| ==> IsDigitOrDot(r.value.0[k])
  {
    if |s| >= 6 && Lower(s[..6]) == "price " then
      var q :=
        if |s| >= 16 && Lower(s[6..16]) == "lower than" then 16
        else if |s| >= 11 && Lower(s[6..11]) == "under" then 11
        else 0;
      if q > 0 && q < |s| && s[q] == ' ' then
        var t := RunFrom(s, q + 1, IsDigitOrDot);
        if t > q + 1 then
          Some((s[q + 1..t], if t + 8 <= |s| && Lower(s[t..t + 8]) == " dollars" then t + 8 else t))
        else None
      else None
    else None
  }

  /** `re.search` of the price phrase: the number text of its leftmost occurrence. */
  function FirstPricePhrase(s: string): (r: Option<string>)
    decreases |s|
  {
    if s == [] then None
    else if PricePhrase(s).Some? then Some(PricePhrase(s).value.0)
    else FirstPricePhrase(s[1..])
  }

  /** `re.sub` of the price phrase with "": every non-overlapping occurrence removed. */
  function WithoutPricePhrases(s: string): (r: string)
    ensures |r| <= |s|
    decreases |s|
  {
    if s == [] then []
    else
      match PricePhrase(s)
      case Some(m) => WithoutPricePhrases(s[m.1..])
      case None => [s[0]] + WithoutPricePhrases(s[1..])
  }

  /** `_parse_target_instruction`: the limit is the number of the leftmost price phrase, and
      the keywords are the tokens of the instruction once every phrase is removed; a number
      `float` rejects (two dots) raises ValueError. */
  function ParseTargetInstruction(instruction: string): (r: Result<Target>)
    ensures r.Ok? ==> forall k :: 0 <= k < |r.value.keywords| ==> |r.value.keywords[k]| > 0
    ensures r.Ok? ==> forall k, j :: 0 <= k < |r.value.keywords| && 0 <= j < |r.value.keywords[k]|
                        ==> !IsKeywordSep(r.value.keywords[k][j])
    ensures r.Err? <==> FirstPricePhrase(instruction).Some? && ParseDecimal(FirstPricePhrase(instruction).value).None?
    ensures r.Ok? ==> (r.value.maxPrice.Some? <==> FirstPricePhrase(instruction).Some?)
    ensures r.Ok? && FirstPricePhrase(instruction).Some? ==>
      r.value.maxPrice == ParseDecimal(FirstPricePhrase(instruction).value)
    ensures r.Ok? ==> r.value.keywords == TokensBy(WithoutPricePhrases(instruction), IsKeywordSep)
  {
    match FirstPricePhrase(instruction)
    case None =>
      NoFirstPhraseNothingRemoved(instruction);
      Ok(Target(TokensBy(instruction, IsKeywordSep), None))
    case Some(g) =>
      match ParseDecimal(g)
      case None => Err("ValueError")
      case Some(v) => Ok(Target(TokensBy(WithoutPricePhrases(instruction), IsKeywordSep), Some(v)))
  }

  /** The phrase is found iff it occurs somewhere. */
  lemma {:induction false} FirstPricePhraseIff(s: string)
    ensures FirstPricePhrase(s).Some? <==> exists k :: 0 <= k <= |s| && PricePhrase(s[k..]).Some?
    decreases |s|
  {
    if s != [] && PricePhrase(s).Some? {
      assert s[0..] == s;
    } else if s != [] {
      FirstPricePhraseIff(s[1..]);
      if exists k :: 0 <= k <= |s| && PricePhrase(s[k..]).Some? {
        var k :| 0 <= k <= |s| && PricePhrase(s[k..]).Some?;
        assert k != 0 by { assert s[0..] == s; }
        assert s[1..][k - 1..] == s[k..];
      }
      if exists k :: 0 <= k <= |s[1..]| && PricePhrase(s[1..][k..]).Some? {
        var k :| 0 <= k <= |s[1..]| && PricePhrase(s[1..][k..]).Some?;
        assert s[1..][k..] == s[k + 1..];
      }
    } else {
      assert forall k :: 0 <= k <= |s| ==> s[k..] == [];
    }
  }

  /** Text without the phrase is left as it is ... */
  lemma {:induction false} NoPhraseNothingRemoved(s: string)
    requires forall k :: 0 <= k <= |s| ==> PricePhrase(s[k..]).None?
    ensures WithoutPricePhrases(s) == s
    decreases |s|
  {
    if s != [] {
      assert s[0..] == s;
      forall k | 0 <= k <= |s[1..]| ensures PricePhrase(s[1..][k..]).None? {
        assert s[1..][k..] == s[k + 1..];
      }
      NoPhraseNothingRemoved(s[1..]);
    }
  }

  /** When the search finds no phrase, the substitution removes nothing. */
  lemma NoFirstPhraseNothingRemoved(s: string)
    requires FirstPricePhrase(s).None?
    ensures WithoutPricePhrases(s) == s
  {
    FirstPricePhraseIff(s);
    NoPhraseNothingRemoved(s);
  }

  /** The search reports the number of the leftmost phrase: one starts at `k`, none before. */
  lemma {:induction false} FirstPricePhraseLeftmost(s: string)
    requires FirstPricePhrase(s).Some?
    ensures exists k :: 0 <= k < |s| && PricePhrase(s[k..]).Some?
                     && PricePhrase(s[k..]).value.0 == FirstPricePhrase(s).value
                     && forall j :: 0 <= j < k ==> PricePhrase(s[j..]).None?
    decreases |s|
  {
    if PricePhrase(s).Some? {
      assert s[0..] == s;
    } else {
      FirstPricePhraseLeftmost(s[1..]);
      var k :| 0 <= k < |s[1..]| && PricePhrase(s[1..][k..]).Some?
        && PricePhrase(s[1..][k..]).value.0 == FirstPricePhrase(s[1..]).value
        && forall j :: 0 <= j < k ==> PricePhrase(s[1..][j..]).None?;
      assert s[1..][k..] == s[k + 1..];
      forall j | 0 <= j < k + 1 ensures PricePhrase(s[j..]).None? {
        if j == 0 { assert s[0..] == s; } else { assert s[1..][j - 1..] == s[j..]; }
      }
    }
  }

  /**
   * The positions of `s[i..]` that the substitution keeps, scanning as `re.sub` does: a
   * phrase starting at the scan point is skipped whole, any other character is kept.
   */
  function KeptFrom(s: string, i: nat): seq<nat>
    requires i <= |s|
    decreases |s| - i
  {
    if i == |s| then []
    else
      match PricePhrase(s[i..])
      case Some(m) => KeptFrom(s, i + m.1)
      case None => [i] + KeptFrom(s, i + 1)
  }

  /** `kept` lists positions of `s` from `lo` on, in increasing order, at which no phrase
      starts, and `w` is made of the characters found there. */
  predicate KeptAgrees(s: string, lo: nat, kept: seq<nat>, w: string) {
    Ascending(kept, lo, |s|) && NoPhraseAt(s, kept) && w == Pick(s, kept)
  }

  /** Every position of `kept` lies inside `s`, and no phrase starts there. */
  predicate NoPhraseAt(s: string, kept: seq<nat>) {
    forall j :: 0 <= j < |kept| ==> kept[j] < |s| && PricePhrase(s[kept[j]..]).None?
  }

  /** Positions from `lo` up to (not including) `hi`, strictly increasing. */
  predicate Ascending(kept: seq<nat>, lo: nat, hi: nat) {
    (forall j :: 0 <= j < |kept| ==> lo <= kept[j] < hi)
    && (forall j, l :: 0 <= j < l < |kept| ==> kept[j] < kept[l])
  }

  /** The characters of `s` at the positions `kept`, in order. */
  function Pick(s: string, kept: seq<nat>): (r: string)
    ensures |r| == |kept|
    ensures forall j :: 0 <= j < |kept| && kept[j] < |s| ==> r[j] == s[kept[j]]
  {
    seq(|kept|, j requires 0 <= j < |kept| => if kept[j] < |s| then s[kept[j]] else ' ')
  }

  /** What the substitution leaves is exactly the kept characters, in their order, and no
      phrase starts at a kept character of the original text. */
  lemma KeptCharacters(s: string, i: nat)
    requires i <= |s|
    ensures KeptAgrees(s, i, KeptFrom(s, i), WithoutPricePhrases(s[i..]))
  {
    KeptAscending(s, i, s[i..]);
    KeptNoPhrase(s, i, s[i..]);
    KeptText(s, i, s[i..]);
  }

  /** The kept positions of `t`, the text from `i` on, lie in `[i, |s|)` and increase. */
  lemma {:induction false} KeptAscending(s: string, i: nat, t: string)
    requires i <= |s| && t == s[i..]
    ensures Ascending(KeptFrom(s, i), i, |s|)
    decreases |s| - i
  {
    if t != [] {
      match PricePhrase(t)
      case Some(x) =>
        assert t[x.1..] == s[i + x.1..];
        KeptAscending(s, i + x.1, t[x.1..]);
        AscendingFrom(KeptFrom(s, i + x.1), i + x.1, i, |s|);
      case None =>
        assert t[1..] == s[i + 1..];
        KeptAscending(s, i + 1, t[1..]);
        AscendingCons(KeptFrom(s, i + 1), i, |s|);
    }
  }
  lemma AscendingFrom(kept: seq<nat>, mid: nat, lo: nat, hi: nat)
    requires lo <= mid && Ascending(kept, mid, hi)
    ensures Ascending(kept, lo, hi)
  {
  }
  lemma AscendingCons(kept: seq<nat>, i: nat, hi: nat)
    requires i < hi && Ascending(kept, i + 1, hi)
    ensures Ascending([i] + kept, i, hi)
  {
    var k := [i] + kept;
    forall j | 0 <= j < |k| ensures i <= k[j] < hi {
      if j > 0 { assert k[j] == kept[j - 1]; }
    }
    forall j, l | 0 <= j < l < |k| ensures k[j] < k[l] {
      assert k[l] == kept[l - 1];
      if j > 0 { assert k[j] == kept[j - 1]; }
    }
  }
  /** The substitution leaves the characters of `t`, the text from `i` on, at the kept
      positions. */
  lemma {:induction false} KeptText(s: string, i: nat, t: string)
    requires i <= |s| && t == s[i..]
    ensures WithoutPricePhrases(t) == Pick(s, KeptFrom(s, i))
    decreases |s| - i
  {
    if t != [] {
      match PricePhrase(t)
      case Some(m) =>
        assert t[m.1..] == s[i + m.1..];
        KeptText(s, i + m.1, t[m.1..]);
      case None =>
        assert t[1..] == s[i + 1..] && t[0] == s[i];
        KeptText(s, i + 1, t[1..]);
        PickCons(s, i, KeptFrom(s, i + 1));
    }
  }

  lemma PickCons(s: string, i: nat, kept: seq<nat>)
    requires i < |s|
    ensures Pick(s, [i] + kept) == [s[i]] + Pick(s, kept)
  {
    var k := [i] + kept;
    forall j | 0 <= j < |k| ensures Pick(s, k)[j] == ([s[i]] + Pick(s, kept))[j] {
      if j > 0 { assert k[j] == kept[j - 1]; }
    }
  }
  /** No phrase starts at a kept position of `t`, the text from `i` on, and kept positions
      lie inside the text. */
  lemma {:induction false} KeptNoPhrase(s: string, i: nat, t: string)
    requires i <= |s| && t == s[i..]
    ensures NoPhraseAt(s, KeptFrom(s, i))
    decreases |s| - i
  {
    if t != [] {
      match PricePhrase(t)
      case Some(x) =>
        assert t[x.1..] == s[i + x.1..];
        KeptNoPhrase(s, i + x.1, t[x.1..]);
      case None =>
        assert t[1..] == s[i + 1..];
        KeptNoPhrase(s, i + 1, t[1..]);
        NoPhraseCons(s, i, KeptFrom(s, i + 1));
    }
  }

  lemma NoPhraseCons(s: string, i: nat, kept: seq<nat>)
    requires i < |s| && PricePhrase(s[i..]).None? && NoPhraseAt(s, kept)
    ensures NoPhraseAt(s, [i] + kept)
  {
    var k := [i] + kept;
    forall j | 0 <= j < |k| ensures k[j] < |s| && PricePhrase(s[k[j]..]).None? {
      if j > 0 { assert k[j] == kept[j - 1]; }
    }
  }

  /** Text without capital letters is its own lower-case form. */
  lemma LowerFixes(s: string)
    requires forall k :: 0 <= k < |s| ==> !('A' <= s[k] <= 'Z')
    ensures Lower(s) == s
  {
  }

  /** A phrase at the scan point is skipped whole. */
  lemma SkipStep(s: string, i: nat, n: nat)
    requires i < |s| && PricePhrase(s[i..]).Some? && n == PricePhrase(s[i..]).value.1
    ensures i + n <= |s|
    ensures KeptFrom(s, i) == KeptFrom(s, i + n)
    ensures WithoutPricePhrases(s[i..]) == WithoutPricePhrases(s[i + n..])
  {
    assert s[i..][n..] == s[i + n..];
  }

  /** Any other character at the scan point is kept. */
  lemma KeepStep(s: string, i: nat)
    requires i < |s| && PricePhrase(s[i..]).None?
    ensures KeptFrom(s, i) == [i] + KeptFrom(s, i + 1)
    ensures WithoutPricePhrases(s[i..]) == [s[i]] + WithoutPricePhrases(s[i + 1..])
  {
    assert s[i..][1..] == s[i + 1..];
  }

  /** No phrase starts where the first character is not a `p` of either case. */
  lemma NoPhraseWithoutP(s: string)
    requires s == [] || LowerChar(s[0]) != 'p'
    ensures PricePhrase(s).None?
  {
    if |s| >= 6 {
      assert Lower(s[..6])[0] == LowerChar(s[0]);
    }
  }

  /** Text none of whose characters is a `p` passes through the substitution unchanged. */
  lemma NoPNothingRemoved(s: string)
    requires forall k :: 0 <= k < |s| ==> LowerChar(s[k]) != 'p'
    ensures WithoutPricePhrases(s) == s
  {
    forall k | 0 <= k <= |s| ensures PricePhrase(s[k..]).None? {
      NoPhraseWithoutP(s[k..]);
    }
    NoPhraseNothingRemoved(s);
  }

  /** `re.sub` scans once: a phrase can form again from the pieces around a removed one. */
  lemma SubstitutionCanLeaveAPhrase(s: string, r: string)
    requires s == "price uprice under 5nder 3" && r == "price under 3"
    ensures WithoutPricePhrases(s) == r
    ensures PricePhrase(r) == Some(("3", 13))
  {
    var a, b, c := "rice u", "price under 5", "nder 3";
    ExampleHead(s, a, b, c);
    ExampleFront(a, b + c);
    ExampleMiddle(b, c);
    ExampleTail(c);
    ExampleJoin(s, a, c, r);
    ExampleResult(r);
  }

  /** The example starts `price u` then `p`, which is no phrase: its `p` is kept. */
  lemma ExampleHead(s: string, a: string, b: string, c: string)
    requires s == "price uprice under 5nder 3"
    requires a == "rice u" && b == "price under 5" && c == "nder 3"
    ensures WithoutPricePhrases(s) == [s[0]] + WithoutPricePhrases(a + (b + c))
  {
    ExampleLetters(s, a, b, c);
    KeptAfterBrokenWord(s, a + (b + c));
  }

  /** The letters of the example that its first step looks at. */
  lemma ExampleLetters(s: string, a: string, b: string, c: string)
    requires s == "price uprice under 5nder 3"
    requires a == "rice u" && b == "price under 5" && c == "nder 3"
    ensures |s| >= 16 && s[..6] == "price " && s[6] == 'u' && s[7] == 'p'
    ensures s[1..] == a + (b + c)
  {
  }

  /** "price u" not going on to "under" keeps its `p`. */
  lemma KeptAfterBrokenWord(s: string, t: string)
    requires |s| >= 16 && s[..6] == "price " && s[6] == 'u' && LowerChar(s[7]) != 'n'
    requires s[1..] == t
    ensures WithoutPricePhrases(s) == [s[0]] + WithoutPricePhrases(t)
  {
    BrokenWord(s);
    KeepStep(s, 0);
    assert s[0..] == s;
  }

  lemma ExampleTail(c: string)
    requires c == "nder 3"
    ensures WithoutPricePhrases(c) == c
  {
    NoPNothingRemoved(c);
  }

  lemma ExampleJoin(s: string, a: string, c: string, r: string)
    requires s == "price uprice under 5nder 3" && a == "rice u" && c == "nder 3"
    requires r == "price under 3"
    ensures [s[0]] + (a + c) == r
  {
  }

  /** "price " followed by a `u` that does not begin "under" starts no phrase. */
  lemma BrokenWord(s: string)
    requires |s| >= 16 && s[..6] == "price " && s[6] == 'u' && LowerChar(s[7]) != 'n'
    ensures PricePhrase(s[0..]) == None
  {
    assert s[0..] == s;
    assert Lower(s[6..16])[0] == 'u';
    assert Lower(s[6..11])[1] == LowerChar(s[7]) != 'n';
  }

  /** `rice u` holds no `p` and is kept as it is. */
  lemma ExampleFront(a: string, v: string)
    requires a == "rice u"
    ensures WithoutPricePhrases(a + v) == a + WithoutPricePhrases(v)
  {
    assert forall k :: 0 <= k < |a| ==> LowerChar(a[k]) != 'p';
    KeepPlainPrefix(a, v);
  }

  /** The inner phrase `price under 5` is removed, leaving what follows it. */
  lemma ExampleMiddle(b: string, c: string)
    requires b == "price under 5" && c == "nder 3"
    ensures WithoutPricePhrases(b + c) == WithoutPricePhrases(c)
  {
    var w := b + c;
    assert w[..6] == "price " && w[6..11] == "under" && w[11] == ' ' && w[12] == '5' && w[13] == 'n';
    UnderPhrase(w, 13);
    assert w[13..] == c;
  }

  lemma ExampleResult(r: string)
    requires r == "price under 3"
    ensures PricePhrase(r) == Some(("3", 13))
  {
    assert r[..6] == "price " && r[6..11] == "under" && r[11] == ' ' && r[12..13] == "3";
    UnderPhrase(r, 13);
  }

  /** An "under" phrase whose number is too close to the end for " dollars" to follow. */
  lemma UnderPhrase(s: string, t: nat)
    requires 12 < t <= |s| && t + 8 > |s|
    requires s[..6] == "price " && s[6..11] == "under" && s[11] == ' '
    requires forall j :: 12 <= j < t ==> IsDigit(s[j])
    requires t < |s| ==> !IsDigitOrDot(s[t])
    ensures PricePhrase(s) == Some((s[12..t], t))
  {
    LowerFixes(s[..6]);
    LowerFixes(s[6..11]);
    assert s[6] == s[6..11][0] == 'u';
    if |s| >= 16 {
      assert Lower(s[6..16])[0] == 'u';
    }
    assert RunFrom(s, 12, IsDigitOrDot) == t by {
      RunAtLeast(s, 12, t, IsDigitOrDot);
    }
  }

  /** Characters none of which is a `p` are kept in front of whatever follows them. */
  lemma KeepPlainPrefix(u: string, v: string)
    requires forall k :: 0 <= k < |u| ==> LowerChar(u[k]) != 'p'
    ensures WithoutPricePhrases(u + v) == u + WithoutPricePhrases(v)
  {
    var w := u + v;
    assert forall k :: 0 <= k < |u| ==> w[k] == u[k];
    KeepPlainUpTo(w, |u|);
    assert w[..|u|] == u && w[|u|..] == v;
  }

  /** The first `i` characters of `s`, none of them a `p`, are kept as they are. */
  lemma {:induction false} KeepPlainUpTo(s: string, i: nat)
    requires i <= |s| && forall k :: 0 <= k < i ==> LowerChar(s[k]) != 'p'
    ensures WithoutPricePhrases(s) == s[..i] + WithoutPricePhrases(s[i..])
    decreases i
  {
    if i == 0 {
      assert s[0..] == s;
    } else {
      KeepPlainUpTo(s, i - 1);
      KeepPlainNext(s, i);
    }
  }

  /** One more kept character extends the kept prefix. */
  lemma KeepPlainNext(s: string, i: nat)
    requires 0 < i <= |s| && LowerChar(s[i - 1]) != 'p'
    requires WithoutPricePhrases(s) == s[..i - 1] + WithoutPricePhrases(s[i - 1..])
    ensures WithoutPricePhrases(s) == s[..i] + WithoutPricePhrases(s[i..])
  {
    KeepPlainAt(s, i - 1);
    PrefixGrows(s, i, WithoutPricePhrases(s), WithoutPricePhrases(s[i - 1..]), WithoutPricePhrases(s[i..]));
  }

  /** A character that is not a `p` is kept at the scan point. */
  lemma KeepPlainAt(s: string, h: nat)
    requires h < |s| && LowerChar(s[h]) != 'p'
    ensures WithoutPricePhrases(s[h..]) == [s[h]] + WithoutPricePhrases(s[h + 1..])
  {
    assert s[h..][0] == s[h];
    NoPhraseWithoutP(s[h..]);
    KeepStep(s, h);
  }

  lemma PrefixGrows(s: string, i: nat, x: string, y: string, z: string)
    requires 0 < i <= |s| && x == s[..i - 1] + y && y == [s[i - 1]] + z
    ensures x == s[..i] + z
  {
    assert s[..i] == s[..i - 1] + [s[i - 1]];
  }

  /** ... and then the keywords are just its tokens, with no price limit. */
  lemma NoPhraseKeywords(instruction: string)
    requires forall k :: 0 <= k <= |instruction| ==> PricePhrase(instruction[k..]).None?
    ensures ParseTargetInstruction(instruction) == Ok(Target(TokensBy(instruction, IsKeywordSep), None))
  {
    FirstPricePhraseIff(instruction);
  }

  /** The phrase matched at the start of `s`, given the parts of `s`. */
  lemma PhraseParts(s: string, ds: string)
    requires |ds| > 0 && forall j :: 0 <= j < |ds| ==> IsDigit(ds[j])
    requires |s| == 25 + |ds|
    requires s[..6] == "price " && s[6..16] == "lower than" && s[16] == ' '
    requires s[17..17 + |ds|] == ds && s[17 + |ds|..] == " dollars"
    ensures PricePhrase(s) == Some((ds, |s|))
  {
    var t := 17 + |ds|;
    assert forall j :: 17 <= j < t ==> IsDigitOrDot(s[j]) by {
      forall j | 17 <= j < t ensures IsDigitOrDot(s[j]) { assert s[j] == ds[j - 17]; }
    }
    assert s[t] == s[t..][0];
    RunAtLeast(s, 17, t, IsDigitOrDot);
    assert s[t..t + 8] == " dollars";
  }

  /** An instruction that is only the phrase gives its number as the limit and no keywords. */
  lemma PhraseAlone(n: nat)
    ensures ParseTargetInstruction("price lower than " + NatToString(n) + " dollars")
      == Ok(Target([], Some(n as real)))
  {
    var ds := NatToString(n);
    var s := "price lower than " + ds + " dollars";
    assert s[..6] == "price " && s[6..16] == "lower than" && s[16] == ' ';
    assert s[17..17 + |ds|] == ds && s[17 + |ds|..] == " dollars";
    PhraseParts(s, ds);
    ParseDecimalOfNat(n);
    WholePhrase(s, ds, n as real);
  }

  /** An instruction the phrase covers entirely leaves no keywords. */
  lemma WholePhrase(s: string, ds: string, v: real)
    requires PricePhrase(s) == Some((ds, |s|)) && ParseDecimal(ds) == Some(v)
    ensures ParseTargetInstruction(s) == Ok(Target([], Some(v)))
  {
    assert s[|s|..] == [];
  }
}
