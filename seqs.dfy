/**
 * Sequence operations the agents use through Python built-ins: `dict.fromkeys`
 * (first occurrences in order), `collections.Counter`, the stable `sorted(...,
 * reverse=True)` and slicing a prefix.
 */
module Seqs {

  predicate NoDup<T(==)>(s: seq<T>) {
    forall i, j :: 0 <= i < j < |s| ==> s[i] != s[j]
  }

  /** Python's `s[:n]` for `n >= 0`. */
  function TakeSeq<T>(s: seq<T>, n: nat): (r: seq<T>)
    ensures |r| == if n < |s| then n else |s|
    ensures r == s[..|r|]
  {
    if n < |s| then s[..n] else s
  }

  /** `list(dict.fromkeys(s))`: each element once, at the place of its first occurrence. */
  function Dedup<T(==)>(s: seq<T>): (r: seq<T>)
    ensures NoDup(r)
    ensures forall i :: 0 <= i < |s| ==> s[i] in r
    ensures forall i :: 0 <= i < |r| ==> r[i] in s
    ensures |r| <= |s|
  {
    if s == [] then []
    else
      var d := Dedup(s[..|s| - 1]);
      var x := s[|s| - 1];
      assert s == s[..|s| - 1] + [x];
      if x in d then d else d + [x]
  }

  /** Removing duplicates from a sequence that has none changes nothing. */
  lemma {:induction false} DedupNoDup<T>(s: seq<T>)
    requires NoDup(s)
    ensures Dedup(s) == s
  {
    if s != [] {
      var p := s[..|s| - 1];
      assert NoDup(p);
      DedupNoDup(p);
      assert s[|s| - 1] !in p;
      assert s == p + [s[|s| - 1]];
    }
  }

  /** Appending elements never reorders the first occurrences seen so far. */
  lemma {:induction false} DedupPrefix<T>(a: seq<T>, b: seq<T>)
    ensures |Dedup(a)| <= |Dedup(a + b)|
    ensures Dedup(a + b)[..|Dedup(a)|] == Dedup(a)
    decreases |b|
  {
    if b == [] {
      assert a + b == a;
    } else {
      var b' := b[..|b| - 1];
      DedupPrefix(a, b');
      assert (a + b)[..|a + b| - 1] == a + b';
    }
  }

  // ---------------------------------------------------------------- stable sort, largest first

  predicate SortedDesc<T>(s: seq<T>, key: T -> int) {
    forall i, j :: 0 <= i < j < |s| ==> key(s[i]) >= key(s[j])
  }

  /** The elements of `s` whose key is `v`, in their order in `s`. */
  function WithKey<T>(s: seq<T>, key: T -> int, v: int): seq<T> {
    if s == [] then []
    else WithKey(s[..|s| - 1], key, v) + (if key(s[|s| - 1]) == v then [s[|s| - 1]] else [])
  }

  /** Inserts `x`, which came later in the input than everything in `t`, after every element whose key is not smaller. */
  function InsertDesc<T>(x: T, t: seq<T>, key: T -> int): (r: seq<T>)
    requires SortedDesc(t, key)
    ensures |r| == |t| + 1
    ensures multiset(r) == multiset(t) + multiset{x}
    ensures forall j :: 0 <= j < |r| ==> r[j] == x || r[j] in t
    ensures SortedDesc(r, key)
  {
    if t == [] then [x]
    else if key(t[0]) >= key(x) then
      var rest := InsertDesc(x, t[1..], key);
      InsertBehindHead(t, x, rest, key);
      assert t == [t[0]] + t[1..];
      [t[0]] + rest
    else
      [x] + t
  }

  lemma InsertBehindHead<T>(t: seq<T>, x: T, rest: seq<T>, key: T -> int)
    requires t != [] && SortedDesc(t, key) && key(t[0]) >= key(x)
    requires SortedDesc(rest, key)
    requires forall j :: 0 <= j < |rest| ==> rest[j] == x || rest[j] in t[1..]
    ensures SortedDesc([t[0]] + rest, key)
    ensures forall j :: 0 <= j < |rest| + 1 ==> ([t[0]] + rest)[j] == x || ([t[0]] + rest)[j] in t
  {
    var r := [t[0]] + rest;
    forall j | 0 <= j < |rest| ensures key(t[0]) >= key(rest[j]) {
      if rest[j] != x {
        var k :| 0 <= k < |t[1..]| && t[1..][k] == rest[j];
        assert t[k + 1] == rest[j];
      }
    }
    forall i, j | 0 <= i < j < |r| ensures key(r[i]) >= key(r[j]) {
      if i > 0 {
        assert r[i] == rest[i - 1] && r[j] == rest[j - 1];
      } else {
        assert r[j] == rest[j - 1];
      }
    }
    forall j | 0 <= j < |r| ensures r[j] == x || r[j] in t {
      if j > 0 {
        assert r[j] == rest[j - 1];
        if rest[j - 1] != x {
          var k :| 0 <= k < |t[1..]| && t[1..][k] == rest[j - 1];
          assert t[k + 1] == rest[j - 1];
        }
      }
    }
  }

  /** `sorted(s, key=key, reverse=True)`; Python's sort is stable, so equal keys keep their input order. */
  function SortDesc<T>(s: seq<T>, key: T -> int): (r: seq<T>)
    ensures |r| == |s|
    ensures multiset(r) == multiset(s)
    ensures SortedDesc(r, key)
  {
    if s == [] then []
    else
      assert s == s[..|s| - 1] + [s[|s| - 1]];
      InsertDesc(s[|s| - 1], SortDesc(s[..|s| - 1], key), key)
  }

  lemma {:induction false} WithKeyAppend<T>(a: seq<T>, b: seq<T>, key: T -> int, v: int)
    ensures WithKey(a + b, key, v) == WithKey(a, key, v) + WithKey(b, key, v)
    decreases |b|
  {
    if b == [] {
      assert a + b == a;
    } else {
      var b' := b[..|b| - 1];
      WithKeyAppend(a, b', key, v);
      assert (a + b)[..|a + b| - 1] == a + b';
    }
  }

  lemma {:induction false} WithKeyAllBelow<T>(t: seq<T>, key: T -> int, v: int)
    requires forall j :: 0 <= j < |t| ==> key(t[j]) < v
    ensures WithKey(t, key, v) == []
  {
    if t != [] {
      WithKeyAllBelow(t[..|t| - 1], key, v);
    }
  }

  lemma {:induction false} InsertDescWithKey<T>(x: T, t: seq<T>, key: T -> int, v: int)
    requires SortedDesc(t, key)
    ensures WithKey(InsertDesc(x, t, key), key, v) == WithKey(t, key, v) + (if key(x) == v then [x] else [])
  {
    if t == [] {
      assert WithKey([x], key, v) == WithKey([], key, v) + (if key(x) == v then [x] else []);
    } else if key(t[0]) >= key(x) {
      InsertDescWithKey(x, t[1..], key, v);
      WithKeyBehindHead(x, t, InsertDesc(x, t[1..], key), key, v);
    } else {
      WithKeyInFront(x, t, key, v);
    }
  }

  lemma WithKeyBehindHead<T>(x: T, t: seq<T>, rest: seq<T>, key: T -> int, v: int)
    requires t != []
    requires WithKey(rest, key, v) == WithKey(t[1..], key, v) + (if key(x) == v then [x] else [])
    ensures WithKey([t[0]] + rest, key, v) == WithKey(t, key, v) + (if key(x) == v then [x] else [])
  {
    WithKeyAppend([t[0]], rest, key, v);
    WithKeyAppend([t[0]], t[1..], key, v);
    assert [t[0]] + t[1..] == t;
  }

  lemma WithKeyInFront<T>(x: T, t: seq<T>, key: T -> int, v: int)
    requires t != [] && SortedDesc(t, key) && key(x) > key(t[0])
    ensures WithKey([x] + t, key, v) == WithKey(t, key, v) + (if key(x) == v then [x] else [])
  {
    WithKeyAppend([x], t, key, v);
    assert WithKey([x], key, v) == WithKey([], key, v) + (if key(x) == v then [x] else []);
    if key(x) == v {
      assert forall j :: 0 <= j < |t| ==> key(t[j]) <= key(t[0]);
      WithKeyAllBelow(t, key, v);
    }
  }

  /** Stability: for every key value, the elements carrying it appear in the sorted result
      in the same order as in the input. */
  lemma {:induction false} SortDescStable<T>(s: seq<T>, key: T -> int, v: int)
    ensures WithKey(SortDesc(s, key), key, v) == WithKey(s, key, v)
  {
    if s != [] {
      var p := s[..|s| - 1];
      SortDescStable(p, key, v);
      InsertDescWithKey(s[|s| - 1], SortDesc(p, key), key, v);
    }
  }

  /** An element of a duplicate-free sequence occurs at most once. */
  lemma {:induction false} NoDupCountOne<T>(d: seq<T>, x: T)
    requires NoDup(d)
    ensures multiset(d)[x] <= 1
  {
    if d != [] {
      var p := d[..|d| - 1];
      assert d == p + [d[|d| - 1]];
      assert NoDup(p);
      NoDupCountOne(p, x);
      if x == d[|d| - 1] {
        assert x !in p;
      }
    }
  }

  /** A rearrangement of a duplicate-free sequence has no duplicates. */
  lemma PermutationNoDup<T>(d: seq<T>, s: seq<T>)
    requires NoDup(d) && multiset(s) == multiset(d)
    ensures NoDup(s)
  {
    forall i, j | 0 <= i < j < |s| ensures s[i] != s[j] {
      if s[i] == s[j] {
        assert multiset(s)[s[i]] >= 2 by {
          assert s == s[..j] + [s[j]] + s[j + 1..];
          assert s[i] in multiset(s[..j]);
        }
        NoDupCountOne(d, s[i]);
        assert false;
      }
    }
  }

  lemma RemoveMultiset<T>(h: seq<T>, k: nat)
    requires k < |h|
    ensures multiset(h[..k] + h[k + 1..]) + multiset{h[k]} == multiset(h)
  {
    assert h == h[..k] + [h[k]] + h[k + 1..];
  }

  lemma PermutationMembers<T>(s: seq<T>, t: seq<T>)
    requires multiset(t) == multiset(s)
    ensures |t| == |s|
    ensures forall i :: 0 <= i < |t| ==> t[i] in s
    ensures forall i :: 0 <= i < |s| ==> s[i] in t
  {
    assert |multiset(t)| == |multiset(s)|;
    forall i | 0 <= i < |t| ensures t[i] in s {
      assert t[i] in multiset(t);
    }
    forall i | 0 <= i < |s| ensures s[i] in t {
      assert s[i] in multiset(s);
    }
  }

  /** In a sequence sorted largest first, an element outside a prefix has a key no larger
      than the prefix's last element. */
  lemma SortedPrefixBound<T>(t: seq<T>, key: T -> int, n: nat, x: T)
    requires SortedDesc(t, key) && 0 < n <= |t|
    requires x in t && x !in t[..n]
    ensures key(x) <= key(t[n - 1])
  {
    var p :| 0 <= p < |t| && t[p] == x;
    assert forall q :: 0 <= q < n ==> t[..n][q] == t[q];
  }

  /** The first `k` of a duplicate-free sequence sorted by `key`, largest first: distinct
      elements of `s`, in non-increasing key order, and no element left out has a larger
      key than the last one kept. */
  lemma TopByKey<T>(s: seq<T>, key: T -> int, k: nat)
    requires NoDup(s)
    ensures var r := TakeSeq(SortDesc(s, key), k);
      && |r| == (if k < |s| then k else |s|)
      && NoDup(r)
      && (forall i :: 0 <= i < |r| ==> r[i] in s)
      && SortedDesc(r, key)
      && (forall i :: 0 <= i < |s| && s[i] !in r && |r| > 0 ==> key(s[i]) <= key(r[|r| - 1]))
  {
    var t := SortDesc(s, key);
    var r := TakeSeq(t, k);
    PermutationNoDup(s, t);
    PermutationMembers(s, t);
    assert forall i :: 0 <= i < |r| ==> r[i] == t[i];
    forall i | 0 <= i < |s| && s[i] !in r && |r| > 0 ensures key(s[i]) <= key(r[|r| - 1]) {
      SortedPrefixBound(t, key, |r|, s[i]);
    }
  }

  // ---------------------------------------------------------------- counting

  /** The counts of the distinct elements, in first-occurrence order, as a
      `Counter` built from `s` iterates them. */
  function CountsInOrder<T(==)>(s: seq<T>): (r: seq<(T, nat)>)
    ensures |r| == |Dedup(s)|
    ensures forall i :: 0 <= i < |r| ==> r[i] == (Dedup(s)[i], multiset(s)[Dedup(s)[i]])
  {
    var d := Dedup(s);
    seq(|d|, i requires 0 <= i < |d| => (d[i], multiset(s)[d[i]]))
  }

  /** The keys of `CountsInOrder` are distinct elements of `s`. */
  lemma CountsInOrderKeys<T>(s: seq<T>)
    ensures forall i, j :: 0 <= i < j < |CountsInOrder(s)| ==> CountsInOrder(s)[i].0 != CountsInOrder(s)[j].0
    ensures forall i :: 0 <= i < |CountsInOrder(s)| ==> CountsInOrder(s)[i].0 in s
  {
    var c := CountsInOrder(s);
    var d := Dedup(s);
    assert forall i :: 0 <= i < |c| ==> c[i].0 == d[i];
  }

  /** One more element: a new first occurrence goes to the end, a repeated one changes nothing. */
  lemma DedupSnoc<T>(s: seq<T>, x: T)
    ensures Dedup(s + [x]) == if x in s then Dedup(s) else Dedup(s) + [x]
  {
    assert (s + [x])[..|s + [x]| - 1] == s;
    var d := Dedup(s);
    if x in s {
      var j :| 0 <= j < |s| && s[j] == x;
      assert x in d;
    }
  }

  /** `counter[t] = counter.get(t, 0) + 1` keeps a counter equal to the multiset of the
      elements counted so far. */
  lemma CounterIncrement<T>(before: multiset<T>, counts: map<T, nat>, t: T)
    requires forall u :: u in counts ==> counts[u] == before[u]
    ensures t in counts ==> forall u :: u in counts ==> counts[t := counts[t] + 1][u] == (before + multiset{t})[u]
    ensures t !in counts && before[t] == 0 ==> forall u :: u in counts[t := 1] ==> counts[t := 1][u] == (before + multiset{t})[u]
  {
  }

  /** `counts` and `order` are what counting `prefix` leaves: the keys in first-appearance
      order, each with its number of occurrences. */
  ghost predicate CountsAgree<T(!new)>(prefix: seq<T>, counts: map<T, nat>, order: seq<T>) {
    order == Dedup(prefix)
    && (forall t :: t in counts <==> t in order)
    && (forall t :: t in counts ==> counts[t] == multiset(prefix)[t])
  }

  /** Counting one more element `t` keeps the agreement. */
  lemma CountStepKeeps<T(!new)>(s: seq<T>, i: nat, counts: map<T, nat>, order: seq<T>,
                                 counts2: map<T, nat>, order2: seq<T>)
    requires i < |s| && CountsAgree(s[..i], counts, order)
    requires s[i] in counts ==> counts2 == counts[s[i] := counts[s[i]] + 1] && order2 == order
    requires s[i] !in counts ==> counts2 == counts[s[i] := 1] && order2 == order + [s[i]]
    ensures CountsAgree(s[..i + 1], counts2, order2)
  {
    assert s[..i + 1] == s[..i] + [s[i]];
    CountSnocKeeps(s[..i], s[i], counts, order, counts2, order2);
  }

  lemma CountSnocKeeps<T(!new)>(prefix: seq<T>, t: T, counts: map<T, nat>, order: seq<T>,
                                counts2: map<T, nat>, order2: seq<T>)
    requires CountsAgree(prefix, counts, order)
    requires t in counts ==> counts2 == counts[t := counts[t] + 1] && order2 == order
    requires t !in counts ==> counts2 == counts[t := 1] && order2 == order + [t]
    ensures CountsAgree(prefix + [t], counts2, order2)
  {
    DedupSnoc(prefix, t);
    CounterIncrement(multiset(prefix), counts, t);
    assert t in counts <==> t in prefix;
    assert multiset(prefix + [t]) == multiset(prefix) + multiset{t};
  }

  /** The counting loop `counts[x] = counts.get(x, 0) + 1` over `s`, with the order in
      which the keys enter the dict. */
  method CountOccurrences<T(==,!new)>(s: seq<T>) returns (counts: map<T, nat>, order: seq<T>)
    ensures order == Dedup(s)
    ensures forall t :: t in counts <==> t in order
    ensures forall t :: t in counts ==> counts[t] == multiset(s)[t]
  {
    counts, order := map[], [];
    var i := 0;
    while i < |s|
      invariant 0 <= i <= |s|
      invariant CountsAgree(s[..i], counts, order)
    {
      var t := s[i];
      ghost var counts0, order0 := counts, order;
      if t in counts {
        counts := counts[t := counts[t] + 1];
      } else {
        counts := counts[t := 1];
        order := order + [t];
      }
      CountStepKeeps(s, i, counts0, order0, counts, order);
      i := i + 1;
    }
    assert s[..i] == s;
  }

  function SumCounts<T>(c: seq<(T, nat)>): nat {
    if c == [] then 0 else SumCounts(c[..|c| - 1]) + c[|c| - 1].1
  }

  /** Sum of the multiplicities of `d`'s elements in `m`. */
  function SumOver<T>(d: seq<T>, m: multiset<T>): nat {
    if d == [] then 0 else SumOver(d[..|d| - 1], m) + m[d[|d| - 1]]
  }

  lemma {:induction false} SumOverAdd<T>(d: seq<T>, m: multiset<T>, x: T)
    requires NoDup(d)
    ensures SumOver(d, m + multiset{x}) == SumOver(d, m) + (if x in d then 1 else 0)
  {
    if d != [] {
      var p := d[..|d| - 1];
      assert NoDup(p);
      SumOverAdd(p, m, x);
      assert d == p + [d[|d| - 1]];
      assert x in d <==> x in p || x == d[|d| - 1];
      assert x == d[|d| - 1] ==> x !in p;
    }
  }

  lemma {:induction false} SumOverCounts<T>(s: seq<T>)
    ensures SumOver(Dedup(s), multiset(s)) == |s|
  {
    if s != [] {
      var p := s[..|s| - 1];
      var x := s[|s| - 1];
      assert s == p + [x];
      var dp := Dedup(p);
      SumOverCounts(p);
      SumOverAdd(dp, multiset(p), x);
      if x !in dp {
        assert Dedup(s) == dp + [x];
        assert (dp + [x])[..|dp + [x]| - 1] == dp;
      }
    }
  }

  lemma {:induction false} SumCountsIsSumOver<T>(c: seq<(T, nat)>, d: seq<T>, m: multiset<T>)
    requires |c| == |d|
    requires forall i :: 0 <= i < |c| ==> c[i] == (d[i], m[d[i]])
    ensures SumCounts(c) == SumOver(d, m)
  {
    if c != [] {
      SumCountsIsSumOver(c[..|c| - 1], d[..|d| - 1], m);
    }
  }

  /** Every element is counted exactly once: the counts add up to the length. */
  lemma CountsInOrderTotal<T>(s: seq<T>)
    ensures SumCounts(CountsInOrder(s)) == |s|
  {
    SumCountsIsSumOver(CountsInOrder(s), Dedup(s), multiset(s));
    SumOverCounts(s);
  }
}
