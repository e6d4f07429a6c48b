/**
 * The LASER memory buffer (LASER/nodes.py): the candidate items the Result node has opened,
 * one entry per item id, and the back-up choice the Stopping node makes from it when no item
 * was bought.
 */
module LaserMemory {
  import opened Wrappers
  import opened Json
  import Seqs

  // ---------------------------------------------------------------- add_or_update_buffer

  /** `c.get("item_id")`: the key entries are matched on (None matches None). */
  function ItemKey(d: Dict): Json {
    Get(d, "item_id")
  }

  /** The index `next(...)` finds: the first entry with this item id. */
  function FindItem(buf: seq<Dict>, id: Json): (r: Option<nat>)
    ensures r.Some? ==> r.value < |buf| && ItemKey(buf[r.value]) == id
    ensures r.Some? ==> forall k :: 0 <= k < r.value ==> ItemKey(buf[k]) != id
    ensures r.None? <==> forall k :: 0 <= k < |buf| ==> ItemKey(buf[k]) != id
    decreases |buf|
  {
    if buf == [] then None
    else if ItemKey(buf[0]) == id then Some(0)
    else
      match FindItem(buf[1..], id)
      case None => None
      case Some(j) => Some(j + 1)
  }

  /** `v not in (None, "")`: the candidate values that overwrite stored ones. */
  predicate Kept(v: Json) {
    v != JNull && v != JStr("")
  }

  /** `{**stored, **{k: v for k, v in incoming.items() if v not in (None, "")}}`. */
  function Overlay(stored: Dict, incoming: Dict): (m: Dict)
    ensures m.Keys == stored.Keys + (set k | k in incoming && Kept(incoming[k]))
    ensures forall k :: k in incoming && Kept(incoming[k]) ==> m[k] == incoming[k]
    ensures forall k :: k in stored && !(k in incoming && Kept(incoming[k])) ==> m[k] == stored[k]
  {
    map k | k in stored.Keys + (set k | k in incoming && Kept(incoming[k])) :: if k in incoming && Kept(incoming[k]) then incoming[k] else stored[k]
  }

  /** `(v or [])` as the left or right operand of a list concatenation. */
  function ListOrEmpty(v: Json): (r: Result<seq<Json>>)
    ensures r.Err? <==> Truthy(v) && !v.JList?
    ensures r.Ok? && v.JList? ==> r.value == v.items
  {
    if !Truthy(v) then Ok([]) else if v.JList? then Ok(v.items) else Err("TypeError")
  }

  /** The merged `actions_taken`: the stored list then the incoming one, first occurrences kept. */
  function MergedActions(stored: Dict, incoming: Dict): Result<seq<Json>> {
    match ListOrEmpty(Get(stored, "actions_taken"))
    case Err(e) => Err(e)
    case Ok(a) =>
      match ListOrEmpty(Get(incoming, "actions_taken"))
      case Err(e) => Err(e)
      case Ok(b) => Ok(Seqs.Dedup(a + b))
  }

  /** `buf[idx].get("times_seen", 0)`, for the integer the buffer stores there. */
  function TimesSeen(d: Dict): int {
    match GetOr(d, "times_seen", JInt(0))
    case JInt(i) => i
    case _ => 0
  }

  /** The candidate after `last_seen_step` and `times_seen` are written into it. */
  function Stamp(cand: Dict, step: int, times: int): Dict {
    cand["last_seen_step" := JInt(step)]["times_seen" := JInt(times)]
  }

  /** The `times_seen` the candidate is given: one more than the stored entry's, else 1. */
  function NewTimes(buf: seq<Dict>, cand: Dict): int {
    match FindItem(buf, ItemKey(cand))
    case None => 1
    case Some(i) => TimesSeen(buf[i]) + 1
  }

  /** The stored entry merged with the stamped candidate, with the merged `actions_taken`. */
  function Merge(stored: Dict, stamped: Dict, at: seq<Json>): Dict {
    Overlay(stored, stamped)["actions_taken" := JList(at)]
  }

  /** The buffer after `add_or_update_buffer`: an unseen item is appended, a known one is
      replaced in place by the merge of the stored entry and the candidate. */
  function Upsert(buf: seq<Dict>, cand: Dict, step: int): Result<seq<Dict>> {
    var stamped := Stamp(cand, step, NewTimes(buf, cand));
    match FindItem(buf, ItemKey(cand))
    case None => Ok(buf + [stamped])
    case Some(i) =>
      match MergedActions(buf[i], cand)
      case Err(e) => Err(e)
      case Ok(at) => Ok(buf[i := Merge(buf[i], stamped, at)])
  }

  /** What every buffer the agent builds satisfies: one entry per item id, each seen at least
      once. The buffer starts empty and only `add_or_update_buffer` writes to it. */
  predicate BufferInvariant(buf: seq<Dict>) {
    (forall i, j :: 0 <= i < j < |buf| ==> ItemKey(buf[i]) != ItemKey(buf[j]))
    && (forall k :: 0 <= k < |buf| ==> GetOr(buf[k], "times_seen", JNull).JInt? && TimesSeen(buf[k]) >= 1)
  }

  class MemoryBuffer {
    var entries: seq<Dict>

    predicate Valid()
      reads this
    {
      BufferInvariant(entries)
    }

    constructor()
      ensures entries == [] && Valid()
    {
      entries := [];
    }

    /** `add_or_update_buffer`: returns the candidate as it was updated in place, or the
        TypeError of merging `actions_taken` values that are not lists, with the buffer
        unchanged. */
    method AddOrUpdate(candidate: Dict, stepCount: int) returns (r: Result<Dict>)
      requires Valid()
      modifies this
      ensures Valid()
      ensures r.Ok? <==> Upsert(old(entries), candidate, stepCount).Ok?
      ensures r.Ok? ==>
        (entries == Upsert(old(entries), candidate, stepCount).value
         && r.value == Stamp(candidate, stepCount, NewTimes(old(entries), candidate)))
      ensures r.Err? ==> entries == old(entries)
    {
      var buf := entries;
      var i := 0;
      while i < |buf| && ItemKey(buf[i]) != ItemKey(candidate)
        invariant 0 <= i <= |buf|
        invariant forall k :: 0 <= k < i ==> ItemKey(buf[k]) != ItemKey(candidate)
      {
        i := i + 1;
      }
      if i == |buf| {
        var stamped := Stamp(candidate, stepCount, 1);
        UpsertNew(buf, candidate, stepCount);
        entries := buf + [stamped];
        return Ok(stamped);
      }
      var stamped := Stamp(candidate, stepCount, TimesSeen(buf[i]) + 1);
      var at := MergedActions(buf[i], candidate);
      if at.Err? {
        UpsertMergeFails(buf, candidate, stepCount, i);
        return Err(at.error);
      }
      UpsertMergeAt(buf, candidate, stepCount, i, at.value);
      entries := buf[i := Merge(buf[i], stamped, at.value)];
      return Ok(stamped);
    }
  }

  /** The buffer after appending an item none of whose entries has its key. */
  lemma UpsertNew(buf: seq<Dict>, cand: Dict, step: int)
    requires BufferInvariant(buf)
    requires forall k :: 0 <= k < |buf| ==> ItemKey(buf[k]) != ItemKey(cand)
    ensures Upsert(buf, cand, step) == Ok(buf + [Stamp(cand, step, 1)])
    ensures NewTimes(buf, cand) == 1
    ensures BufferInvariant(buf + [Stamp(cand, step, 1)])
  {
    assert FindItem(buf, ItemKey(cand)).None?;
    UpsertKeepsInvariant(buf, cand, step);
  }

  /** Merging into the first entry with the candidate's key fails exactly as its
      `actions_taken` merge does. */
  lemma UpsertMergeFails(buf: seq<Dict>, cand: Dict, step: int, i: nat)
    requires i < |buf| && ItemKey(buf[i]) == ItemKey(cand)
    requires forall k :: 0 <= k < i ==> ItemKey(buf[k]) != ItemKey(cand)
    requires MergedActions(buf[i], cand).Err?
    ensures Upsert(buf, cand, step) == Err(MergedActions(buf[i], cand).error)
  {
    assert FindItem(buf, ItemKey(cand)) == Some(i);
  }

  /** The buffer after merging into entry `i`. */
  lemma UpsertAt(buf: seq<Dict>, cand: Dict, step: int, i: nat, at: seq<Json>)
    requires FindItem(buf, ItemKey(cand)) == Some(i)
    requires MergedActions(buf[i], cand) == Ok(at)
    ensures Upsert(buf, cand, step) == Ok(buf[i := Merge(buf[i], Stamp(cand, step, TimesSeen(buf[i]) + 1), at)])
  {
    assert NewTimes(buf, cand) == TimesSeen(buf[i]) + 1;
  }

  /** Merging into the first entry with the candidate's key, as the scan finds it. */
  lemma UpsertMergeAt(buf: seq<Dict>, cand: Dict, step: int, i: nat, at: seq<Json>)
    requires BufferInvariant(buf)
    requires i < |buf| && ItemKey(buf[i]) == ItemKey(cand)
    requires forall k :: 0 <= k < i ==> ItemKey(buf[k]) != ItemKey(cand)
    requires MergedActions(buf[i], cand) == Ok(at)
    ensures Upsert(buf, cand, step) == Ok(buf[i := Merge(buf[i], Stamp(cand, step, TimesSeen(buf[i]) + 1), at)])
    ensures NewTimes(buf, cand) == TimesSeen(buf[i]) + 1
    ensures BufferInvariant(buf[i := Merge(buf[i], Stamp(cand, step, TimesSeen(buf[i]) + 1), at)])
  {
    assert FindItem(buf, ItemKey(cand)) == Some(i);
    UpsertAt(buf, cand, step, i, at);
    UpsertKeepsInvariant(buf, cand, step);
  }

  /** The stamp writes the two counters and keeps every other field of the candidate. */
  lemma StampFields(cand: Dict, step: int, times: int, k: string)
    ensures var st := Stamp(cand, step, times);
      "times_seen" in st && st["times_seen"] == JInt(times)
      && "last_seen_step" in st && st["last_seen_step"] == JInt(step)
      && (k != "times_seen" && k != "last_seen_step" ==>
            (k in st <==> k in cand) && (k in cand ==> st[k] == cand[k]))
  {
  }

  /** One field of a merged entry. */
  lemma MergeFields(stored: Dict, stamped: Dict, at: seq<Json>, k: string)
    ensures var m := Merge(stored, stamped, at);
      (k == "actions_taken" ==> k in m && m[k] == JList(at))
      && (k != "actions_taken" ==>
            (k in m <==> k in stored || (k in stamped && Kept(stamped[k])))
            && (k in stamped && Kept(stamped[k]) ==> m[k] == stamped[k])
            && (k in stored && !(k in stamped && Kept(stamped[k])) ==> m[k] == stored[k]))
  {
  }

  /** An item id not in the buffer grows it by exactly one entry at the end, stamped with the
      step and `times_seen = 1`; the earlier entries are untouched. */
  lemma UpsertNewItem(buf: seq<Dict>, cand: Dict, step: int)
    requires FindItem(buf, ItemKey(cand)).None?
    ensures Upsert(buf, cand, step).Ok?
    ensures var nb := Upsert(buf, cand, step).value;
      |nb| == |buf| + 1 && nb[..|buf|] == buf
      && nb[|buf|] == Stamp(cand, step, 1)
      && nb[|buf|]["times_seen"] == JInt(1) && nb[|buf|]["last_seen_step"] == JInt(step)
  {
    var nb := Upsert(buf, cand, step).value;
    assert nb == buf + [Stamp(cand, step, 1)];
    StampFields(cand, step, 1, "");
  }

  /** A known item id keeps the length; only its entry changes, with `times_seen` one more
      than before and `last_seen_step` the current step. */
  lemma UpsertExistingItem(buf: seq<Dict>, cand: Dict, step: int, i: nat)
    requires FindItem(buf, ItemKey(cand)) == Some(i)
    requires Upsert(buf, cand, step).Ok?
    ensures var nb := Upsert(buf, cand, step).value;
      |nb| == |buf| && (forall k :: 0 <= k < |buf| && k != i ==> nb[k] == buf[k])
      && "times_seen" in nb[i] && nb[i]["times_seen"] == JInt(TimesSeen(buf[i]) + 1)
      && "last_seen_step" in nb[i] && nb[i]["last_seen_step"] == JInt(step)
  {
    var at := MergedActions(buf[i], cand).value;
    var stamped := Stamp(cand, step, TimesSeen(buf[i]) + 1);
    UpsertAt(buf, cand, step, i, at);
    StampFields(cand, step, TimesSeen(buf[i]) + 1, "");
    MergeFields(buf[i], stamped, at, "times_seen");
    MergeFields(buf[i], stamped, at, "last_seen_step");
  }

  /** The merge keeps a stored value wherever the candidate has none, or has None or "", and
      takes the candidate's value everywhere else; `actions_taken` is merged separately. */
  lemma MergeKeepsStoredValues(buf: seq<Dict>, cand: Dict, step: int, i: nat, k: string)
    requires FindItem(buf, ItemKey(cand)) == Some(i)
    requires Upsert(buf, cand, step).Ok?
    requires k != "actions_taken" && k != "last_seen_step" && k != "times_seen"
    ensures var nb := Upsert(buf, cand, step).value;
      (k in buf[i] && !(k in cand && Kept(cand[k])) ==> k in nb[i] && nb[i][k] == buf[i][k])
      && (k in cand && Kept(cand[k]) ==> k in nb[i] && nb[i][k] == cand[k])
      && (k in nb[i] ==> k in buf[i] || (k in cand && Kept(cand[k])))
  {
    var at := MergedActions(buf[i], cand).value;
    var stamped := Stamp(cand, step, TimesSeen(buf[i]) + 1);
    UpsertAt(buf, cand, step, i, at);
    StampFields(cand, step, TimesSeen(buf[i]) + 1, k);
    MergeFields(buf[i], stamped, at, k);
  }

  /** The merged `actions_taken`: the stored actions then the candidate's, deduplicated. */
  lemma MergedActionsOf(stored: Dict, incoming: Dict, a: seq<Json>, b: seq<Json>)
    requires ListOrEmpty(Get(stored, "actions_taken")) == Ok(a)
    requires ListOrEmpty(Get(incoming, "actions_taken")) == Ok(b)
    ensures MergedActions(stored, incoming) == Ok(Seqs.Dedup(a + b))
  {
  }

  /** The merged `actions_taken` has no duplicates, holds every action of both lists, and
      starts with the distinct stored actions in their order (the stored list itself, when it
      has no duplicates). */
  lemma MergedActionsFirstOccurrences(a: seq<Json>, b: seq<Json>)
    ensures var at := Seqs.Dedup(a + b);
      Seqs.NoDup(at)
      && (forall x :: x in a || x in b ==> x in at)
      && (forall x :: x in at ==> x in a || x in b)
      && |Seqs.Dedup(a)| <= |at| && at[..|Seqs.Dedup(a)|] == Seqs.Dedup(a)
      && (Seqs.NoDup(a) ==> |a| <= |at| && at[..|a|] == a)
  {
    var at := Seqs.Dedup(a + b);
    Seqs.DedupPrefix(a, b);
    forall x | x in a || x in b ensures x in at {
      if x in a {
        var j :| 0 <= j < |a| && a[j] == x;
        assert (a + b)[j] == x;
      } else {
        var j :| 0 <= j < |b| && b[j] == x;
        assert (a + b)[|a| + j] == x;
      }
    }
    forall x | x in at ensures x in a || x in b {
      var k :| 0 <= k < |at| && at[k] == x;
      assert x in a + b;
    }
    if Seqs.NoDup(a) {
      Seqs.DedupNoDup(a);
    }
  }

  /** The buffer never holds two entries with the same item id: a match is merged in place,
      and only an id not yet present is appended. */
  lemma UpsertKeepsInvariant(buf: seq<Dict>, cand: Dict, step: int)
    requires BufferInvariant(buf)
    requires Upsert(buf, cand, step).Ok?
    ensures BufferInvariant(Upsert(buf, cand, step).value)
  {
    match FindItem(buf, ItemKey(cand))
    case None =>
      UpsertNewItemAt(buf, cand, step);
      StampFields(cand, step, 1, "item_id");
      InvariantAfterAppend(buf, Stamp(cand, step, 1));
    case Some(i) =>
      var at := MergedActions(buf[i], cand).value;
      var t := TimesSeen(buf[i]) + 1;
      var stamped := Stamp(cand, step, t);
      UpsertAt(buf, cand, step, i, at);
      StampFields(cand, step, t, "item_id");
      MergeFields(buf[i], stamped, at, "times_seen");
      MergedKeyKept(buf[i], stamped, at);
      InvariantAfterReplace(buf, i, Merge(buf[i], stamped, at));
  }

  /** An unseen item is appended, stamped as seen once. */
  lemma UpsertNewItemAt(buf: seq<Dict>, cand: Dict, step: int)
    requires FindItem(buf, ItemKey(cand)).None?
    ensures Upsert(buf, cand, step) == Ok(buf + [Stamp(cand, step, 1)])
  {
  }

  /** An entry whose key no entry has, and which has been seen, can be appended. */
  lemma InvariantAfterAppend(buf: seq<Dict>, e: Dict)
    requires BufferInvariant(buf)
    requires forall k :: 0 <= k < |buf| ==> ItemKey(buf[k]) != ItemKey(e)
    requires GetOr(e, "times_seen", JNull).JInt? && TimesSeen(e) >= 1
    ensures BufferInvariant(buf + [e])
  {
    var nb := buf + [e];
    forall p, q | 0 <= p < q < |nb| ensures ItemKey(nb[p]) != ItemKey(nb[q]) {
      assert nb[p] == buf[p];
    }
  }

  /** An entry can be replaced by one with the same key that has been seen. */
  lemma InvariantAfterReplace(buf: seq<Dict>, i: nat, e: Dict)
    requires BufferInvariant(buf) && i < |buf| && ItemKey(e) == ItemKey(buf[i])
    requires GetOr(e, "times_seen", JNull).JInt? && TimesSeen(e) >= 1
    ensures BufferInvariant(buf[i := e])
  {
    var nb := buf[i := e];
    forall p, q | 0 <= p < q < |nb| ensures ItemKey(nb[p]) != ItemKey(nb[q]) {
      assert ItemKey(nb[p]) == ItemKey(buf[p]) && ItemKey(nb[q]) == ItemKey(buf[q]);
    }
  }

  /** Merging a candidate with the entry's own item id keeps that id. */
  lemma MergedKeyKept(stored: Dict, stamped: Dict, at: seq<Json>)
    requires ItemKey(stamped) == ItemKey(stored)
    ensures ItemKey(Merge(stored, stamped, at)) == ItemKey(stored)
  {
    MergeFields(stored, stamped, at, "item_id");
  }

  // ---------------------------------------------------------------- node_stopping_space

  /** The sort key `(score, last_seen_step, times_seen)`, each -1 when absent. */
  datatype Key = Key(score: real, lastSeen: real, timesSeen: real)

  /** A number read from an entry; Python's bools are the integers 0 and 1. */
  function Num(v: Json, default: real): real {
    match v
    case JInt(i) => i as real
    case JReal(x) => x
    case JBool(b) => if b then 1.0 else 0.0
    case _ => default
  }

  function SortKey(d: Dict): Key {
    Key(Num(GetOr(d, "score", JReal(-1.0)), -1.0),
        Num(GetOr(d, "last_seen_step", JInt(-1)), -1.0),
        Num(GetOr(d, "times_seen", JInt(-1)), -1.0))
  }

  /** Python's tuple order. */
  predicate KeyLess(a: Key, b: Key) {
    a.score < b.score
    || (a.score == b.score && a.lastSeen < b.lastSeen)
    || (a.score == b.score && a.lastSeen == b.lastSeen && a.timesSeen < b.timesSeen)
  }

  /** Keys are totally ordered: two keys are equal or one is below the other. */
  lemma KeyOrderTotal(a: Key, b: Key)
    ensures KeyLess(a, b) || KeyLess(b, a) || a == b
    ensures !(KeyLess(a, b) && KeyLess(b, a))
  {
  }

  lemma KeyLessTransitive(a: Key, b: Key, c: Key)
    requires KeyLess(a, b) && KeyLess(b, c)
    ensures KeyLess(a, c)
  {
  }

  /**
   * `sorted(buf, key=sort_key, reverse=True)[0]`: a stable sort largest first puts first the
   * earliest of the entries with the greatest key. The index returned has a key no entry
   * exceeds, and every entry before it has a strictly smaller key.
   */
  function BestIndex(buf: seq<Dict>): (r: nat)
    requires |buf| > 0
    ensures r < |buf|
    ensures forall k :: 0 <= k < |buf| ==> !KeyLess(SortKey(buf[r]), SortKey(buf[k]))
    ensures forall k :: 0 <= k < r ==> KeyLess(SortKey(buf[k]), SortKey(buf[r]))
    decreases |buf|
  {
    if |buf| == 1 then 0
    else
      var b := BestIndex(buf[..|buf| - 1]);
      var last := |buf| - 1;
      if KeyLess(SortKey(buf[b]), SortKey(buf[last])) then
        BestBehindLast(buf, b);
        last
      else b
  }

  /** When the last entry beats the best of the ones before it, it beats all of them. */
  lemma BestBehindLast(buf: seq<Dict>, b: nat)
    requires |buf| > 1 && b < |buf| - 1
    requires forall k :: 0 <= k < |buf| - 1 ==> !KeyLess(SortKey(buf[b]), SortKey(buf[k]))
    requires KeyLess(SortKey(buf[b]), SortKey(buf[|buf| - 1]))
    ensures forall k :: 0 <= k < |buf| - 1 ==> KeyLess(SortKey(buf[k]), SortKey(buf[|buf| - 1]))
  {
    forall k | 0 <= k < |buf| - 1 ensures KeyLess(SortKey(buf[k]), SortKey(buf[|buf| - 1])) {
      KeyOrderTotal(SortKey(buf[k]), SortKey(buf[b]));
      if KeyLess(SortKey(buf[k]), SortKey(buf[b])) {
        KeyLessTransitive(SortKey(buf[k]), SortKey(buf[b]), SortKey(buf[|buf| - 1]));
      }
    }
  }

  const NoItemNote: Dict := map["note" := JStr("최종 선택된 아이템 없음 (메모리 버퍼 비어있음)")]

  /** The `selected_item` the Stopping node returns. */
  function StoppingSelection(selected: Option<Dict>, buf: seq<Dict>): Dict {
    if selected.Some? && selected.value != map[] then selected.value
    else if buf == [] then NoItemNote
    else buf[BestIndex(buf)]
  }

  /** A bought item is kept; otherwise an empty buffer gives the note, and a non-empty one
      its first entry of greatest key. */
  lemma StoppingSelectionChoice(selected: Option<Dict>, buf: seq<Dict>)
    ensures selected.Some? && selected.value != map[] ==> StoppingSelection(selected, buf) == selected.value
    ensures !(selected.Some? && selected.value != map[]) && buf == [] ==>
      StoppingSelection(selected, buf) == NoItemNote
    ensures !(selected.Some? && selected.value != map[]) && buf != [] ==>
      exists r :: 0 <= r < |buf| && StoppingSelection(selected, buf) == buf[r]
        && (forall k :: 0 <= k < |buf| ==> !KeyLess(SortKey(buf[r]), SortKey(buf[k])))
        && (forall k :: 0 <= k < r ==> KeyLess(SortKey(buf[k]), SortKey(buf[r])))
  {
    if !(selected.Some? && selected.value != map[]) && buf != [] {
      var r := BestIndex(buf);
      assert StoppingSelection(selected, buf) == buf[r];
    }
  }
}
