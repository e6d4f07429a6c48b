/**
 * Reading a model answer in the AgentQ output format (AgentQ/agentq/prompt_utils.py): the
 * answer is split at lines that begin with `PLAN:`, `THOUGHT:`, `COMMANDS:` or `STATUS:`, the
 * COMMANDS block gives the candidate command lines and the STATUS block the status word.
 */
module AgentQBlocks {
  import opened Wrappers
  import opened Text
  import opened Seqs
  import opened AgentQCommands

  // ---------------------------------------------------------------- the header split

  /** The block names, and the keys of the block dictionary. */
  const Keys: set<string> := {"PLAN", "THOUGHT", "COMMANDS", "STATUS"}

  /** End of the header word at `i` (any case), trying PLAN, THOUGHT, COMMANDS, STATUS. */
  function HeaderWord(s: string, i: nat): (r: Option<nat>)
    ensures r.Some? ==> i + 4 <= r.value <= |s|
  {
    if CiAt(s, i, "PLAN") then WordAt(s, i, "PLAN")
    else if CiAt(s, i, "THOUGHT") then WordAt(s, i, "THOUGHT")
    else if CiAt(s, i, "COMMANDS") then WordAt(s, i, "COMMANDS")
    else if CiAt(s, i, "STATUS") then WordAt(s, i, "STATUS")
    else None
  }

  /** A match of `(?mi)^(PLAN|THOUGHT|COMMANDS|STATUS)\s*:\s*` at `i`: the captured word as
      written, and where the match ends. */
  function HeaderAt(s: string, i: nat): (r: Option<(string, nat)>)
    requires i <= |s|
    ensures r.Some? ==> i < r.value.1 <= |s|
  {
    if i > 0 && s[i - 1] != '\n' then None
    else match HeaderWord(s, i)
      case None => None
      case Some(w) =>
        var j := Ws(s, w);
        if j < |s| && s[j] == ':' then Some((s[i..w], Ws(s, j + 1))) else None
  }

  /** `re.split` with the header pattern, scanning from `p` with the current piece begun at
      `t`: the pieces of text alternate with the captured header words. */
  function PartsFrom(s: string, t: nat, p: nat): (r: seq<string>)
    requires t <= p <= |s|
    decreases |s| - p
  {
    if p == |s| then [s[t..]]
    else match HeaderAt(s, p)
      case Some((k, e)) => [s[t..p], k] + PartsFrom(s, e, e)
      case None => PartsFrom(s, t, p + 1)
  }

  function Parts(s: string): seq<string> {
    PartsFrom(s, 0, 0)
  }

  /** With no header anywhere from `p` on, the rest is one piece. */
  lemma {:induction false} PartsFromNoHeader(s: string, t: nat, p: nat)
    requires t <= p <= |s|
    requires forall i :: p <= i <= |s| ==> HeaderAt(s, i).None?
    ensures PartsFrom(s, t, p) == [s[t..]]
    decreases |s| - p
  {
    if p < |s| {
      PartsFromNoHeader(s, t, p + 1);
    }
  }

  // ---------------------------------------------------------------- what the blocks are

  // The functions below read the stripped pieces `sp` of the split; a piece opens a block
  // when it is one of `keys`.

  function Stripped(ps: seq<string>): (r: seq<string>)
    ensures |r| == |ps|
    ensures forall j :: 0 <= j < |ps| ==> r[j] == Strip(ps[j])
  {
    seq(|ps|, j requires 0 <= j < |ps| => Strip(ps[j]))
  }

  /** The last piece before `n` that names a block. */
  function LastKey(keys: set<string>, sp: seq<string>, n: nat): (r: Option<nat>)
    requires n <= |sp|
    ensures r.Some? ==> r.value < n && sp[r.value] in keys
    ensures r.Some? ==> forall j :: r.value < j < n ==> sp[j] !in keys
    ensures r.None? ==> forall j :: 0 <= j < n ==> sp[j] !in keys
  {
    if n == 0 then None
    else if sp[n - 1] in keys then Some(n - 1)
    else LastKey(keys, sp, n - 1)
  }

  /** The last piece before `n` that names block `k`. */
  function LastOf(sp: seq<string>, k: string, n: nat): (r: Option<nat>)
    requires n <= |sp|
    ensures r.Some? ==> r.value < n && sp[r.value] == k
    ensures r.Some? ==> forall j :: r.value < j < n ==> sp[j] != k
    ensures r.None? ==> forall j :: 0 <= j < n ==> sp[j] != k
  {
    if n == 0 then None
    else if sp[n - 1] == k then Some(n - 1)
    else LastOf(sp, k, n - 1)
  }

  /** The first piece from `j` on, before `n`, that names a block, or `n`. */
  function NextFrom(keys: set<string>, sp: seq<string>, j: nat, n: nat): (r: nat)
    requires n <= |sp|
    ensures j <= n ==> j <= r <= n
    ensures forall m :: j <= m < r && m < n ==> sp[m] !in keys
    ensures r < n ==> sp[r] in keys
    decreases n - j
  {
    if j >= n then n
    else if sp[j] in keys then j
    else NextFrom(keys, sp, j + 1, n)
  }

  /** Text that comes before every header (kept in the buffer by the first block). */
  function Lead(keys: set<string>, sp: seq<string>, i: nat): seq<string>
    requires i <= |sp|
  {
    if LastKey(keys, sp, i).None? then sp[..i] else []
  }

  /** The lines of the block opened at `i`, reading the pieces before `n`. */
  function Body(keys: set<string>, sp: seq<string>, i: nat, n: nat): seq<string>
    requires i < n <= |sp|
  {
    Lead(keys, sp, i) + sp[i + 1..NextFrom(keys, sp, i + 1, n)]
  }

  /** Block `k` after reading the pieces before `n`: the body of its LAST header, or "". */
  function BlockOf(keys: set<string>, sp: seq<string>, k: string, n: nat): string
    requires n <= |sp|
  {
    match LastOf(sp, k, n)
    case None => ""
    case Some(i) => Joined(Body(keys, sp, i, n))
  }

  /** The lines of a block joined with newlines and stripped. */
  function Joined(lines: seq<string>): string {
    Strip(Join(lines, "\n"))
  }

  const EmptyBlocks: map<string, string> :=
    map["PLAN" := "", "THOUGHT" := "", "COMMANDS" := "", "STATUS" := ""]

  /** The four blocks of a model answer. */
  function OutputBlocks(response: string): map<string, string> {
    var parts := Parts(response);
    var sp := Stripped(parts);
    if response == "" || |parts| < 3 then EmptyBlocks
    else map k | k in Keys :: BlockOf(Keys, sp, k, |sp|)
  }

  // ---------------------------------------------------------------- split_output_blocks

  /** What the loop has buffered after reading the pieces before `n`. */
  function Buffered(keys: set<string>, sp: seq<string>, n: nat): seq<string>
    requires n <= |sp|
  {
    match LastKey(keys, sp, n)
    case None => sp[..n]
    case Some(c) => Lead(keys, sp, c) + sp[c + 1..n]
  }

  /** The block the loop is filling after reading the pieces before `n`. */
  function Current(keys: set<string>, sp: seq<string>, n: nat): (r: Option<string>)
    requires n <= |sp|
    ensures r.Some? ==> r.value in keys
  {
    match LastKey(keys, sp, n)
    case None => None
    case Some(c) => Some(sp[c])
  }

  /** A block opened before `c` has its end fixed once the key at `c` is read. */
  lemma {:induction false} NextFromStable(keys: set<string>, sp: seq<string>, j: nat, c: nat, n: nat)
    requires j <= c < n < |sp| && sp[c] in keys
    ensures NextFrom(keys, sp, j, n + 1) == NextFrom(keys, sp, j, n)
    decreases c - j
  {
    if sp[j] !in keys {
      NextFromStable(keys, sp, j + 1, c, n);
    }
  }

  /** A block other than the one being filled stays as it is when piece `n` does not name
      it. */
  lemma SettledStays(keys: set<string>, sp: seq<string>, k: string, n: nat)
    requires n < |sp| && LastKey(keys, sp, n).Some? && k in keys
    requires k != sp[n] && Current(keys, sp, n) != Some(k)
    ensures BlockOf(keys, sp, k, n + 1) == BlockOf(keys, sp, k, n)
  {
    var c := LastKey(keys, sp, n).value;
    assert LastOf(sp, k, n + 1) == LastOf(sp, k, n);
    match LastOf(sp, k, n)
    case None =>
    case Some(i) =>
      assert i < c;
      NextFromStable(keys, sp, i + 1, c, n);
  }

  /** Reading a header: the block being filled gets the buffer; the others do not change. */
  lemma KeyStep(keys: set<string>, sp: seq<string>, n: nat)
    requires n < |sp| && sp[n] in keys
    ensures Current(keys, sp, n + 1) == Some(sp[n])
    ensures Buffered(keys, sp, n + 1) == if Current(keys, sp, n).Some? then [] else Buffered(keys, sp, n)
    ensures forall k :: k in keys && k != sp[n] ==>
      BlockOf(keys, sp, k, n + 1) ==
        if Current(keys, sp, n) == Some(k) then Joined(Buffered(keys, sp, n)) else BlockOf(keys, sp, k, n)
  {
    assert LastKey(keys, sp, n + 1) == Some(n);
    assert sp[n + 1..n + 1] == [];
    forall k | k in keys && k != sp[n]
      ensures BlockOf(keys, sp, k, n + 1) ==
        if Current(keys, sp, n) == Some(k) then Joined(Buffered(keys, sp, n)) else BlockOf(keys, sp, k, n)
    {
      if Current(keys, sp, n) == Some(k) {
        KeyClosesCurrent(keys, sp, n);
      } else if LastKey(keys, sp, n).Some? {
        SettledStays(keys, sp, k, n);
      } else {
        KeyBeforeAnyBlock(keys, sp, k, n);
      }
    }
  }

  /** A header closes the block being filled, which then holds the buffer. */
  lemma KeyClosesCurrent(keys: set<string>, sp: seq<string>, n: nat)
    requires n < |sp| && sp[n] in keys
    requires Current(keys, sp, n).Some? && Current(keys, sp, n).value != sp[n]
    ensures BlockOf(keys, sp, Current(keys, sp, n).value, n + 1) == Joined(Buffered(keys, sp, n))
  {
    var c := LastKey(keys, sp, n).value;
    LastOfIs(sp, sp[c], n + 1, c);
    NextFromNone(keys, sp, c + 1, n);
    assert NextFrom(keys, sp, c + 1, n + 1) == n;
    assert Body(keys, sp, c, n + 1) == Buffered(keys, sp, n);
  }

  /** Before the first header no block has been read. */
  lemma KeyBeforeAnyBlock(keys: set<string>, sp: seq<string>, k: string, n: nat)
    requires n < |sp| && sp[n] in keys && k in keys && k != sp[n] && LastKey(keys, sp, n).None?
    ensures BlockOf(keys, sp, k, n + 1) == BlockOf(keys, sp, k, n)
  {
    assert LastOf(sp, k, n + 1).None?;
  }

  /** Reading text: it joins the buffer, and no settled block changes. */
  lemma TextStep(keys: set<string>, sp: seq<string>, n: nat)
    requires n < |sp| && sp[n] !in keys
    ensures Current(keys, sp, n + 1) == Current(keys, sp, n)
    ensures Buffered(keys, sp, n + 1) == Buffered(keys, sp, n) + [sp[n]]
    ensures forall k :: k in keys && Current(keys, sp, n) != Some(k) ==>
      BlockOf(keys, sp, k, n + 1) == BlockOf(keys, sp, k, n)
  {
    assert LastKey(keys, sp, n + 1) == LastKey(keys, sp, n);
    if LastKey(keys, sp, n).None? {
      TextBeforeAnyKey(keys, sp, n);
    } else {
      TextAfterKey(keys, sp, n);
    }
  }

  /** Text before the first header: only the buffer grows. */
  lemma TextBeforeAnyKey(keys: set<string>, sp: seq<string>, n: nat)
    requires n < |sp| && sp[n] !in keys && LastKey(keys, sp, n).None?
    ensures LastKey(keys, sp, n + 1).None?
    ensures Buffered(keys, sp, n + 1) == Buffered(keys, sp, n) + [sp[n]]
    ensures forall k :: k in keys ==> BlockOf(keys, sp, k, n + 1) == BlockOf(keys, sp, k, n)
  {
    assert sp[..n + 1] == sp[..n] + [sp[n]];
    forall k | k in keys ensures BlockOf(keys, sp, k, n + 1) == BlockOf(keys, sp, k, n) {
      assert LastOf(sp, k, n + 1).None?;
    }
  }

  /** Text after a header: it joins that header's buffer, and the other blocks stay. */
  lemma TextAfterKey(keys: set<string>, sp: seq<string>, n: nat)
    requires n < |sp| && sp[n] !in keys && LastKey(keys, sp, n).Some?
    ensures LastKey(keys, sp, n + 1) == LastKey(keys, sp, n)
    ensures Buffered(keys, sp, n + 1) == Buffered(keys, sp, n) + [sp[n]]
    ensures forall k :: k in keys && Current(keys, sp, n) != Some(k) ==>
      BlockOf(keys, sp, k, n + 1) == BlockOf(keys, sp, k, n)
  {
    var c := LastKey(keys, sp, n).value;
    assert LastKey(keys, sp, n + 1) == Some(c);
    assert sp[c + 1..n + 1] == sp[c + 1..n] + [sp[n]];
    forall k | k in keys && Current(keys, sp, n) != Some(k)
      ensures BlockOf(keys, sp, k, n + 1) == BlockOf(keys, sp, k, n)
    {
      SettledStays(keys, sp, k, n);
    }
  }

  /** The block that is open at the end is the body of its last header. */
  lemma LastBlock(keys: set<string>, sp: seq<string>)
    requires LastKey(keys, sp, |sp|).Some?
    ensures BlockOf(keys, sp, Current(keys, sp, |sp|).value, |sp|) == Joined(Buffered(keys, sp, |sp|))
  {
    var c := LastKey(keys, sp, |sp|).value;
    LastOfIs(sp, sp[c], |sp|, c);
    NextFromNone(keys, sp, c + 1, |sp|);
    assert Body(keys, sp, c, |sp|) == Buffered(keys, sp, |sp|);
  }

  lemma LastOfIs(sp: seq<string>, k: string, n: nat, c: nat)
    requires c < n <= |sp| && sp[c] == k && forall j :: c < j < n ==> sp[j] != k
    ensures LastOf(sp, k, n) == Some(c)
  {
  }

  lemma NextFromNone(keys: set<string>, sp: seq<string>, j: nat, n: nat)
    requires j <= n <= |sp| && forall m :: j <= m < n ==> sp[m] !in keys
    ensures NextFrom(keys, sp, j, n) == n
  {
  }

  /** With no key among the pieces, every block is empty. */
  lemma NoKeyNoBlock(keys: set<string>, sp: seq<string>, k: string)
    requires LastKey(keys, sp, |sp|).None? && k in keys
    ensures BlockOf(keys, sp, k, |sp|) == ""
  {
    assert LastOf(sp, k, |sp|).None?;
  }

  /** After reading the pieces before `n`, `blocks` holds every block that is not open. */
  predicate Agrees(keys: set<string>, sp: seq<string>, n: nat, blocks: map<string, string>)
    requires n <= |sp|
  {
    keys <= blocks.Keys &&
    forall k :: k in keys && Current(keys, sp, n) != Some(k) ==> blocks[k] == BlockOf(keys, sp, k, n)
  }

  /** The state of the loop of `split_output_blocks` after reading the pieces before `n`. */
  predicate Reading(keys: set<string>, sp: seq<string>, n: nat, current: Option<string>, buf: seq<string>,
                    blocks: map<string, string>)
    requires n <= |sp|
  {
    current == Current(keys, sp, n) && buf == Buffered(keys, sp, n) && blocks.Keys == keys &&
    Agrees(keys, sp, n, blocks)
  }

  lemma ReadStart(keys: set<string>, sp: seq<string>, blocks: map<string, string>)
    requires blocks.Keys == keys && forall k :: k in keys ==> blocks[k] == ""
    ensures Reading(keys, sp, 0, None, [], blocks)
  {
  }

  lemma ReadKey(keys: set<string>, sp: seq<string>, n: nat, current: Option<string>, buf: seq<string>,
                blocks: map<string, string>)
    requires n < |sp| && sp[n] in keys && Reading(keys, sp, n, current, buf, blocks)
    ensures Reading(keys, sp, n + 1, Some(sp[n]), if current.Some? then [] else buf,
                    if current.Some? then blocks[current.value := Joined(buf)] else blocks)
  {
    KeyStep(keys, sp, n);
  }

  lemma ReadText(keys: set<string>, sp: seq<string>, n: nat, current: Option<string>, buf: seq<string>,
                 blocks: map<string, string>)
    requires n < |sp| && sp[n] !in keys && Reading(keys, sp, n, current, buf, blocks)
    ensures Reading(keys, sp, n + 1, current, buf + [sp[n]], blocks)
  {
    TextStep(keys, sp, n);
  }

  lemma ReadEnd(keys: set<string>, sp: seq<string>, current: Option<string>, buf: seq<string>,
                blocks: map<string, string>)
    requires Reading(keys, sp, |sp|, current, buf, blocks)
    ensures (if current.Some? then blocks[current.value := Joined(buf)] else blocks)
      == map k | k in keys :: BlockOf(keys, sp, k, |sp|)
  {
    match current
    case None =>
      forall k | k in keys ensures blocks[k] == BlockOf(keys, sp, k, |sp|) {
        NoKeyNoBlock(keys, sp, k);
      }
    case Some(c) =>
      LastBlock(keys, sp);
  }

  lemma EmptyBlocksShape()
    ensures EmptyBlocks.Keys == Keys && forall k :: k in Keys ==> EmptyBlocks[k] == ""
  {
  }

  /** The loop of `split_output_blocks`: the pieces are read in order; a piece whose stripped
      text is a key of the dictionary closes the open block with the buffered lines and opens
      that one, any other piece is buffered stripped. */
  method ReadParts(parts: seq<string>, blocks0: map<string, string>) returns (blocks: map<string, string>)
    requires forall k :: k in blocks0 ==> blocks0[k] == ""
    ensures blocks == map k | k in blocks0.Keys :: BlockOf(blocks0.Keys, Stripped(parts), k, |parts|)
  {
    ghost var keys := blocks0.Keys;
    ghost var sp := Stripped(parts);
    blocks := blocks0;
    ReadStart(keys, sp, blocks);
    var current: Option<string> := None;
    var buf: seq<string> := [];
    var n := 0;
    while n < |parts|
      invariant n <= |parts|
      invariant Reading(keys, sp, n, current, buf, blocks) == true
    {
      var key := Strip(parts[n]);
      assert key == sp[n];
      if key in blocks {
        ReadKey(keys, sp, n, current, buf, blocks);
        if current.Some? {
          blocks := blocks[current.value := Joined(buf)];
          buf := [];
        }
        current := Some(key);
      } else {
        ReadText(keys, sp, n, current, buf, blocks);
        buf := buf + [key];
      }
      n := n + 1;
    }
    ReadEnd(keys, sp, current, buf, blocks);
    if current.Some? {
      blocks := blocks[current.value := Joined(buf)];
    }
  }

  /** `split_output_blocks`. */
  method SplitOutputBlocks(response: string) returns (blocks: map<string, string>)
    ensures blocks == OutputBlocks(response)
  {
    blocks := EmptyBlocks;
    var parts := Parts(response);
    if response == "" || |parts| < 3 {
      return;
    }
    EmptyBlocksShape();
    blocks := ReadParts(parts, blocks);
  }

  // ---------------------------------------------------------------- properties of the split

  /** A response with no header line has four empty blocks. */
  lemma NoHeaderNoBlocks(response: string)
    requires forall i :: 0 <= i <= |response| ==> HeaderAt(response, i).None?
    ensures OutputBlocks(response) == EmptyBlocks
  {
    PartsFromNoHeader(response, 0, 0);
  }

  /** Every block comes out stripped. */
  lemma BlocksStripped(response: string, k: string)
    requires k in Keys
    ensures k in OutputBlocks(response) && Strip(OutputBlocks(response)[k]) == OutputBlocks(response)[k]
  {
    var parts := Parts(response);
    var sp := Stripped(parts);
    if !(response == "" || |parts| < 3) {
      match LastOf(sp, k, |sp|)
      case None =>
      case Some(i) => StripIdempotent(Join(Body(Keys, sp, i, |sp|), "\n"));
    }
  }

  /** The header pattern ignores case, but the captured word opens a block only when it is
      written exactly as one of the four names: a lower-case one is not a name. */
  lemma LowerCaseNotKey(k: string)
    requires k in Keys
    ensures Lower(k) !in Keys && Strip(Lower(k)) == Lower(k)
  {
    var l := Lower(k);
    assert l[0] == LowerChar(k[0]) && l[|l| - 1] == LowerChar(k[|k| - 1]);
    if k == "PLAN" {
      assert l[0] == 'p' && l[|l| - 1] == 'n';
    } else if k == "THOUGHT" {
      assert l[0] == 't' && l[|l| - 1] == 't';
    } else if k == "COMMANDS" {
      assert l[0] == 'c' && l[|l| - 1] == 's';
    } else {
      assert l[0] == 's' && l[|l| - 1] == 's';
    }
    StripNoop(l);
  }

  /** A captured word that is not exactly a name stays in the block as text. */
  lemma OtherCaseHeaderIsText(t0: string, a: string, w: string, b: string, k: string)
    requires k in Keys && t0 !in Keys && a !in Keys && w !in Keys && b !in Keys
    ensures BlockOf(Keys, [t0, k, a, w, b], k, 5) == Strip(Join([t0, a, w, b], "\n"))
  {
    var sp := [t0, k, a, w, b];
    assert LastOf(sp, k, 2) == Some(1);
    assert LastOf(sp, k, 3) == Some(1);
    assert LastOf(sp, k, 4) == Some(1);
    assert LastOf(sp, k, 5) == Some(1);
    assert LastKey(Keys, sp, 1).None?;
    assert sp[..1] == [t0];
    assert NextFrom(Keys, sp, 2, 5) == 5;
    assert sp[2..5] == [a, w, b];
  }

  /** Text before the first header is carried into the first block. */
  lemma LeadCarried(t0: string, k: string, a: string)
    requires k in Keys && t0 !in Keys && a !in Keys
    ensures BlockOf(Keys, [t0, k, a], k, 3) == Strip(t0 + "\n" + a)
  {
    var sp := [t0, k, a];
    assert LastOf(sp, k, 3) == Some(1);
    assert LastKey(Keys, sp, 1).None?;
    assert sp[..1] == [t0];
    assert NextFrom(Keys, sp, 2, 3) == 3;
    assert sp[2..3] == [a];
    assert Body(Keys, sp, 1, 3) == [t0, a];
    JoinCons(t0, [a], "\n");
  }

  /** A repeated header overwrites the earlier block of that name. */
  lemma RepeatedHeaderOverwrites(t0: string, a: string, b: string, k: string)
    requires k in Keys && t0 !in Keys && a !in Keys && b !in Keys
    ensures BlockOf(Keys, [t0, k, a, k, b], k, 5) == Strip(b)
  {
    var sp := [t0, k, a, k, b];
    assert LastOf(sp, k, 5) == Some(3);
    assert LastKey(Keys, sp, 3) == Some(1);
    assert NextFrom(Keys, sp, 4, 5) == 5;
    assert sp[4..5] == [b];
  }

  // ---------------------------------------------------------------- extract_commands_and_status

  /** A non-blank line of the COMMANDS block, stripped and without one leading '-'. */
  function RawCommand(line: string): (r: string)
    ensures Strip(r) == r
  {
    var l := Strip(line);
    if |l| > 0 && l[0] == '-' then StripIdempotent(l[1..]); Strip(l[1..])
    else StripIdempotent(line); l
  }

  /** The raw commands of the block's lines, blank lines skipped. */
  function RawCommands(lines: seq<string>): seq<string> {
    if lines == [] then []
    else
      var prefix := RawCommands(lines[..|lines| - 1]);
      var last := lines[|lines| - 1];
      if Strip(last) == "" then prefix else prefix + [RawCommand(last)]
  }

  /** The non-empty entries of `s`, in order. */
  function NonEmpty(s: seq<string>): (r: seq<string>)
    ensures forall j :: 0 <= j < |r| ==> r[j] != "" && r[j] in s
    ensures forall j :: 0 <= j < |s| && s[j] != "" ==> s[j] in r
  {
    if s == [] then []
    else
      var prefix := NonEmpty(s[..|s| - 1]);
      assert s == s[..|s| - 1] + [s[|s| - 1]];
      if s[|s| - 1] == "" then prefix else prefix + [s[|s| - 1]]
  }

  /** The candidate commands of a COMMANDS block. */
  function CommandsOf(block: string): seq<string> {
    Dedup(NonEmpty(Stripped(RawCommands(SplitLines(block)))))
  }

  /** The status word of a STATUS block: its first line, upper-cased. */
  function StatusOf(block: string): string {
    if block == "" then ""
    else
      var lines := SplitLines(Upper(Strip(block)));
      if lines == [] then "" else lines[0]
  }

  /** The first loop of `extract_commands_and_status`. */
  method ReadCommandLines(lines: seq<string>) returns (raw: seq<string>)
    ensures raw == RawCommands(lines)
  {
    raw := [];
    var i := 0;
    while i < |lines|
      invariant 0 <= i <= |lines|
      invariant raw == RawCommands(lines[..i])
    {
      assert lines[..i + 1][..i] == lines[..i];
      var line := Strip(lines[i]);
      if line != "" {
        if line[0] == '-' {
          line := Strip(line[1..]);
        }
        raw := raw + [line];
      }
      i := i + 1;
    }
    assert lines[..i] == lines;
  }

  lemma NonEmptySnoc(s: seq<string>, x: string)
    ensures NonEmpty(s + [x]) == if x == "" then NonEmpty(s) else NonEmpty(s) + [x]
  {
    assert (s + [x])[..|s|] == s;
  }

  lemma InDedup(u: seq<string>, k: string)
    ensures k in Dedup(u) <==> k in u
  {
    if k in Dedup(u) {
      var m :| 0 <= m < |Dedup(u)| && Dedup(u)[m] == k;
    }
    if k in u {
      var m :| 0 <= m < |u| && u[m] == k;
    }
  }

  /** Appending `k`: it is kept when it is non-empty and not already kept. */
  lemma KeepNew(s: seq<string>, k: string)
    ensures Dedup(NonEmpty(s + [k])) ==
      if k != "" && k !in Dedup(NonEmpty(s)) then Dedup(NonEmpty(s)) + [k] else Dedup(NonEmpty(s))
  {
    NonEmptySnoc(s, k);
    if k != "" {
      DedupSnoc(NonEmpty(s), k);
      InDedup(NonEmpty(s), k);
    }
  }

  /** The second loop: stripped, non-empty, and only the first copy of each, tracked with the
      `seen` set. */
  method DropRepeats(raw: seq<string>) returns (cmds: seq<string>)
    ensures cmds == Dedup(NonEmpty(Stripped(raw)))
  {
    var seen: set<string> := {};
    cmds := [];
    ghost var sp := Stripped(raw);
    var j := 0;
    while j < |raw|
      invariant 0 <= j <= |raw|
      invariant cmds == Dedup(NonEmpty(sp[..j]))
      invariant forall x :: x in seen <==> x in cmds
    {
      var k := Strip(raw[j]);
      assert sp[..j + 1] == sp[..j] + [k];
      KeepNew(sp[..j], k);
      if k != "" && k !in seen {
        seen := seen + {k};
        cmds := cmds + [k];
      }
      j := j + 1;
    }
    assert sp[..j] == sp;
  }

  /** `extract_commands_and_status`. */
  method ExtractCommandsAndStatus(response: string) returns (cmds: seq<string>, status: string)
    ensures cmds == CommandsOf(OutputBlocks(response)["COMMANDS"])
    ensures status == StatusOf(OutputBlocks(response)["STATUS"])
  {
    var blocks := SplitOutputBlocks(response);
    BlocksStripped(response, "COMMANDS");
    BlocksStripped(response, "STATUS");
    var raw := ReadCommandLines(SplitLines(blocks["COMMANDS"]));
    status := if blocks["STATUS"] != "" then StatusOf(blocks["STATUS"]) else "";
    cmds := DropRepeats(raw);
  }

  /** Every raw command is stripped. */
  lemma {:induction false} RawCommandsStripped(lines: seq<string>, x: string)
    requires x in RawCommands(lines)
    ensures Strip(x) == x
  {
    if lines != [] {
      var prefix := RawCommands(lines[..|lines| - 1]);
      if x in prefix {
        RawCommandsStripped(lines[..|lines| - 1], x);
      }
    }
  }

  // ---------------------------------------------------------------- properties of the commands

  /** The candidate commands are non-empty, stripped and distinct, and every non-empty raw
      command of the block is among them. */
  lemma CommandsShape(block: string)
    ensures NoDup(CommandsOf(block))
    ensures forall j :: 0 <= j < |CommandsOf(block)| ==>
      CommandsOf(block)[j] != "" && Strip(CommandsOf(block)[j]) == CommandsOf(block)[j]
    ensures forall x :: x in RawCommands(SplitLines(block)) && x != "" ==> x in CommandsOf(block)
  {
    var raw := RawCommands(SplitLines(block));
    var u := NonEmpty(Stripped(raw));
    forall j | 0 <= j < |CommandsOf(block)|
      ensures CommandsOf(block)[j] != "" && Strip(CommandsOf(block)[j]) == CommandsOf(block)[j]
    {
      var x := CommandsOf(block)[j];
      assert x in u;
      var m :| 0 <= m < |u| && u[m] == x;
      assert x in Stripped(raw);
      var i :| 0 <= i < |raw| && Stripped(raw)[i] == x;
      StripIdempotent(raw[i]);
    }
    forall x | x in RawCommands(SplitLines(block)) && x != "" ensures x in CommandsOf(block) {
      RawCommandsStripped(SplitLines(block), x);
      var i :| 0 <= i < |raw| && raw[i] == x;
      assert Stripped(raw)[i] == x;
      assert x in u;
      var m :| 0 <= m < |u| && u[m] == x;
    }
  }

  /** Blank lines are skipped and exactly one leading '-' is removed from a command line
      (`x` may itself begin with '-'). */
  lemma DashedLines(x: string, y: string)
    requires Strip(x) == x && x != "" && Strip(y) == y && y != "" && y[0] != '-'
    ensures RawCommands(["- " + x, "", y]) == [x, y]
  {
    RawDash(x);
    RawPlain(y);
    assert Strip("") == "";
    RawThree("- " + x, "", y);
  }

  lemma RawDash(x: string)
    requires Strip(x) == x && x != ""
    ensures Strip("- " + x) != "" && RawCommand("- " + x) == x
  {
    var d := "- " + x;
    assert d[0] == '-' && d[|d| - 1] == x[|x| - 1];
    StripNoop(d);
    assert d[1..] == " " + x;
    StripNoopLead(" " + x, x);
  }

  lemma RawPlain(y: string)
    requires Strip(y) == y && y != "" && y[0] != '-'
    ensures RawCommand(y) == y
  {
  }

  lemma RawThree(a: string, b: string, c: string)
    requires Strip(a) != "" && Strip(b) == "" && Strip(c) != ""
    ensures RawCommands([a, b, c]) == [RawCommand(a), RawCommand(c)]
  {
    assert [a, b, c][..2] == [a, b];
    assert [a, b][..1] == [a];
    assert [a][..0] == [];
    assert RawCommands([a]) == [RawCommand(a)];
    assert RawCommands([a, b]) == [RawCommand(a)];
  }

  /** Stripping one leading space off a stripped tail. */
  lemma StripNoopLead(s: string, x: string)
    requires s == " " + x && x != [] && !IsSpace(x[0]) && !IsSpace(x[|x| - 1])
    ensures Strip(s) == x
  {
    assert s[1..] == x;
    assert PrefixRun(s[1..], IsSpace) == 0;
    assert PrefixRun(s, IsSpace) == 1;
    assert SuffixRun(x, IsSpace) == 0;
  }

  /** Duplicates are dropped, the first occurrence keeping its place. */
  lemma SecondCopyDropped(x: string, y: string)
    requires x != y && x != "" && y != "" && Strip(x) == x && Strip(y) == y
    ensures Dedup(NonEmpty(Stripped([x, y, x]))) == [x, y]
  {
    var t := [x, y, x];
    assert Stripped(t) == t;
    assert t[..2] == [x, y];
    assert [x, y][..1] == [x];
    assert [x][..0] == [];
    assert NonEmpty([x]) == [x];
    assert NonEmpty([x, y]) == [x, y];
    assert NonEmpty(t) == t;
    assert Dedup([x]) == [x];
    assert Dedup([x, y]) == [x, y];
  }

  /** The status is the upper-cased first line of the STATUS block: a prefix of the
      upper-cased block, with no line break and no lower-case letter; an empty block gives "". */
  lemma StatusIsFirstLine(block: string)
    requires Strip(block) == block
    ensures block == "" ==> StatusOf(block) == ""
    ensures block != "" ==> StatusOf(block) == Upper(block)[..NextBreak(Upper(block), 0)]
    ensures forall j :: 0 <= j < |StatusOf(block)| ==> !IsLineBreak(StatusOf(block)[j])
    ensures forall j :: 0 <= j < |StatusOf(block)| ==> !('a' <= StatusOf(block)[j] <= 'z')
  {
    if block != "" {
      var u := Upper(block);
      assert u[..|u|] == u;
      assert StatusOf(block) == u[..NextBreak(u, 0)];
    }
  }
}
