/** The single-shot BLAKE3 hasher, over any compression function. */
module Blake3 {
  import opened Primitives
  import opened ChainingTree

  type Words8 = s: seq<U32> | |s| == 8 witness [0, 0, 0, 0, 0, 0, 0, 0]
  type Words16 = s: seq<U32> | |s| == 16 witness [0, 0, 0, 0, 0, 0, 0, 0, 0, 0, 0, 0, 0, 0, 0, 0]

  /** Chaining value, block, counter, block length and flags to 16 words. */
  type Compress = (Words8, Words16, nat, nat, bv32) -> Words16

  const IV: Words8 := [0x6A09_E667, 0xBB67_AE85, 0x3C6E_F372, 0xA54F_F53A,
                       0x510E_527F, 0x9B05_688C, 0x1F83_D9AB, 0x5BE0_CD19]

  const CHUNK_START: bv32 := 1
  const CHUNK_END: bv32 := 2
  const PARENT: bv32 := 4
  const ROOT: bv32 := 8

  const CHUNK_LEN: nat := 1024
  const BLOCK_LEN: nat := 64

  // ----- words and bytes -----

  function ByteAt(s: seq<Byte>, i: nat): Byte {
    if i < |s| then s[i] else 0
  }

  function WordAt(s: seq<Byte>, i: nat): U32 {
    ByteAt(s, i) + 0x100 * ByteAt(s, i + 1) + 0x1_0000 * ByteAt(s, i + 2) + 0x100_0000 * ByteAt(s, i + 3)
  }

  /** The n words of a zero-padded block, little-endian. */
  function PaddedWords(s: seq<Byte>, n: nat): (w: seq<U32>)
    ensures |w| == n
  {
    if n == 0 then [] else PaddedWords(s, n - 1) + [WordAt(s, 4 * (n - 1))]
  }

  function BlockWords(s: seq<Byte>): Words16 {
    PaddedWords(s, 16)
  }

  lemma {:induction false} NoBytesNoWords(n: nat)
    ensures forall i :: 0 <= i < n ==> PaddedWords([], n)[i] == 0
  {
    if n > 0 {
      NoBytesNoWords(n - 1);
    }
  }

  function LeBytes(w: U32): seq<Byte> {
    [w % 0x100, w / 0x100 % 0x100, w / 0x1_0000 % 0x100, w / 0x100_0000]
  }

  function WordBytes(ws: seq<U32>): (s: seq<Byte>)
    ensures |s| == 4 * |ws|
  {
    if ws == [] then [] else WordBytes(ws[..|ws| - 1]) + LeBytes(ws[|ws| - 1])
  }

  // ----- what is computed -----

  /** What the compression function is asked for. */
  datatype Call = Call(cv: Words8, block: Words16, counter: nat, len: nat, flags: bv32)

  function ChainingValue(compress: Compress, c: Call): Words8 {
    compress(c.cv, c.block, c.counter, c.len, c.flags)[..8]
  }

  function CeilDiv(n: nat, d: nat): nat
    requires d > 0
  {
    (n + d - 1) / d
  }

  /** The i-th piece of at most `len` bytes. */
  function Piece(s: seq<Byte>, len: nat, i: nat): (r: seq<Byte>)
    ensures |r| <= len
  {
    var start, end := Min(i * len, |s|), Min((i + 1) * len, |s|);
    assert start <= end <= start + len;
    s[start..end]
  }

  /** A chunk always has at least one block; an empty chunk has an empty one. */
  function BlockCount(chunk: seq<Byte>): nat {
    Max(1, CeilDiv(|chunk|, BLOCK_LEN))
  }

  function RootFlag(root: bool): bv32 {
    if root then ROOT else 0
  }

  function BlockFlags(i: nat, last: bool, root: bool): bv32 {
    (if i == 0 then CHUNK_START else 0) | (if last then CHUNK_END | RootFlag(root) else 0)
  }

  /** The compression of block i of a chunk. */
  function BlockCall(compress: Compress, chunk: seq<Byte>, counter: nat, root: bool, i: nat): Call
    decreases i, 1
  {
    var block := Piece(chunk, BLOCK_LEN, i);
    Call(ChunkState(compress, chunk, counter, root, i), BlockWords(block), counter, |block|,
         BlockFlags(i, i + 1 == BlockCount(chunk), root))
  }

  /** The chaining value after the first i blocks of a chunk. */
  function ChunkState(compress: Compress, chunk: seq<Byte>, counter: nat, root: bool, i: nat): Words8
    decreases i, 0
  {
    if i == 0 then IV else ChainingValue(compress, BlockCall(compress, chunk, counter, root, i - 1))
  }

  function ChunkValue(compress: Compress, chunk: seq<Byte>, counter: nat, root: bool): Words8 {
    ChunkState(compress, chunk, counter, root, BlockCount(chunk))
  }

  function ParentCall(left: Words8, right: Words8, root: bool): Call {
    Call(IV, left + right, 0, BLOCK_LEN, PARENT | RootFlag(root))
  }

  function ChunkCount(data: seq<Byte>): nat {
    Max(1, CeilDiv(|data|, CHUNK_LEN))
  }

  function Leaf(compress: Compress, data: seq<Byte>): (nat, bool) -> Words8 {
    (i: nat, root: bool) => ChunkValue(compress, Piece(data, CHUNK_LEN, i), i, root)
  }

  function Parent(compress: Compress): (Words8, Words8, bool) -> Words8 {
    (left: Words8, right: Words8, root: bool) => ChainingValue(compress, ParentCall(left, right, root))
  }

  /** The hash: the root of the left-balanced tree over the chunks. */
  function TreeHash(compress: Compress, data: seq<Byte>): Bytes32 {
    WordBytes(Subtree(Leaf(compress, data), Parent(compress), 0, ChunkCount(data), true))
  }

  // ----- the compressions of a tree -----

  /** A value of the tree together with the compressions that lead to it, in order. */
  datatype Traced = Traced(value: Words8, calls: seq<Call>)

  function ChunkCalls(compress: Compress, chunk: seq<Byte>, counter: nat, root: bool, n: nat): seq<Call> {
    if n == 0 then []
    else ChunkCalls(compress, chunk, counter, root, n - 1) + [BlockCall(compress, chunk, counter, root, n - 1)]
  }

  function TracedChunk(compress: Compress, chunk: seq<Byte>, counter: nat, root: bool): Traced {
    Traced(ChunkValue(compress, chunk, counter, root),
           ChunkCalls(compress, chunk, counter, root, BlockCount(chunk)))
  }

  function TracedLeaf(compress: Compress, data: seq<Byte>): (nat, bool) -> Traced {
    (i: nat, root: bool) => TracedChunk(compress, Piece(data, CHUNK_LEN, i), i, root)
  }

  function Join(compress: Compress, left: Traced, right: Traced, root: bool): Traced {
    var call := ParentCall(left.value, right.value, root);
    Traced(ChainingValue(compress, call), left.calls + right.calls + [call])
  }

  function TracedParent(compress: Compress): (Traced, Traced, bool) -> Traced {
    (left: Traced, right: Traced, root: bool) => Join(compress, left, right, root)
  }

  /** The whole tree: left subtree, right subtree, then the compression joining them. */
  function TreeTrace(compress: Compress, data: seq<Byte>): Traced {
    Subtree(TracedLeaf(compress, data), TracedParent(compress), 0, ChunkCount(data), true)
  }

  /** Tracing changes no value. */
  lemma {:induction false} SubtreeValue(compress: Compress, data: seq<Byte>, lo: nat, n: nat, root: bool)
    requires n >= 1
    ensures Subtree(TracedLeaf(compress, data), TracedParent(compress), lo, n, root).value
         == Subtree(Leaf(compress, data), Parent(compress), lo, n, root)
    decreases n
  {
    hide Subtree;
    SubtreeParts(Leaf(compress, data), Parent(compress), lo, n, root);
    SubtreeParts(TracedLeaf(compress, data), TracedParent(compress), lo, n, root);
    if n > 1 {
      var l := LeftLength(n);
      SubtreeValue(compress, data, lo, l, false);
      SubtreeValue(compress, data, lo + l, n - l, false);
    }
  }

  /** The root flag on none of the compressions, or on the last one only. */
  ghost predicate RootFree(calls: seq<Call>) {
    forall i :: 0 <= i < |calls| ==> calls[i].flags & ROOT == 0
  }

  ghost predicate RootLast(calls: seq<Call>) {
    calls != [] && RootFree(calls[..|calls| - 1]) && calls[|calls| - 1].flags & ROOT == ROOT
  }

  /** The root flag is where it belongs, and the last compression gives the value. */
  ghost predicate WellFlagged(compress: Compress, t: Traced, root: bool) {
    && t.calls != []
    && (if root then RootLast(t.calls) else RootFree(t.calls))
    && ChainingValue(compress, t.calls[|t.calls| - 1]) == t.value
  }

  lemma FlagsOfBlock(i: nat, last: bool, root: bool)
    ensures BlockFlags(i, last, root) & ROOT == RootFlag(last && root)
  {
  }

  lemma FlagsOfParent(left: Words8, right: Words8, root: bool)
    ensures ParentCall(left, right, root).flags & ROOT == RootFlag(root)
  {
  }

  lemma Logged(calls: seq<Call>, call: Call)
    requires RootFree(calls)
    ensures call.flags & ROOT == 0 ==> RootFree(calls + [call])
    ensures call.flags & ROOT == ROOT ==> RootLast(calls + [call])
  {
    assert (calls + [call])[..|calls|] == calls;
  }

  lemma {:induction false} ChunkFlags(compress: Compress, chunk: seq<Byte>, counter: nat, root: bool, n: nat)
    requires n <= BlockCount(chunk)
    ensures var calls := ChunkCalls(compress, chunk, counter, root, n);
      && (if n == BlockCount(chunk) && root then RootLast(calls) else RootFree(calls))
      && (n > 0 ==>
            calls != [] && ChainingValue(compress, calls[|calls| - 1]) == ChunkState(compress, chunk, counter, root, n))
  {
    if n > 0 {
      ChunkFlags(compress, chunk, counter, root, n - 1);
      FlagsOfBlock(n - 1, n == BlockCount(chunk), root);
      Logged(ChunkCalls(compress, chunk, counter, root, n - 1), BlockCall(compress, chunk, counter, root, n - 1));
    }
  }

  lemma {:induction false} JoinFlags(compress: Compress, left: Traced, right: Traced, root: bool)
    requires WellFlagged(compress, left, false) && WellFlagged(compress, right, false)
    ensures WellFlagged(compress, Join(compress, left, right, root), root)
  {
    FlagsOfParent(left.value, right.value, root);
    Logged(left.calls + right.calls, ParentCall(left.value, right.value, root));
  }

  lemma {:induction false} SubtreeFlags(compress: Compress, data: seq<Byte>, lo: nat, n: nat, root: bool)
    requires n >= 1
    ensures WellFlagged(compress, Subtree(TracedLeaf(compress, data), TracedParent(compress), lo, n, root), root)
    decreases n
  {
    hide RootFree, RootLast, Join, BlockCount, Subtree;
    SubtreeParts(TracedLeaf(compress, data), TracedParent(compress), lo, n, root);
    if n == 1 {
      var chunk := Piece(data, CHUNK_LEN, lo);
      SomeBlock(chunk);
      ChunkFlags(compress, chunk, lo, root, BlockCount(chunk));
    } else {
      var l := LeftLength(n);
      SubtreeFlags(compress, data, lo, l, false);
      SubtreeFlags(compress, data, lo + l, n - l, false);
      JoinFlags(compress, Subtree(TracedLeaf(compress, data), TracedParent(compress), lo, l, false),
                Subtree(TracedLeaf(compress, data), TracedParent(compress), lo + l, n - l, false), root);
    }
  }

  lemma SomeBlock(chunk: seq<Byte>)
    ensures BlockCount(chunk) >= 1
  {
  }

  /** For data of every length: of all compressions of the tree exactly the last
      one carries the root flag, and the digest is what it returns. */
  lemma {:induction false} RootFlagOnce(compress: Compress, data: seq<Byte>)
    ensures var calls := TreeTrace(compress, data).calls;
      && RootLast(calls)
      && TreeHash(compress, data) == WordBytes(ChainingValue(compress, calls[|calls| - 1]))
  {
    hide RootFree, RootLast, ChainingValue, WordBytes;
    SubtreeFlags(compress, data, 0, ChunkCount(data), true);
    SubtreeValue(compress, data, 0, ChunkCount(data), true);
  }

  // ----- how it is computed -----

  /** Every compression of the hasher is made here; `calls` keeps the record. */
  method ChainingValueOf(compress: Compress, cv: Words8, block: Words16, counter: nat, len: nat, flags: bv32,
                         ghost before: seq<Call>)
    returns (out: Words8, ghost calls: seq<Call>)
    ensures out == ChainingValue(compress, Call(cv, block, counter, len, flags))
    ensures calls == before + [Call(cv, block, counter, len, flags)]
  {
    calls := before + [Call(cv, block, counter, len, flags)];
    out := compress(cv, block, counter, len, flags)[..8];
  }

  lemma EmptyChunk(compress: Compress, counter: nat, root: bool, zeros: Words16)
    requires forall i :: 0 <= i < 16 ==> zeros[i] == 0
    ensures var call := Call(IV, zeros, counter, 0, CHUNK_START | CHUNK_END | RootFlag(root));
      TracedChunk(compress, [], counter, root) == Traced(ChainingValue(compress, call), [call])
  {
    NoBytesNoWords(16);
    assert zeros == BlockWords([]);
    assert ChunkState(compress, [], counter, root, 0) == IV;
    assert ChunkCalls(compress, [], counter, root, 0) == [];
  }

  method FlagsFor(first: bool, last: bool, root: bool) returns (flags: bv32)
    ensures forall i: nat :: (i == 0 <==> first) ==> flags == BlockFlags(i, last, root)
  {
    flags := 0;
    if first {
      flags := flags | CHUNK_START;
    }
    if last {
      flags := flags | CHUNK_END;
      if root {
        flags := flags | ROOT;
      }
    }
  }

  method HashChunk(compress: Compress, chunk: seq<Byte>, counter: nat, root: bool)
    returns (cv: Words8, ghost calls: seq<Call>)
    requires |chunk| <= CHUNK_LEN
    ensures cv == TracedChunk(compress, chunk, counter, root).value
    ensures calls == TracedChunk(compress, chunk, counter, root).calls
  {
    hide TracedChunk, BlockWords, BlockFlags, ChainingValue;
    cv, calls := IV, [];
    if chunk == [] {
      var zeros: Words16 := [0, 0, 0, 0, 0, 0, 0, 0, 0, 0, 0, 0, 0, 0, 0, 0];
      EmptyChunk(compress, counter, root, zeros);
      cv, calls := ChainingValueOf(compress, cv, zeros, counter, 0, CHUNK_START | CHUNK_END | RootFlag(root), calls);
      return;
    }
    WholeChunk(compress, chunk, counter, root);
    var blocks := CeilDiv(|chunk|, BLOCK_LEN);
    for i := 0 to blocks
      invariant cv == ChunkState(compress, chunk, counter, root, i)
      invariant calls == ChunkCalls(compress, chunk, counter, root, i)
    {
      var flags := FlagsFor(i == 0, i == blocks - 1, root);
      var block := Piece(chunk, BLOCK_LEN, i);
      cv, calls := ChainingValueOf(compress, cv, BlockWords(block), counter, |block|, flags, calls);
    }
  }

  lemma WholeChunk(compress: Compress, chunk: seq<Byte>, counter: nat, root: bool)
    requires chunk != []
    ensures BlockCount(chunk) == CeilDiv(|chunk|, BLOCK_LEN) >= 1
    ensures TracedChunk(compress, chunk, counter, root)
         == Traced(ChunkState(compress, chunk, counter, root, CeilDiv(|chunk|, BLOCK_LEN)),
                   ChunkCalls(compress, chunk, counter, root, CeilDiv(|chunk|, BLOCK_LEN)))
  {
  }

  method ParentCv(compress: Compress, left: Words8, right: Words8, root: bool, ghost before: seq<Call>)
    returns (cv: Words8, ghost calls: seq<Call>)
    ensures cv == ChainingValue(compress, ParentCall(left, right, root))
    ensures calls == before + [ParentCall(left, right, root)]
  {
    cv, calls := ChainingValueOf(compress, IV, left + right, 0, BLOCK_LEN, PARENT | RootFlag(root), before);
  }

  /** All compressions behind a row of subtrees, left to right. */
  function AllCalls(row: seq<Traced>): seq<Call> {
    if row == [] then [] else AllCalls(row[..|row| - 1]) + row[|row| - 1].calls
  }

  /** The chaining values at hand are those of the row of subtrees, and the
      compressions made so far are exactly those behind it. */
  ghost predicate Records(values: seq<Words8>, calls: seq<Call>, row: seq<Traced>) {
    ValuesOf(values, row) && calls == AllCalls(row)
  }

  ghost predicate ValuesOf(values: seq<Words8>, row: seq<Traced>) {
    |values| == |row| && forall i :: 0 <= i < |row| ==> values[i] == row[i].value
  }

  lemma AllCallsSnoc(row: seq<Traced>, t: Traced)
    ensures AllCalls(row + [t]) == AllCalls(row) + t.calls
  {
    assert (row + [t])[..|row|] == row;
  }

  lemma RecordsPush(values: seq<Words8>, calls: seq<Call>, row: seq<Traced>, cv: Words8, more: seq<Call>)
    requires Records(values, calls, row)
    ensures Records(values + [cv], calls + more, row + [Traced(cv, more)])
  {
    AllCallsSnoc(row, Traced(cv, more));
  }

  /** Joining the last two subtrees of the row by one more compression. */
  lemma {:induction false} RecordsJoin(compress: Compress, values: seq<Words8>, calls: seq<Call>, row: seq<Traced>,
                                       cv: Words8, left: Traced, right: Traced, root: bool)
    requires values != [] && Records(values + [cv], calls, row + [left] + [right])
    ensures var call := ParentCall(values[|values| - 1], cv, root);
      Records(values[..|values| - 1] + [ChainingValue(compress, call)], calls + [call],
              row + [Join(compress, left, right, root)])
  {
    hide ParentCall, ChainingValue, AllCalls;
    AllCallsSnoc(row + [left], right);
    AllCallsSnoc(row, left);
    AllCallsSnoc(row, Join(compress, left, right, root));
    assert (values + [cv])[|values| - 1] == left.value && (values + [cv])[|values|] == right.value;
    assert forall i :: 0 <= i < |row| ==> values[i] == (values + [cv])[i] == (row + [left] + [right])[i].value;
  }

  lemma RecordsAll(cv: Words8, calls: seq<Call>, t: Traced)
    requires Records([cv], calls, [t])
    ensures t == Traced(cv, calls)
  {
    AllCallsSnoc([], t);
    assert [] + [t] == [t] && [cv][0] == [t][0].value;
  }

  lemma EmptyStack<T>(leaf: (nat, bool) -> T, parent: (T, T, bool) -> T)
    ensures Stack(leaf, parent, 0, 0) == []
  {
  }

  lemma PerfectChunk<T>(leaf: (nat, bool) -> T, parent: (T, T, bool) -> T, i: nat)
    ensures Perfect(leaf, parent, 0, i) == leaf(i, false)
  {
    assert i * Pow2(0) == i;
  }

  lemma JoinIsParent(compress: Compress, left: Traced, right: Traced, root: bool)
    ensures TracedParent(compress)(left, right, root) == Join(compress, left, right, root)
  {
  }

  /** Pushes chunk number total - 1, merging like the carries of a binary counter. */
  method MergeCvStack(compress: Compress, ghost data: seq<Byte>, stack: seq<Words8>, newCv: Words8, total: nat,
                      ghost before: seq<Call>)
    returns (merged: seq<Words8>, ghost calls: seq<Call>)
    requires total >= 1
    requires var leaf, parent := TracedLeaf(compress, data), TracedParent(compress);
      Records(stack + [newCv], before, Stack(leaf, parent, 0, total - 1) + [Perfect(leaf, parent, 0, total - 1)])
    ensures ValuesOf(merged, Stack(TracedLeaf(compress, data), TracedParent(compress), 0, total))
    ensures calls == AllCalls(Stack(TracedLeaf(compress, data), TracedParent(compress), 0, total))
  {
    hide Stack, Perfect, Join, TracedLeaf, TracedParent, AllCalls;
    ghost var leaf, parent := TracedLeaf(compress, data), TracedParent(compress);
    var cv, t := newCv, total;
    merged, calls := stack, before;
    ghost var j: nat := 0;
    while t % 2 == 0
      invariant t >= 1
      invariant Records(merged + [cv], calls, Stack(leaf, parent, j, t - 1) + [Perfect(leaf, parent, j, t - 1)])
      invariant Stack(leaf, parent, j, t) == Stack(leaf, parent, 0, total)
      decreases t
    {
      MergeStep(leaf, parent, j, t);
      ghost var pair := (Perfect(leaf, parent, j, t - 2), Perfect(leaf, parent, j, t - 1));
      RecordsJoin(compress, merged, calls, Stack(leaf, parent, j + 1, t / 2 - 1), cv, pair.0, pair.1, false);
      JoinIsParent(compress, pair.0, pair.1, false);
      var left := merged[|merged| - 1];
      merged := merged[..|merged| - 1];
      cv, calls := ParentCv(compress, left, cv, false, calls);
      t := t / 2;
      j := j + 1;
    }
    MergeEnd(leaf, parent, j, t);
    merged := merged + [cv];
  }

  lemma Chunks(data: seq<Byte>)
    requires |data| > CHUNK_LEN
    ensures ChunkCount(data) == CeilDiv(|data|, CHUNK_LEN) >= 2
    ensures (ChunkCount(data) - 1) * CHUNK_LEN < |data| <= ChunkCount(data) * CHUNK_LEN
  {
  }

  lemma InnerChunk(compress: Compress, data: seq<Byte>, i: nat)
    requires (i + 1) * CHUNK_LEN <= |data|
    ensures TracedChunk(compress, data[i * CHUNK_LEN..(i + 1) * CHUNK_LEN], i, false)
         == Perfect(TracedLeaf(compress, data), TracedParent(compress), 0, i)
  {
    assert data[i * CHUNK_LEN..(i + 1) * CHUNK_LEN] == Piece(data, CHUNK_LEN, i);
    PerfectChunk(TracedLeaf(compress, data), TracedParent(compress), i);
  }

  lemma LastChunk(compress: Compress, data: seq<Byte>, i: nat, root: bool)
    requires i * CHUNK_LEN <= |data| <= (i + 1) * CHUNK_LEN
    ensures TracedChunk(compress, data[i * CHUNK_LEN..], i, root) == TracedLeaf(compress, data)(i, root)
  {
    assert data[i * CHUNK_LEN..] == Piece(data, CHUNK_LEN, i);
  }

  lemma OnlyChunk(compress: Compress, data: seq<Byte>)
    requires |data| <= CHUNK_LEN
    ensures TracedChunk(compress, data, 0, true) == TreeTrace(compress, data)
  {
    assert Piece(data, CHUNK_LEN, 0) == data;
  }

  lemma TraceGivesHash(compress: Compress, data: seq<Byte>)
    ensures WordBytes(TreeTrace(compress, data).value) == TreeHash(compress, data)
    ensures TreeTrace(compress, data)
         == Subtree(TracedLeaf(compress, data), TracedParent(compress), 0, ChunkCount(data), true)
  {
    SubtreeValue(compress, data, 0, ChunkCount(data), true);
  }

  /** Every chunk but the last goes through the merging stack; the last one and
      the leftovers of the stack are folded by hand, so that the root flag is
      set on the last compression and on no other: the compressions made are
      those of the tree, in its order. */
  method Hash(compress: Compress, data: seq<Byte>) returns (digest: Bytes32, ghost calls: seq<Call>)
    ensures digest == TreeHash(compress, data)
    ensures calls == TreeTrace(compress, data).calls
    ensures RootLast(calls)
  {
    hide *;
    TraceGivesHash(compress, data);
    RootFlagOnce(compress, data);
    var cv;
    if |data| <= CHUNK_LEN {
      OnlyChunk(compress, data);
      cv, calls := HashChunk(compress, data, 0, true);
      return WordBytes(cv), calls;
    }
    ghost var leaf, parent := TracedLeaf(compress, data), TracedParent(compress);
    Chunks(data);
    var chunks := CeilDiv(|data|, CHUNK_LEN);
    var stack: seq<Words8> := [];
    var offset, counter := 0, 0;
    calls := [];
    NothingRecorded(leaf, parent);
    while counter + 1 < chunks
      invariant offset == counter * CHUNK_LEN && counter < chunks
      invariant Records(stack, calls, Stack(leaf, parent, 0, counter))
    {
      var end := offset + CHUNK_LEN;
      InnerChunk(compress, data, counter);
      ghost var hashed;
      cv, hashed := HashChunk(compress, data[offset..end], counter, false);
      RecordsPush(stack, calls, Stack(leaf, parent, 0, counter), cv, hashed);
      stack, calls := MergeCvStack(compress, data, stack, cv, counter + 1, calls + hashed);
      Recorded(stack, calls, Stack(leaf, parent, 0, counter + 1));
      offset := end;
      counter := counter + 1;
    }
    ghost var row := Stack(leaf, parent, 0, counter);
    SameLength(stack, calls, row);
    LastChunk(compress, data, counter, stack == []);
    ghost var hashed;
    cv, hashed := HashChunk(compress, data[offset..], counter, stack == []);
    RecordsPush(stack, calls, row, cv, hashed);
    FoldStart(leaf, parent, row, Traced(cv, hashed), chunks);
    StackDepth(leaf, parent, 0, counter);
    cv, calls := FoldStack(compress, data, stack, cv, chunks, row, Traced(cv, hashed), calls + hashed);
    digest := WordBytes(cv);
  }

  lemma NothingRecorded(leaf: (nat, bool) -> Traced, parent: (Traced, Traced, bool) -> Traced)
    ensures Records([], [], Stack(leaf, parent, 0, 0))
  {
    EmptyStack(leaf, parent);
  }

  lemma Recorded(values: seq<Words8>, calls: seq<Call>, row: seq<Traced>)
    requires ValuesOf(values, row) && calls == AllCalls(row)
    ensures Records(values, calls, row)
  {
  }

  lemma SameLength(values: seq<Words8>, calls: seq<Call>, row: seq<Traced>)
    requires Records(values, calls, row)
    ensures |values| == |row|
  {
  }

  /** Joins what is left on the stack to the last chunk, the root flag on the last join. */
  method FoldStack(compress: Compress, ghost data: seq<Byte>, start: seq<Words8>, last: Words8,
                   ghost n: nat, ghost startRow: seq<Traced>, ghost lastTraced: Traced, ghost before: seq<Call>)
    returns (cv: Words8, ghost calls: seq<Call>)
    requires n >= 2
    requires Folding(TracedLeaf(compress, data), TracedParent(compress), startRow, lastTraced, n, 0, n - 1)
    requires Records(start + [last], before, startRow + [lastTraced])
    ensures cv == Subtree(TracedLeaf(compress, data), TracedParent(compress), 0, n, true).value
    ensures calls == Subtree(TracedLeaf(compress, data), TracedParent(compress), 0, n, true).calls
  {
    hide Subtree, Folding, Join, TracedLeaf, TracedParent, AllCalls;
    ghost var leaf, parent := TracedLeaf(compress, data), TracedParent(compress);
    var stack := start;
    cv, calls := last, before;
    ghost var row, traced, j: nat, t: nat := startRow, lastTraced, 0, n - 1;
    while stack != []
      invariant Folding(leaf, parent, row, traced, n, j, t)
      invariant Records(stack + [cv], calls, row + [traced])
      decreases |stack|
    {
      assert |row| == |stack|;
      ghost var rest, left := row[..|row| - 1], row[|row| - 1];
      assert row == rest + [left];
      j, t := FoldStep(leaf, parent, row, traced, n, j, t);
      RecordsJoin(compress, stack, calls, rest, cv, left, traced, |stack| == 1);
      JoinIsParent(compress, left, traced, |stack| == 1);
      row, traced := rest, Join(compress, left, traced, |stack| == 1);
      var top := stack[|stack| - 1];
      stack := stack[..|stack| - 1];
      cv, calls := ParentCv(compress, top, cv, stack == [], calls);
    }
    assert stack + [cv] == [cv] && row + [traced] == [traced];
    RecordsAll(cv, calls, traced);
    FoldEnd(leaf, parent, row, traced, n, j, t);
  }

  // ----- extendable output -----

  /** Byte i of the keystream of a 32-byte seed: the root block compressed again
      with the output block's number as counter. */
  function XofByte(compress: Compress, seed: Bytes32, i: nat): Byte {
    WordBytes(compress(IV, BlockWords(seed), i / BLOCK_LEN, 32, CHUNK_START | CHUNK_END | ROOT))[i % BLOCK_LEN]
  }

  method XofFrom32Bytes(compress: Compress, seed: Bytes32, outLen: nat) returns (out: seq<Byte>)
    ensures |out| == outLen
    ensures forall i :: 0 <= i < outLen ==> out[i] == XofByte(compress, seed, i)
  {
    var words, flags := BlockWords(seed), CHUNK_START | CHUNK_END | ROOT;
    hide WordBytes, BlockWords;
    out := [];
    var counter := 0;
    while |out| < outLen
      invariant |out| == BLOCK_LEN * counter
      invariant forall i :: 0 <= i < |out| ==> out[i] == XofByte(compress, seed, i)
    {
      var more := WordBytes(compress(IV, words, counter, 32, flags));
      forall i | |out| <= i < |out| + BLOCK_LEN
        ensures more[i - |out|] == XofByte(compress, seed, i)
      {
        assert i / BLOCK_LEN == counter && i % BLOCK_LEN == i - |out|;
      }
      out := out + more;
      counter := counter + 1;
    }
    out := out[..outLen];
  }
}
