/** What each compression of the hash is given, field by field and in plain
    numbers: the blocks of a chunk, the parents of the tree, the bytes that come out. */
module Blake3Layout {
  import opened Primitives
  import opened ChainingTree
  import opened Blake3

  /** The eight words every chunk and every parent starts from. */
  function InitialWords(): Words8 {
    [0x6A09_E667, 0xBB67_AE85, 0x3C6E_F372, 0xA54F_F53A, 0x510E_527F, 0x9B05_688C, 0x1F83_D9AB, 0x5BE0_CD19]
  }

  /** The first eight words that a recorded compression returns. */
  function Returned(compress: Compress, c: Call): seq<U32> {
    compress(c.cv, c.block, c.counter, c.len, c.flags)[0..8]
  }

  /** Byte i of the data, zero beyond its end. */
  function PaddedByte(s: seq<Byte>, i: nat): nat {
    if i < |s| then s[i] else 0
  }

  lemma {:induction false} PaddedWordsAt(s: seq<Byte>, n: nat, j: nat)
    requires j < n
    ensures PaddedWords(s, n)[j]
         == PaddedByte(s, 4 * j) + 256 * PaddedByte(s, 4 * j + 1) + 65536 * PaddedByte(s, 4 * j + 2)
            + 16777216 * PaddedByte(s, 4 * j + 3)
  {
    if j < n - 1 {
      PaddedWordsAt(s, n - 1, j);
    }
  }

  lemma {:induction false} CallAt(compress: Compress, chunk: seq<Byte>, counter: nat, root: bool, n: nat, i: nat)
    requires i < n
    ensures |ChunkCalls(compress, chunk, counter, root, n)| == n
    ensures ChunkCalls(compress, chunk, counter, root, n)[i] == BlockCall(compress, chunk, counter, root, i)
  {
    hide BlockCall;
    CallCount(compress, chunk, counter, root, n);
    CallCount(compress, chunk, counter, root, n - 1);
    if i < n - 1 {
      CallAt(compress, chunk, counter, root, n - 1, i);
    }
  }

  lemma {:induction false} CallCount(compress: Compress, chunk: seq<Byte>, counter: nat, root: bool, n: nat)
    ensures |ChunkCalls(compress, chunk, counter, root, n)| == n
  {
    if n > 0 {
      CallCount(compress, chunk, counter, root, n - 1);
    }
  }

  /** Blocks of a chunk: 64 bytes each, at least one. */
  lemma Blocks(chunk: seq<Byte>)
    ensures BlockCount(chunk) == if chunk == [] then 1 else (|chunk| + 63) / 64
  {
  }

  lemma PieceIs(s: seq<Byte>, len: nat, i: nat)
    requires i * len <= |s|
    ensures Piece(s, len, i) == if (i + 1) * len <= |s| then s[i * len..(i + 1) * len] else s[i * len..]
  {
  }

  lemma BlockStart(chunk: seq<Byte>, i: nat)
    requires i < BlockCount(chunk)
    ensures 64 * i <= |chunk| && i * BLOCK_LEN == 64 * i && (i + 1) * BLOCK_LEN == 64 * i + 64
  {
  }

  /** Compression i of a chunk: it continues from the one before, carries the
      number of the chunk, 64 bytes of it or what is left, and the marks of the
      first and of the last block. */
  lemma {:induction false} BlockFields(compress: Compress, chunk: seq<Byte>, counter: nat, root: bool, i: nat)
    requires i < (if chunk == [] then 1 else (|chunk| + 63) / 64)
    ensures var t, count := TracedChunk(compress, chunk, counter, root), if chunk == [] then 1 else (|chunk| + 63) / 64;
      && |t.calls| == count && 64 * i <= |chunk|
      && t.calls[i].cv == (if i == 0 then InitialWords() else Returned(compress, t.calls[i - 1]))
      && t.calls[i].counter == counter && t.calls[i].len == Min(64, |chunk| - 64 * i)
      && t.calls[i].flags == (if i == 0 then 1 else 0) + (if i + 1 == count then 2 else 0)
                             + (if i + 1 == count && root then 8 else 0)
  {
    Blocks(chunk);
    var n := BlockCount(chunk);
    CallAt(compress, chunk, counter, root, n, i);
    if i > 0 {
      CallAt(compress, chunk, counter, root, n, i - 1);
    }
    BlockStart(chunk, i);
    PieceIs(chunk, BLOCK_LEN, i);
    FlagSum(i, n, root);
    hide BlockWords, Piece, CeilDiv, BlockCount, ChunkCalls, BlockFlags;
  }

  /** Word j of that block is made of its bytes 4j to 4j + 3, lowest first. */
  lemma {:induction false} BlockWord(compress: Compress, chunk: seq<Byte>, counter: nat, root: bool, i: nat, j: nat)
    requires i < (if chunk == [] then 1 else (|chunk| + 63) / 64) && j < 16
    ensures i < |TracedChunk(compress, chunk, counter, root).calls| && 64 * i <= |chunk|
    ensures var block := chunk[64 * i..Min(64 * i + 64, |chunk|)];
      TracedChunk(compress, chunk, counter, root).calls[i].block[j]
      == PaddedByte(block, 4 * j) + 256 * PaddedByte(block, 4 * j + 1) + 65536 * PaddedByte(block, 4 * j + 2)
         + 16777216 * PaddedByte(block, 4 * j + 3)
  {
    Blocks(chunk);
    CallAt(compress, chunk, counter, root, BlockCount(chunk), i);
    BlockStart(chunk, i);
    PieceIs(chunk, BLOCK_LEN, i);
    PaddedWordsAt(Piece(chunk, BLOCK_LEN, i), 16, j);
    hide PaddedWords, Piece, WordAt, CeilDiv, BlockCount, PaddedByte, ChunkCalls, ChunkState, BlockFlags;
  }

  lemma FlagSum(i: nat, n: nat, root: bool)
    ensures BlockFlags(i, i + 1 == n, root)
         == (if i == 0 then 1 else 0) + (if i + 1 == n then 2 else 0) + (if i + 1 == n && root then 8 else 0)
  {
  }

  /** The value of a chunk is what its last compression returns. */
  lemma ChunkResult(compress: Compress, chunk: seq<Byte>, counter: nat, root: bool)
    ensures var t := TracedChunk(compress, chunk, counter, root);
      t.calls != [] && t.value == Returned(compress, t.calls[|t.calls| - 1])
  {
    var n := BlockCount(chunk);
    CallAt(compress, chunk, counter, root, n, n - 1);
  }

  /** Leaf i of the tree is the chunk of 1024 bytes from 1024 * i on, or what is
      left there, under counter i. */
  lemma LeafFields(compress: Compress, data: seq<Byte>, i: nat, root: bool)
    requires 1024 * i <= |data|
    ensures Subtree(TracedLeaf(compress, data), TracedParent(compress), i, 1, root)
         == TracedChunk(compress, data[1024 * i..Min(1024 * i + 1024, |data|)], i, root)
  {
    PieceIs(data, CHUNK_LEN, i);
  }

  /** Two subtrees joined: all compressions of the left one, then all of the right
      one, then one more from the initial words over the left value followed by the
      right value, with counter 0, length 64, the mark of a parent and, at the root,
      the mark of the root. */
  ghost predicate Joined(compress: Compress, left: Traced, right: Traced, root: bool, t: Traced) {
    && |t.calls| == |left.calls| + |right.calls| + 1
    && t.calls[..|left.calls|] == left.calls
    && t.calls[|left.calls|..|t.calls| - 1] == right.calls
    && var last := t.calls[|t.calls| - 1];
       && last.cv == InitialWords() && last.counter == 0 && last.len == 64
       && last.block[..8] == left.value && last.block[8..] == right.value
       && last.flags == 4 + (if root then 8 else 0)
       && t.value == Returned(compress, last)
  }

  lemma JoinFields(compress: Compress, left: Traced, right: Traced, root: bool)
    ensures Joined(compress, left, right, root, Join(compress, left, right, root))
  {
    var call := ParentCall(left.value, right.value, root);
    assert call.flags == 4 + (if root then 8 else 0);
  }

  /** Every subtree of two or more chunks joins its left and its right part so;
      the left part has the power of two below the number of chunks. */
  lemma {:induction false} ParentFields(compress: Compress, data: seq<Byte>, lo: nat, n: nat, root: bool, j: nat)
    requires n >= 2 && Pow2(j) < n <= 2 * Pow2(j)
    ensures var leaf, parent, l := TracedLeaf(compress, data), TracedParent(compress), Pow2(j);
      Joined(compress, Subtree(leaf, parent, lo, l, false), Subtree(leaf, parent, lo + l, n - l, false), root,
             Subtree(leaf, parent, lo, n, root))
  {
    hide Subtree, TracedLeaf, TracedParent, Join, Joined, LeftLength, Pow2;
    var leaf, parent, l := TracedLeaf(compress, data), TracedParent(compress), Pow2(j);
    LeftLengthIs(n, j);
    SubtreeParts(leaf, parent, lo, n, root);
    var left, right := Subtree(leaf, parent, lo, l, false), Subtree(leaf, parent, lo + l, n - l, false);
    JoinIsParent(compress, left, right, root);
    JoinFields(compress, left, right, root);
  }

  /** The tree is over one leaf for every 1024 bytes begun, at least one. */
  lemma TreeFields(compress: Compress, data: seq<Byte>)
    ensures var n := if data == [] then 1 else (|data| + 1023) / 1024;
      TreeTrace(compress, data) == Subtree(TracedLeaf(compress, data), TracedParent(compress), 0, n, true)
  {
  }

  lemma {:induction false} WordBytesAt(ws: seq<U32>, i: nat)
    requires i < 4 * |ws|
    ensures WordBytes(ws)[i]
         == ws[i / 4] / (if i % 4 == 0 then 1 else if i % 4 == 1 then 256 else if i % 4 == 2 then 65536 else 16777216)
            % 256
  {
    if i < 4 * (|ws| - 1) {
      WordBytesAt(ws[..|ws| - 1], i);
    } else {
      assert WordBytes(ws)[i] == LeBytes(ws[|ws| - 1])[i - 4 * (|ws| - 1)];
    }
  }

  /** The digest: the bytes of the root value, each word lowest byte first. */
  lemma {:induction false} DigestBytes(compress: Compress, data: seq<Byte>, i: nat)
    requires i < 32
    ensures TreeHash(compress, data)[i]
         == TreeTrace(compress, data).value[i / 4]
            / (if i % 4 == 0 then 1 else if i % 4 == 1 then 256 else if i % 4 == 2 then 65536 else 16777216) % 256
  {
    TraceGivesHash(compress, data);
    WordBytesAt(TreeTrace(compress, data).value, i);
    hide WordBytes, Subtree;
  }

  /** Byte i of a keystream: word i / 4 of the current output block, which is the
      compression of the seed as the only block of a root chunk, under the number
      of the output block as counter. */
  lemma {:induction false} KeystreamByte(compress: Compress, seed: Bytes32, i: nat, block: Words16)
    requires forall j :: 0 <= j < 16 ==>
      block[j] == PaddedByte(seed, 4 * j) + 256 * PaddedByte(seed, 4 * j + 1) + 65536 * PaddedByte(seed, 4 * j + 2)
                  + 16777216 * PaddedByte(seed, 4 * j + 3)
    ensures var k := i % 4;
      XofByte(compress, seed, i)
      == compress(InitialWords(), block, i / 64, 32, 11)[i % 64 / 4]
         / (if k == 0 then 1 else if k == 1 then 256 else if k == 2 then 65536 else 16777216) % 256
  {
    forall j | 0 <= j < 16 ensures block[j] == BlockWords(seed)[j] {
      PaddedWordsAt(seed, 16, j);
    }
    assert block == BlockWords(seed);
    assert CHUNK_START | CHUNK_END | ROOT == 11;
    WordBytesAt(compress(InitialWords(), block, i / 64, 32, 11), i % 64);
    hide WordBytes, BlockWords;
    assert i % 64 % 4 == i % 4;
  }
}
