/** The transaction root: a binary tree over transaction hashes in which the
    last node of an odd level is paired with itself. The hash of two
    concatenated hashes is a given function `pair`. */
module Merkle {
  import opened Primitives

  type PairHash = (Hash256, Hash256) -> Hash256

  /** Number of nodes at distance d above n leaves. */
  function Width(n: nat, d: nat): nat {
    if d == 0 then n else (Width(n, d - 1) + 1) / 2
  }

  function Depth(n: nat): nat {
    if n <= 1 then 0 else 1 + Depth((n + 1) / 2)
  }

  /** The i-th node at distance d above the leaves, defined from the root downwards. */
  function Node(pair: PairHash, leaves: seq<Hash256>, d: nat, i: nat): Hash256
    requires i < Width(|leaves|, d)
    decreases d, 0
  {
    if d == 0 then leaves[i]
    else
      var (left, right) := Children(pair, leaves, d, i);
      pair(left, right)
  }

  /** What is hashed into a node: the last node of an odd level counts twice. */
  function Children(pair: PairHash, leaves: seq<Hash256>, d: nat, i: nat): (Hash256, Hash256)
    requires d > 0 && i < Width(|leaves|, d)
    decreases d - 1, 1
  {
    var left := Node(pair, leaves, d - 1, 2 * i);
    (left, if 2 * i + 1 < Width(|leaves|, d - 1) then Node(pair, leaves, d - 1, 2 * i + 1) else left)
  }

  function TreeRoot(pair: PairHash, leaves: seq<Hash256>): Hash256 {
    if leaves == [] then ZERO_HASH
    else
      WidthAtDepth(|leaves|, 0);
      Node(pair, leaves, Depth(|leaves|), 0)
  }

  lemma {:induction false} WidthAtDepth(n: nat, d: nat)
    requires n >= 1 && d <= Depth(n)
    ensures Width(n, Depth(n)) == 1
    ensures Depth(Width(n, d)) == Depth(n) - d && Width(n, d) >= 1
    decreases Depth(n) - d
  {
    DepthOfWidth(n, d);
    DepthOfWidth(n, Depth(n));
  }

  lemma {:induction false} DepthOfWidth(n: nat, d: nat)
    requires n >= 1 && d <= Depth(n)
    ensures Depth(Width(n, d)) == Depth(n) - d && Width(n, d) >= 1
  {
    if d > 0 {
      DepthOfWidth(n, d - 1);
    }
  }

  /** `nodes` are the first nodes of level d. */
  ghost predicate Nodes(pair: PairHash, leaves: seq<Hash256>, d: nat, nodes: seq<Hash256>) {
    |nodes| <= Width(|leaves|, d) && forall i :: 0 <= i < |nodes| ==> nodes[i] == Node(pair, leaves, d, i)
  }

  ghost predicate Level(pair: PairHash, leaves: seq<Hash256>, d: nat, level: seq<Hash256>) {
    Nodes(pair, leaves, d, level) && |level| == Width(|leaves|, d) && d <= Depth(|leaves|)
  }

  lemma FirstLevel(pair: PairHash, leaves: seq<Hash256>)
    ensures Level(pair, leaves, 0, leaves)
  {
  }

  lemma NextNode(pair: PairHash, leaves: seq<Hash256>, d: nat, level: seq<Hash256>, next: seq<Hash256>)
    requires Level(pair, leaves, d, level) && Nodes(pair, leaves, d + 1, next)
    requires 2 * |next| < |level|
    ensures var i := 2 * |next|;
      var node := if i + 1 < |level| then pair(level[i], level[i + 1]) else pair(level[i], level[i]);
      Nodes(pair, leaves, d + 1, next + [node])
  {
    var i := 2 * |next|;
    assert Children(pair, leaves, d + 1, |next|) == (level[i], if i + 1 < |level| then level[i + 1] else level[i]);
  }

  lemma NextLevel(pair: PairHash, leaves: seq<Hash256>, d: nat, level: seq<Hash256>, next: seq<Hash256>)
    requires leaves != [] && Level(pair, leaves, d, level) && |level| > 1
    requires Nodes(pair, leaves, d + 1, next) && 2 * |next| >= |level|
    ensures Level(pair, leaves, d + 1, next) && next != [] && |next| < |level|
  {
    DepthOfWidth(|leaves|, d);
  }

  lemma LastLevel(pair: PairHash, leaves: seq<Hash256>, d: nat, level: seq<Hash256>)
    requires leaves != [] && Level(pair, leaves, d, level) && |level| <= 1
    ensures level == [TreeRoot(pair, leaves)]
  {
    DepthOfWidth(|leaves|, d);
  }

  /** One level at a time, bottom up, as the code does it. */
  method MerkleRoot(pair: PairHash, hashes: seq<Hash256>) returns (root: Hash256)
    ensures root == TreeRoot(pair, hashes)
  {
    if hashes == [] {
      return ZERO_HASH;
    }
    hide Nodes, Level, TreeRoot;
    var level := hashes;
    ghost var d := 0;
    FirstLevel(pair, hashes);
    while |level| > 1
      invariant Level(pair, hashes, d, level)
      decreases |level|
    {
      var next := [];
      var i := 0;
      NoNodes(pair, hashes, d + 1);
      while i < |level|
        invariant i == 2 * |next| && Nodes(pair, hashes, d + 1, next)
      {
        NextNode(pair, hashes, d, level, next);
        var combined := if i + 1 < |level| then pair(level[i], level[i + 1]) else pair(level[i], level[i]);
        next := next + [combined];
        i := i + 2;
      }
      NextLevel(pair, hashes, d, level, next);
      level := next;
      d := d + 1;
    }
    LastLevel(pair, hashes, d, level);
    root := level[0];
  }

  lemma NoNodes(pair: PairHash, leaves: seq<Hash256>, d: nat)
    ensures Nodes(pair, leaves, d, [])
  {
  }

  /** Nowhere in the two trees does the pair hash give one value for two inputs. */
  ghost predicate NoCollision(pair: PairHash, s: seq<Hash256>, t: seq<Hash256>)
    requires |s| == |t|
  {
    forall d: nat, i: nat {:trigger Children(pair, s, d, i)} ::
      d > 0 && i < Width(|s|, d) && Node(pair, s, d, i) == Node(pair, t, d, i) ==>
        Children(pair, s, d, i) == Children(pair, t, d, i)
  }

  /** The leaves below node i of level d. */
  ghost predicate Below(j: nat, d: nat, i: nat) {
    i * Pow2(d) <= j < i * Pow2(d) + Pow2(d)
  }

  lemma BelowChild(j: nat, d: nat, i: nat)
    requires d > 0 && Below(j, d, i)
    ensures Below(j, d - 1, 2 * i) || Below(j, d - 1, 2 * i + 1)
  {
    var k := Pow2(d - 1);
    assert i * (2 * k) == 2 * i * k;
    assert (2 * i + 1) * k == 2 * i * k + k;
  }

  /** A node exists at level d whenever a leaf lies in its range. */
  lemma {:induction false} WidthCovers(n: nat, d: nat, i: nat, j: nat)
    requires Below(j, d, i) && j < n
    ensures i < Width(n, d)
  {
    if d > 0 {
      BelowChild(j, d, i);
      WidthCovers(n, d - 1, if Below(j, d - 1, 2 * i) then 2 * i else 2 * i + 1, j);
    }
  }

  lemma {:induction false} EqualNodesEqualLeaves(pair: PairHash, s: seq<Hash256>, t: seq<Hash256>,
                                                 d: nat, i: nat, j: nat)
    requires |s| == |t| && NoCollision(pair, s, t)
    requires i < Width(|s|, d) && Node(pair, s, d, i) == Node(pair, t, d, i)
    requires Below(j, d, i) && j < |s|
    ensures s[j] == t[j]
  {
    if d > 0 {
      BelowChild(j, d, i);
      var child := if Below(j, d - 1, 2 * i) then 2 * i else 2 * i + 1;
      WidthCovers(|s|, d - 1, child, j);
      hide Below;
      EqualNodesEqualLeaves(pair, s, t, d - 1, child, j);
    }
  }

  lemma {:induction false} DepthCovers(n: nat)
    requires n >= 1
    ensures n <= Pow2(Depth(n))
  {
    if n > 1 {
      DepthCovers((n + 1) / 2);
    }
  }

  /** Unless the pair hash collides inside the two trees, the root fixes a list
      of known length. */
  lemma RootFixesList(pair: PairHash, s: seq<Hash256>, t: seq<Hash256>)
    requires |s| == |t| && NoCollision(pair, s, t)
    requires TreeRoot(pair, s) == TreeRoot(pair, t)
    ensures s == t
  {
    if s != [] {
      WidthAtDepth(|s|, 0);
      DepthCovers(|s|);
      forall j | 0 <= j < |s| ensures s[j] == t[j] {
        EqualNodesEqualLeaves(pair, s, t, Depth(|s|), 0, j);
      }
    }
  }

  lemma {:induction false} DuplicatedLastNode(pair: PairHash, s: seq<Hash256>, d: nat, i: nat)
    requires |s| % 2 == 1 && d >= 1
    requires i < Width(|s|, d)
    ensures Width(|s| + 1, d) == Width(|s|, d)
    ensures Node(pair, s + [s[|s| - 1]], d, i) == Node(pair, s, d, i)
  {
    var t := s + [s[|s| - 1]];
    if d == 1 {
      assert Width(|s|, 0) == |s| && Width(|t|, 0) == |t|;
      assert Node(pair, t, 0, 2 * i) == Node(pair, s, 0, 2 * i);
    } else {
      DuplicatedLastNode(pair, s, d - 1, 2 * i);
      if 2 * i + 1 < Width(|s|, d - 1) {
        DuplicatedLastNode(pair, s, d - 1, 2 * i + 1);
      }
    }
  }

  /** The length is not fixed by the root: repeating the last hash of an odd
      list of at least three leaves the root as it was, whatever the hash. */
  lemma RepeatedLastKeepsRoot(pair: PairHash, s: seq<Hash256>)
    requires |s| % 2 == 1 && |s| >= 3
    ensures TreeRoot(pair, s + [s[|s| - 1]]) == TreeRoot(pair, s)
  {
    WidthAtDepth(|s|, 0);
    WidthAtDepth(|s| + 1, 0);
    assert (|s| + 1) / 2 == (|s| + 2) / 2;
    assert Depth(|s| + 1) == Depth(|s|);
    DuplicatedLastNode(pair, s, Depth(|s|), 0);
  }
}
