/** The Merkle tree level by level: which lists have the root of another one.
    A list of m * 2^k hashes, m odd and at least 3, keeps its root when its last
    2^k hashes are repeated. A list of a power of two of different hashes shares
    its root with no other list, unless hashes collide. */
module MerkleLevels {
  import opened Primitives
  import opened Merkle

  /** What is hashed into the next level. */
  function Pairs(level: seq<Hash256>): (r: seq<(Hash256, Hash256)>)
    ensures |r| == (|level| + 1) / 2
    ensures forall i :: 0 <= i < |r| ==>
      r[i] == (level[2 * i], if 2 * i + 1 < |level| then level[2 * i + 1] else level[2 * i])
  {
    seq((|level| + 1) / 2, i requires 0 <= i < (|level| + 1) / 2 =>
      (level[2 * i], if 2 * i + 1 < |level| then level[2 * i + 1] else level[2 * i]))
  }

  function Above(pair: PairHash, level: seq<Hash256>): (r: seq<Hash256>)
    ensures |r| == (|level| + 1) / 2
    ensures forall i :: 0 <= i < |r| ==> r[i] == pair(Pairs(level)[i].0, Pairs(level)[i].1)
  {
    seq(|Pairs(level)|, i requires 0 <= i < |Pairs(level)| => pair(Pairs(level)[i].0, Pairs(level)[i].1))
  }

  lemma {:induction false} WidthAbove(n: nat, d: nat)
    ensures Width((n + 1) / 2, d) == Width(n, d + 1)
  {
    if d > 0 {
      WidthAbove(n, d - 1);
    } else {
      assert Width(n, 0) == n;
    }
  }

  /** The tree over the next level is the upper part of the tree. */
  lemma {:induction false} NodeAbove(pair: PairHash, s: seq<Hash256>, d: nat, i: nat)
    requires i < Width(|s|, d + 1)
    ensures i < Width(|Above(pair, s)|, d)
    ensures Node(pair, Above(pair, s), d, i) == Node(pair, s, d + 1, i)
    ensures d > 0 ==> Children(pair, Above(pair, s), d, i) == Children(pair, s, d + 1, i)
    ensures d == 0 ==> i < |Pairs(s)| && Children(pair, s, 1, i) == Pairs(s)[i]
  {
    hide Above, Pairs;
    WidthAbove(|s|, d);
    if d > 0 {
      WidthAbove(|s|, d - 1);
      NodeAbove(pair, s, d - 1, 2 * i);
      if 2 * i + 1 < Width(|s|, d) {
        NodeAbove(pair, s, d - 1, 2 * i + 1);
      }
    } else {
      assert Width(|s|, 0) == |s|;
      assert Children(pair, s, 1, i) == Pairs(s)[i];
    }
  }

  /** The root of a list is the root of its first level. */
  lemma RootAbove(pair: PairHash, s: seq<Hash256>)
    requires |s| >= 2
    ensures Above(pair, s) != [] && TreeRoot(pair, s) == TreeRoot(pair, Above(pair, s))
    ensures Depth(|s|) == Depth(|Above(pair, s)|) + 1
  {
    hide Above;
    WidthAtDepth(|s|, 0);
    NodeAbove(pair, s, Depth(|s|) - 1, 0);
  }

  /** The root, step by step: nothing is thirty-two zero bytes, one hash is itself,
      and of a longer list neighbours are hashed in pairs, the last one with itself
      if it is left over, until one hash remains. */
  lemma {:induction false} RootStep(pair: PairHash, s: seq<Hash256>, next: seq<Hash256>)
    requires |next| == (|s| + 1) / 2
    requires forall i :: 0 <= i < |next| ==>
      next[i] == if 2 * i + 1 < |s| then pair(s[2 * i], s[2 * i + 1]) else pair(s[2 * i], s[2 * i])
    ensures s == [] ==> TreeRoot(pair, s).bytes == Repeat(0, 32)
    ensures |s| == 1 ==> TreeRoot(pair, s) == s[0]
    ensures |s| >= 2 ==> TreeRoot(pair, s) == TreeRoot(pair, next)
  {
    hide Repeat;
    if |s| == 1 {
      assert Width(1, 0) == 1;
    } else if |s| >= 2 {
      assert next == Above(pair, s);
      hide Above, Pairs;
      RootAbove(pair, s);
    }
  }

  // ----- lists with the same root -----

  /** The largest power of two that divides n. */
  function LowBit(n: nat): (r: nat)
    requires n >= 1
    ensures 1 <= r <= n
  {
    if n % 2 == 1 then 1 else 2 * LowBit(n / 2)
  }

  predicate PowerOfTwo(n: nat) {
    n >= 1 && LowBit(n) == n
  }

  lemma {:induction false} LowBitIs(m: nat, k: nat)
    requires m % 2 == 1
    ensures m * Pow2(k) >= 1 && LowBit(m * Pow2(k)) == Pow2(k)
  {
    if k > 0 {
      LowBitIs(m, k - 1);
      assert m * (2 * Pow2(k - 1)) == 2 * (m * Pow2(k - 1));
    } else {
      assert m * 1 == m;
    }
  }

  lemma {:induction false} PowerOfTwoIs(n: nat) returns (k: nat)
    requires PowerOfTwo(n)
    ensures n == Pow2(k) && Depth(n) == k
  {
    if n == 1 {
      k := 0;
    } else {
      k := PowerOfTwoIs(n / 2);
      k := k + 1;
    }
  }

  /** The list with as many of its last elements repeated as LowBit says. */
  function Padded<T(!new)>(s: seq<T>): (r: seq<T>)
    requires s != []
    ensures forall x :: x in r <==> x in s
  {
    var tail := s[|s| - LowBit(|s|)..];
    assert forall x :: x in tail ==> x in s;
    s + tail
  }

  lemma PairsOfConcat(s: seq<Hash256>, t: seq<Hash256>)
    requires |s| % 2 == 0
    ensures Pairs(s + t) == Pairs(s) + Pairs(t)
  {
    forall i | 0 <= i < |Pairs(s + t)| ensures Pairs(s + t)[i] == (Pairs(s) + Pairs(t))[i] {
    }
  }

  lemma PairsOfTail(s: seq<Hash256>, n: nat)
    requires |s| % 2 == 0 && 2 * n <= |s|
    ensures Pairs(s[2 * n..]) == Pairs(s)[n..]
  {
  }

  lemma AboveOfPairs(pair: PairHash, s: seq<Hash256>, t: seq<Hash256>, i: nat)
    requires i <= |Pairs(s)| && Pairs(t) == Pairs(s) + Pairs(s)[i..]
    ensures Above(pair, t) == Above(pair, s) + Above(pair, s)[i..]
  {
  }

  /** One level up, a padded even list is the padded level. */
  lemma {:induction false} PaddedAbove(pair: PairHash, s: seq<Hash256>)
    requires s != [] && |s| % 2 == 0
    ensures Pairs(Padded(s)) == Padded(Pairs(s))
    ensures Above(pair, Padded(s)) == Padded(Above(pair, s))
  {
    var start := |s| - LowBit(|s|);
    assert start % 2 == 0 && start / 2 == |Pairs(s)| - LowBit(|Pairs(s)|);
    hide Pairs, Above, LowBit;
    PairsOfConcat(s, s[start..]);
    PairsOfTail(s, start / 2);
    AboveOfPairs(pair, s, Padded(s), start / 2);
  }

  lemma PaddedOdd(s: seq<Hash256>)
    requires |s| % 2 == 1
    ensures Padded(s) == s + [s[|s| - 1]] && Pairs(Padded(s)) == Pairs(s)
  {
  }

  /** Whatever the hash: unless the length is a power of two, the padded list
      has the root of the list. */
  lemma {:induction false} PaddedKeepsRoot(pair: PairHash, s: seq<Hash256>)
    requires s != [] && !PowerOfTwo(|s|)
    ensures TreeRoot(pair, Padded(s)) == TreeRoot(pair, s)
    decreases |s|
  {
    if |s| % 2 == 1 {
      PaddedOdd(s);
      RepeatedLastKeepsRoot(pair, s);
    } else {
      hide Padded, Above, TreeRoot;
      PaddedAbove(pair, s);
      PaddedKeepsRoot(pair, Above(pair, s));
      RootAbove(pair, s);
      PaddedLonger(s);
      RootAbove(pair, Padded(s));
    }
  }

  lemma PaddedLonger<T(!new)>(s: seq<T>)
    requires s != []
    ensures |Padded(s)| == |s| + LowBit(|s|)
  {
  }

  // ----- lists without another one of the same root -----

  function Elements<T(==)>(s: seq<T>): set<T> {
    set x | x in s
  }

  /** Everything that is hashed in the tree over a list. */
  ghost function Hashed(pair: PairHash, s: seq<Hash256>): set<(Hash256, Hash256)>
    decreases |s|
  {
    if |s| <= 1 then {} else Elements(Pairs(s)) + Hashed(pair, Above(pair, s))
  }

  ghost predicate Collides(pair: PairHash, x: (Hash256, Hash256), y: (Hash256, Hash256)) {
    x != y && pair(x.0, x.1) == pair(y.0, y.1)
  }

  /** The pair hash gives different values for different inputs. */
  ghost predicate CollisionFree(pair: PairHash, inputs: set<(Hash256, Hash256)>) {
    forall x, y :: x in inputs && y in inputs ==> !Collides(pair, x, y)
  }

  /** A hash that is neither the value of an inner node nor the root of nothing. */
  ghost predicate LeafOnly(pair: PairHash, inputs: set<(Hash256, Hash256)>, leaf: Hash256) {
    leaf != ZERO_HASH && forall x :: x in inputs ==> pair(x.0, x.1) != leaf
  }

  /** In the trees over both lists: no collision, no leaf is an inner node, and
      nothing hashes to zero. */
  ghost predicate Honest(pair: PairHash, s: seq<Hash256>, t: seq<Hash256>) {
    var inputs := Hashed(pair, s) + Hashed(pair, t);
    && CollisionFree(pair, inputs)
    && (forall leaf :: leaf in s || leaf in t ==> LeafOnly(pair, inputs, leaf))
    && forall x :: x in inputs ==> pair(x.0, x.1) != ZERO_HASH
  }

  /** Padding hashes nothing new. */
  lemma {:induction false} PaddedHashed(pair: PairHash, s: seq<Hash256>)
    requires s != [] && !PowerOfTwo(|s|)
    ensures Hashed(pair, Padded(s)) == Hashed(pair, s)
    decreases |s|
  {
    hide Pairs, Above;
    if |s| % 2 == 1 {
      PaddedOdd(s);
      SameAbove(pair, s, Padded(s));
    } else {
      PaddedAbove(pair, s);
      PaddedHashed(pair, Above(pair, s));
      hide Padded;
      PaddedLonger(s);
      assert Elements(Padded(Pairs(s))) == Elements(Pairs(s));
    }
  }

  lemma SameAbove(pair: PairHash, s: seq<Hash256>, t: seq<Hash256>)
    requires Pairs(s) == Pairs(t)
    ensures Above(pair, s) == Above(pair, t)
  {
  }

  predicate Distinct<T(==)>(s: seq<T>) {
    forall i, j :: 0 <= i < j < |s| ==> s[i] != s[j]
  }

  lemma {:induction false} NodeHashed(pair: PairHash, s: seq<Hash256>, d: nat, i: nat)
    requires 1 <= d <= Depth(|s|) && i < Width(|s|, d)
    ensures Children(pair, s, d, i) in Hashed(pair, s)
    decreases d
  {
    hide Above, Pairs;
    NodeAbove(pair, s, d - 1, i);
    if d > 1 {
      NodeHashed(pair, Above(pair, s), d - 1, i);
    }
  }

  lemma {:induction false} EqualFirstChildren(pair: PairHash, s: seq<Hash256>, t: seq<Hash256>,
                                              d: nat, e: nat, i: nat, j: nat)
    requires CollisionFree(pair, Hashed(pair, s) + Hashed(pair, t))
    requires 0 < d <= Depth(|s|) && 0 < e <= Depth(|t|) && i < Width(|s|, d) && j < Width(|t|, e)
    requires Node(pair, s, d, i) == Node(pair, t, e, j)
    ensures 2 * i < Width(|s|, d - 1) && 2 * j < Width(|t|, e - 1)
    ensures Node(pair, s, d - 1, 2 * i) == Node(pair, t, e - 1, 2 * j)
  {
    hide Hashed, CollisionFree;
    NodeHashed(pair, s, d, i);
    NodeHashed(pair, t, e, j);
    SameInputs(pair, Hashed(pair, s) + Hashed(pair, t), Children(pair, s, d, i), Children(pair, t, e, j));
  }

  /** Inner nodes of s are no leaves of t. */
  lemma {:induction false} InnerNoLeaf(pair: PairHash, s: seq<Hash256>, t: seq<Hash256>, d: nat, i: nat, leaf: Hash256)
    requires LeafOnly(pair, Hashed(pair, s) + Hashed(pair, t), leaf)
    requires 0 < d <= Depth(|s|) && i < Width(|s|, d)
    ensures Node(pair, s, d, i) != leaf
  {
    hide Hashed, LeafOnly;
    NodeHashed(pair, s, d, i);
    InnerIsNoLeaf(pair, Hashed(pair, s) + Hashed(pair, t), Children(pair, s, d, i), leaf);
  }

  lemma LeafNode(pair: PairHash, s: seq<Hash256>, i: nat)
    requires i < Width(|s|, 0)
    ensures i < |s| && Node(pair, s, 0, i) == s[i]
  {
  }

  lemma HonestLeaves(pair: PairHash, s: seq<Hash256>, t: seq<Hash256>)
    requires Honest(pair, s, t)
    ensures CollisionFree(pair, Hashed(pair, s) + Hashed(pair, t))
    ensures forall i :: 0 <= i < |s| ==> LeafOnly(pair, Hashed(pair, t) + Hashed(pair, s), s[i])
    ensures forall j :: 0 <= j < |t| ==> LeafOnly(pair, Hashed(pair, s) + Hashed(pair, t), t[j])
  {
    hide Hashed, LeafOnly, CollisionFree;
    assert Hashed(pair, s) + Hashed(pair, t) == Hashed(pair, t) + Hashed(pair, s);
  }

  /** Equal nodes of two trees are equally far above the leaves. */
  lemma {:induction false} SameDistance(pair: PairHash, s: seq<Hash256>, t: seq<Hash256>,
                                        d: nat, e: nat, i: nat, j: nat)
    requires Honest(pair, s, t) && d <= Depth(|s|) && e <= Depth(|t|)
    requires i < Width(|s|, d) && j < Width(|t|, e) && Node(pair, s, d, i) == Node(pair, t, e, j)
    ensures d == e
  {
    hide Hashed, CollisionFree, LeafOnly, Honest, Node, Width, Depth;
    HonestLeaves(pair, s, t);
    if d > 0 && e > 0 {
      EqualFirstChildren(pair, s, t, d, e, i, j);
      SameDistance(pair, s, t, d - 1, e - 1, 2 * i, 2 * j);
    } else if d > 0 {
      LeafNode(pair, t, j);
      InnerNoLeaf(pair, s, t, d, i, t[j]);
    } else if e > 0 {
      LeafNode(pair, s, i);
      InnerNoLeaf(pair, t, s, e, j, s[i]);
    }
  }

  lemma SameInputs(pair: PairHash, inputs: set<(Hash256, Hash256)>, x: (Hash256, Hash256), y: (Hash256, Hash256))
    requires CollisionFree(pair, inputs) && x in inputs && y in inputs && pair(x.0, x.1) == pair(y.0, y.1)
    ensures x == y
  {
    assert !Collides(pair, x, y);
  }

  lemma InnerIsNoLeaf(pair: PairHash, inputs: set<(Hash256, Hash256)>, x: (Hash256, Hash256), leaf: Hash256)
    requires LeafOnly(pair, inputs, leaf) && x in inputs
    ensures pair(x.0, x.1) != leaf
  {
  }

  /** Different hashes make different nodes, level by level. */
  lemma {:induction false} DistinctAbove(pair: PairHash, s: seq<Hash256>)
    requires Distinct(s) && |s| % 2 == 0 && CollisionFree(pair, Elements(Pairs(s)))
    ensures Distinct(Above(pair, s))
  {
    hide CollisionFree;
    forall i, j | 0 <= i < j < |Above(pair, s)| ensures Above(pair, s)[i] != Above(pair, s)[j] {
      assert s[2 * i] != s[2 * j];
      if Above(pair, s)[i] == Above(pair, s)[j] {
        SameInputs(pair, Elements(Pairs(s)), Pairs(s)[i], Pairs(s)[j]);
      }
    }
  }

  lemma EqualPairs(pair: PairHash, s: seq<Hash256>, t: seq<Hash256>)
    requires |s| >= 2 && |t| >= 2 && Above(pair, s) == Above(pair, t)
    requires CollisionFree(pair, Elements(Pairs(s)) + Elements(Pairs(t)))
    ensures Pairs(s) == Pairs(t)
  {
    hide CollisionFree;
    forall i | 0 <= i < |Pairs(s)| ensures Pairs(s)[i] == Pairs(t)[i] {
      SameInputs(pair, Elements(Pairs(s)) + Elements(Pairs(t)), Pairs(s)[i], Pairs(t)[i]);
    }
  }

  /** A padded odd level would need two equal neighbours. */
  lemma PairsFixEvenList(s: seq<Hash256>, t: seq<Hash256>)
    requires |s| % 2 == 0 && Distinct(s) && Pairs(s) == Pairs(t)
    ensures s == t
  {
    var n := |Pairs(s)|;
    if n > 0 {
      assert s[2 * n - 2] != s[2 * n - 1];
      assert Pairs(s)[n - 1] == (s[2 * n - 2], s[2 * n - 1]);
    }
    assert |t| % 2 == 0;
    forall k | 0 <= k < |s| ensures s[k] == t[k] {
      assert Pairs(s)[k / 2] == Pairs(t)[k / 2];
    }
  }

  lemma FewerInputs(pair: PairHash, inputs: set<(Hash256, Hash256)>, some: set<(Hash256, Hash256)>)
    requires CollisionFree(pair, inputs) && some <= inputs
    ensures CollisionFree(pair, some)
  {
  }

  lemma {:induction false} SameHeightSameList(pair: PairHash, s: seq<Hash256>, t: seq<Hash256>)
    requires PowerOfTwo(|s|) && t != [] && Depth(|s|) == Depth(|t|) && Distinct(s)
    requires CollisionFree(pair, Hashed(pair, s) + Hashed(pair, t))
    requires TreeRoot(pair, s) == TreeRoot(pair, t)
    ensures s == t
    decreases |s|
  {
    if |s| == 1 {
      assert Width(|s|, 0) == 1 && Width(|t|, 0) == 1;
    } else {
      hide CollisionFree, TreeRoot, Pairs, Above;
      var inputs := Hashed(pair, s) + Hashed(pair, t);
      RootAbove(pair, s);
      RootAbove(pair, t);
      FewerInputs(pair, inputs, Elements(Pairs(s)));
      DistinctAbove(pair, s);
      FewerInputs(pair, inputs, Hashed(pair, Above(pair, s)) + Hashed(pair, Above(pair, t)));
      SameHeightSameList(pair, Above(pair, s), Above(pair, t));
      FewerInputs(pair, inputs, Elements(Pairs(s)) + Elements(Pairs(t)));
      EqualPairs(pair, s, t);
      PairsFixEvenList(s, t);
    }
  }

  lemma RootOfSome(pair: PairHash, s: seq<Hash256>)
    requires s != []
    ensures 0 < Width(|s|, Depth(|s|)) && TreeRoot(pair, s) == Node(pair, s, Depth(|s|), 0)
  {
    WidthAtDepth(|s|, 0);
  }

  lemma {:induction false} NothingIsZero(pair: PairHash, s: seq<Hash256>, t: seq<Hash256>)
    requires Honest(pair, s, t) && t != []
    ensures TreeRoot(pair, t) != ZERO_HASH
  {
    hide Hashed, CollisionFree;
    RootOfSome(pair, t);
    if Depth(|t|) > 0 {
      NodeHashed(pair, t, Depth(|t|), 0);
      assert Children(pair, t, Depth(|t|), 0) in Hashed(pair, s) + Hashed(pair, t);
    } else {
      assert t[0] in t;
    }
  }

  /** No list, or a power of two of different hashes: no other list has the root,
      unless hashes collide. */
  lemma {:induction false} RootFixesPowerOfTwo(pair: PairHash, s: seq<Hash256>, t: seq<Hash256>)
    requires (s == [] || PowerOfTwo(|s|)) && Distinct(s)
    requires Honest(pair, s, t) && TreeRoot(pair, s) == TreeRoot(pair, t)
    ensures s == t
  {
    hide TreeRoot, Hashed, PowerOfTwo;
    if s == [] && t != [] {
      assert TreeRoot(pair, s) == ZERO_HASH by { RootOfNone(pair); }
      NothingIsZero(pair, s, t);
    } else if s != [] && t == [] {
      assert TreeRoot(pair, t) == ZERO_HASH by { RootOfNone(pair); }
      HonestBack(pair, s, t);
      NothingIsZero(pair, t, s);
    } else if s != [] {
      RootOfSome(pair, s);
      RootOfSome(pair, t);
      SameDistance(pair, s, t, Depth(|s|), Depth(|t|), 0, 0);
      SameHeightSameList(pair, s, t);
    }
  }

  lemma RootOfNone(pair: PairHash)
    ensures TreeRoot(pair, []) == ZERO_HASH
  {
  }

  lemma HonestBack(pair: PairHash, s: seq<Hash256>, t: seq<Hash256>)
    requires Honest(pair, s, t)
    ensures Honest(pair, t, s)
  {
    assert Hashed(pair, s) + Hashed(pair, t) == Hashed(pair, t) + Hashed(pair, s);
  }
}
