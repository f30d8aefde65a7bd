/** The tree over chunks, sections 2.1 and 5.1.2 of the BLAKE3 paper: the left
    subtree is the largest power of two below the number of chunks, and a stack
    of finished subtrees computes it left to right. `leaf` and `parent` give the
    value of a chunk and of a pair; the flag says whether it is the root. */
module ChainingTree {
  import opened Primitives

  /** The largest power of two strictly below n. */
  function LeftLength(n: nat): (l: nat)
    requires n >= 2
    ensures 1 <= l < n <= 2 * l
  {
    if n == 2 then 1 else 2 * LeftLength((n + 1) / 2)
  }

  lemma {:induction false} LeftLengthIs(n: nat, j: nat)
    requires Pow2(j) < n <= 2 * Pow2(j)
    ensures LeftLength(n) == Pow2(j)
  {
    if j > 0 {
      LeftLengthIs((n + 1) / 2, j - 1);
    }
  }

  /** The value of the subtree over chunks lo to lo + n - 1. */
  function Subtree<T>(leaf: (nat, bool) -> T, parent: (T, T, bool) -> T, lo: nat, n: nat, root: bool): T
    requires n >= 1
    decreases n
  {
    if n == 1 then leaf(lo, root)
    else
      var l := LeftLength(n);
      parent(Subtree(leaf, parent, lo, l, false), Subtree(leaf, parent, lo + l, n - l, false), root)
  }

  lemma SubtreeParts<T>(leaf: (nat, bool) -> T, parent: (T, T, bool) -> T, lo: nat, n: nat, root: bool)
    requires n >= 1
    ensures n == 1 ==> Subtree(leaf, parent, lo, n, root) == leaf(lo, root)
    ensures n > 1 ==> var l := LeftLength(n);
      Subtree(leaf, parent, lo, n, root)
      == parent(Subtree(leaf, parent, lo, l, false), Subtree(leaf, parent, lo + l, n - l, false), root)
  {
  }

  /** The i-th aligned subtree of 2^j chunks. */
  function Perfect<T>(leaf: (nat, bool) -> T, parent: (T, T, bool) -> T, j: nat, i: nat): T {
    Subtree(leaf, parent, i * Pow2(j), Pow2(j), false)
  }

  lemma PerfectIsPair<T>(leaf: (nat, bool) -> T, parent: (T, T, bool) -> T, j: nat, i: nat)
    ensures Perfect(leaf, parent, j + 1, i)
         == parent(Perfect(leaf, parent, j, 2 * i), Perfect(leaf, parent, j, 2 * i + 1), false)
  {
    var k := Pow2(j);
    LeftLengthIs(2 * k, j);
    assert i * (2 * k) == 2 * i * k && (2 * i + 1) * k == 2 * i * k + k;
  }

  /** The stack after t subtrees of 2^j chunks: one perfect subtree for every
      set bit of t, the largest at the bottom. */
  function Stack<T>(leaf: (nat, bool) -> T, parent: (T, T, bool) -> T, j: nat, t: nat): (s: seq<T>)
    decreases t
  {
    if t == 0 then []
    else if t % 2 == 1 then Stack(leaf, parent, j + 1, t / 2) + [Perfect(leaf, parent, j, t - 1)]
    else Stack(leaf, parent, j + 1, t / 2)
  }

  function BitCount(t: nat): nat {
    if t == 0 then 0 else t % 2 + BitCount(t / 2)
  }

  /** One entry per set bit, none exactly when nothing was pushed. */
  lemma {:induction false} StackDepth<T>(leaf: (nat, bool) -> T, parent: (T, T, bool) -> T, j: nat, t: nat)
    ensures |Stack(leaf, parent, j, t)| == BitCount(t)
    ensures BitCount(t) == 0 <==> t == 0
    decreases t
  {
    if t > 0 {
      StackDepth(leaf, parent, j + 1, t / 2);
    }
  }

  /** The topmost entry is the subtree of the lowest set bit; what is below it
      is the stack without that bit. */
  lemma {:induction false} TopEntry<T>(leaf: (nat, bool) -> T, parent: (T, T, bool) -> T, j: nat, t: nat)
    returns (j': nat, t': nat)
    requires t > 0
    ensures t' % 2 == 1 && t' * Pow2(j') == t * Pow2(j) && j' >= j
    ensures var s := Stack(leaf, parent, j, t);
      && s == Stack(leaf, parent, j', t')
      && s == Stack(leaf, parent, j' + 1, t' / 2) + [Perfect(leaf, parent, j', t' - 1)]
    decreases t
  {
    if t % 2 == 1 {
      j', t' := j, t;
    } else {
      j', t' := TopEntry(leaf, parent, j + 1, t / 2);
      assert t / 2 * Pow2(j + 1) == t * Pow2(j) by { assert t / 2 * (2 * Pow2(j)) == t / 2 * 2 * Pow2(j); }
    }
  }

  /** Joining an unfinished right part of at most 2^j chunks to the aligned
      subtree of 2^j chunks on its left. */
  lemma JoinLeft<T>(leaf: (nat, bool) -> T, parent: (T, T, bool) -> T, j: nat, t: nat, n: nat, root: bool)
    requires t >= 1 && t * Pow2(j) < n <= t * Pow2(j) + Pow2(j)
    ensures (t - 1) * Pow2(j) < n
    ensures Subtree(leaf, parent, (t - 1) * Pow2(j), n - (t - 1) * Pow2(j), root)
         == parent(Perfect(leaf, parent, j, t - 1), Subtree(leaf, parent, t * Pow2(j), n - t * Pow2(j), false), root)
  {
    var k := Pow2(j);
    assert t * k == (t - 1) * k + k;
    LeftLengthIs(n - (t - 1) * k, j);
  }

  /** One carry: two neighbours of level j become one of level j + 1. */
  lemma MergeStep<T>(leaf: (nat, bool) -> T, parent: (T, T, bool) -> T, j: nat, t: nat)
    requires t >= 1 && t % 2 == 0
    ensures Stack(leaf, parent, j, t - 1)
         == Stack(leaf, parent, j + 1, t / 2 - 1) + [Perfect(leaf, parent, j, t - 2)]
    ensures Perfect(leaf, parent, j + 1, t / 2 - 1)
         == parent(Perfect(leaf, parent, j, t - 2), Perfect(leaf, parent, j, t - 1), false)
    ensures Stack(leaf, parent, j, t) == Stack(leaf, parent, j + 1, t / 2)
  {
    PerfectIsPair(leaf, parent, j, t / 2 - 1);
    assert (t - 1) / 2 == t / 2 - 1;
  }

  lemma MergeEnd<T>(leaf: (nat, bool) -> T, parent: (T, T, bool) -> T, j: nat, t: nat)
    requires t % 2 == 1
    ensures Stack(leaf, parent, j, t) == Stack(leaf, parent, j, t - 1) + [Perfect(leaf, parent, j, t - 1)]
  {
    assert (t - 1) / 2 == t / 2;
  }

  lemma {:induction false} Pow2Grows(j: nat, k: nat)
    requires j <= k
    ensures Pow2(j) <= Pow2(k)
  {
    if j < k {
      Pow2Grows(j, k - 1);
    }
  }

  /** State of the final fold: the stack for t subtrees of 2^j chunks, and the
      value of everything to the right of them. */
  ghost predicate Folding<T>(leaf: (nat, bool) -> T, parent: (T, T, bool) -> T, stack: seq<T>, cv: T,
                             n: nat, j: nat, t: nat)
  {
    && stack == Stack(leaf, parent, j, t)
    && t * Pow2(j) < n <= t * Pow2(j) + Pow2(j)
    && cv == Subtree(leaf, parent, t * Pow2(j), n - t * Pow2(j), t == 0)
  }

  lemma FoldStart<T>(leaf: (nat, bool) -> T, parent: (T, T, bool) -> T, stack: seq<T>, cv: T, n: nat)
    requires n >= 2 && stack == Stack(leaf, parent, 0, n - 1) && cv == leaf(n - 1, stack == [])
    ensures Folding(leaf, parent, stack, cv, n, 0, n - 1)
  {
    StackDepth(leaf, parent, 0, n - 1);
    assert Pow2(0) == 1;
  }

  /** Popping one entry joins it on the left; the root flag goes to the last pop. */
  lemma {:induction false} FoldStep<T>(leaf: (nat, bool) -> T, parent: (T, T, bool) -> T, stack: seq<T>, cv: T,
                                       n: nat, j: nat, t: nat)
    returns (j': nat, t': nat)
    requires Folding(leaf, parent, stack, cv, n, j, t) && stack != []
    ensures var rest := stack[..|stack| - 1];
      Folding(leaf, parent, rest, parent(stack[|stack| - 1], cv, rest == []), n, j', t')
  {
    hide Subtree, Perfect;
    var k, u := TopEntry(leaf, parent, j, t);
    Pow2Grows(j, k);
    j', t' := k + 1, u / 2;
    var rest := stack[..|stack| - 1];
    assert rest == Stack(leaf, parent, j', t');
    StackDepth(leaf, parent, j', t');
    JoinLeft(leaf, parent, k, u, n, t' == 0);
    assert u == 2 * t' + 1;
    JoinedRange(t', Pow2(k));
  }

  lemma JoinedRange(t: nat, k: nat)
    ensures (2 * t + 1) * k == t * (2 * k) + k && 2 * t * k == t * (2 * k)
  {
  }

  lemma FoldEnd<T>(leaf: (nat, bool) -> T, parent: (T, T, bool) -> T, stack: seq<T>, cv: T, n: nat, j: nat, t: nat)
    requires Folding(leaf, parent, stack, cv, n, j, t) && stack == []
    ensures n >= 1 && cv == Subtree(leaf, parent, 0, n, true)
  {
    StackDepth(leaf, parent, j, t);
    assert 0 * Pow2(j) == 0;
  }

  /** Why the last chunk is kept out of the merging: after a power of two of
      chunks the stack has already collapsed to one subtree, hashed as a
      non-root, and no later compression is left to carry the root flag. */
  lemma {:induction false} PowerOfTwoCollapses<T>(leaf: (nat, bool) -> T, parent: (T, T, bool) -> T, j: nat, k: nat)
    ensures Stack(leaf, parent, j, Pow2(k)) == [Perfect(leaf, parent, j + k, 0)]
    decreases k
  {
    if k > 0 {
      PowerOfTwoCollapses(leaf, parent, j + 1, k - 1);
    }
  }
}
