/** Finding where two branches part: the walk from both tips back to their
    deepest common ancestor. */
module ForkWalk {
  import opened Primitives
  import opened Protocol
  import opened BlockTree

  /** A walk down `path` has collected the blocks above height i, tip first,
      and stands on the block at height i. */
  ghost predicate Walked(s: Store, path: seq<Hash256>, taken: seq<Entry>, hash: Hash256, b: Block, i: int) {
    && Linked(s, path)
    && 0 <= i < |path| && hash == path[i] && b == s[hash] && b.header.height == i
    && taken == Reverse(Entries(s, path[i + 1..]))
  }

  lemma WalkStart(s: Store, root: Hash256, tip: Hash256)
    requires WellFormed(s, root) && tip in s
    ensures Walked(s, Path(s, root, tip), [], tip, s[tip], |Path(s, root, tip)| - 1)
  {
    PathLinked(s, root, tip);
  }

  lemma WalkStep(s: Store, path: seq<Hash256>, taken: seq<Entry>, hash: Hash256, b: Block, i: int)
    requires Walked(s, path, taken, hash, b, i) && i > 0
    ensures var parent := b.header.prevHash;
      parent in s && Walked(s, path, taken + [Entry(hash, b)], parent, s[parent], i - 1)
  {
    assert path[i - 1] in path && s[path[i]].header.prevHash == path[i - 1];
    var rest := Entries(s, path[i..]);
    assert rest[1..] == Entries(s, path[i + 1..]);
    assert Reverse(rest) == Reverse(rest[1..]) + [rest[0]];
  }

  /** Two walks stand at the same height i, and everything above it is off the
      common part of the two paths. */
  ghost predicate BothWalked(s: Store, root: Hash256, oldTip: Hash256, newTip: Hash256,
                             undo: seq<Entry>, old': Entry, apply: seq<Entry>, new': Entry, i: nat)
    requires WellFormed(s, root) && oldTip in s && newTip in s
  {
    var po, pn := Path(s, root, oldTip), Path(s, root, newTip);
    && Walked(s, po, undo, old'.hash, old'.block, i)
    && Walked(s, pn, apply, new'.hash, new'.block, i)
    && (i + 1 == |po| || i + 1 == |pn| || po[i + 1] != pn[i + 1])
  }

  lemma BothLevel(s: Store, root: Hash256, oldTip: Hash256, newTip: Hash256,
                  undo: seq<Entry>, old': Entry, apply: seq<Entry>, new': Entry)
    requires WellFormed(s, root) && oldTip in s && newTip in s
    requires Walked(s, Path(s, root, oldTip), undo, old'.hash, old'.block,
                    Min(|Path(s, root, oldTip)| - 1, s[newTip].header.height))
    requires Walked(s, Path(s, root, newTip), apply, new'.hash, new'.block,
                    Min(|Path(s, root, newTip)| - 1, old'.block.header.height))
    ensures BothWalked(s, root, oldTip, newTip, undo, old', apply, new', old'.block.header.height)
  {
  }

  lemma {:induction false} BothStep(s: Store, root: Hash256, oldTip: Hash256, newTip: Hash256,
                 undo: seq<Entry>, old': Entry, apply: seq<Entry>, new': Entry, i: nat)
    requires WellFormed(s, root) && oldTip in s && newTip in s
    requires BothWalked(s, root, oldTip, newTip, undo, old', apply, new', i)
    requires old'.hash != new'.hash
    ensures var oldParent, newParent := old'.block.header.prevHash, new'.block.header.prevHash;
      && i > 0 && oldParent in s && newParent in s
      && BothWalked(s, root, oldTip, newTip, undo + [old'], Entry(oldParent, s[oldParent]),
                    apply + [new'], Entry(newParent, s[newParent]), i - 1)
  {
    hide Path, WellFormed, Linked;
    WalkStep(s, Path(s, root, oldTip), undo, old'.hash, old'.block, i);
    WalkStep(s, Path(s, root, newTip), apply, new'.hash, new'.block, i);
  }

  lemma WalksMeet(s: Store, root: Hash256, oldTip: Hash256, newTip: Hash256,
                  undo: seq<Entry>, old': Entry, apply: seq<Entry>, new': Entry, i: nat)
    requires WellFormed(s, root) && oldTip in s && newTip in s
    requires BothWalked(s, root, oldTip, newTip, undo, old', apply, new', i)
    requires old'.hash == new'.hash
    ensures undo == UndoList(s, root, oldTip, newTip) && Reverse(apply) == ApplyList(s, root, oldTip, newTip)
  {
    var po, pn := Path(s, root, oldTip), Path(s, root, newTip);
    PathPrefix(s, root, oldTip, i);
    PathPrefix(s, root, newTip, i);
    CommonPrefixIs(po, pn, i + 1);
    ReverseTwice(Entries(s, pn[i + 1..]));
  }

  /** Collects blocks, tip first, down to the given height. */
  method WalkDown(s: Store, tip: Hash256, height: nat, ghost path: seq<Hash256>)
    returns (r: Result<(seq<Entry>, Entry), ChainError>)
    requires tip in s && path != []
    requires Walked(s, path, [], tip, s[tip], |path| - 1)
    ensures r.Ok? && Walked(s, path, r.value.0, r.value.1.hash, r.value.1.block, Min(|path| - 1, height))
  {
    hide Linked, Reverse, Entries;
    var taken, hash, block := [], tip, s[tip];
    ghost var i := |path| - 1;
    while block.header.height > height
      invariant Walked(s, path, taken, hash, block, i)
      invariant i == |path| - 1 || i >= height
      decreases i
    {
      WalkStep(s, path, taken, hash, block, i);
      taken := taken + [Entry(hash, block)];
      hash := block.header.prevHash;
      if hash !in s {
        return Err(MissingBlock(hash));
      }
      block := s[hash];
      i := i - 1;
    }
    return Ok((taken, Entry(hash, block)));
  }

  /** The losing branch, tip first, and the winning one, oldest first. On a
      well-formed tree no ancestor is ever missing. */
  method ForkPaths(s: Store, ghost root: Hash256, oldTip: Hash256, newTip: Hash256)
    returns (r: Result<(seq<Entry>, seq<Entry>), ChainError>)
    requires WellFormed(s, root)
    ensures oldTip in s && newTip in s ==>
      r == Ok((UndoList(s, root, oldTip, newTip), ApplyList(s, root, oldTip, newTip)))
    ensures oldTip !in s || newTip !in s ==> r.Err?
  {
    hide *;
    if oldTip !in s {
      return Err(MissingBlock(oldTip));
    }
    if newTip !in s {
      return Err(MissingBlock(newTip));
    }
    WalkStart(s, root, oldTip);
    WalkStart(s, root, newTip);
    var oldWalk := WalkDown(s, oldTip, s[newTip].header.height, Path(s, root, oldTip));
    var undo, old' := oldWalk.value.0, oldWalk.value.1;
    var newWalk := WalkDown(s, newTip, old'.block.header.height, Path(s, root, newTip));
    var apply, new' := newWalk.value.0, newWalk.value.1;
    ghost var i := old'.block.header.height;
    BothLevel(s, root, oldTip, newTip, undo, old', apply, new');
    while old'.hash != new'.hash
      invariant BothWalked(s, root, oldTip, newTip, undo, old', apply, new', i)
      decreases i
    {
      BothStep(s, root, oldTip, newTip, undo, old', apply, new', i);
      undo := undo + [old'];
      var oldParent := old'.block.header.prevHash;
      if oldParent !in s {
        return Err(MissingBlock(oldParent));
      }
      old' := Entry(oldParent, s[oldParent]);

      apply := apply + [new'];
      var newParent := new'.block.header.prevHash;
      if newParent !in s {
        return Err(MissingBlock(newParent));
      }
      new' := Entry(newParent, s[newParent]);
      i := i - 1;
    }
    WalksMeet(s, root, oldTip, newTip, undo, old', apply, new', i);
    return Ok((undo, Reverse(apply)));
  }
}
