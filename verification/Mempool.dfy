/** Which transactions a node still knows: pending ones and those on the
    canonical chain. A step of fork choice loses none of them. */
module Mempool {
  import opened Primitives
  import opened Protocol
  import opened BlockTree
  import opened ForkChoice
  import opened Runs

  function HashSet(p: Params, txs: seq<Transaction>): set<Hash256> {
    set i | 0 <= i < |txs| :: p.txHash(txs[i])
  }

  /** Hashes of the transactions on the canonical chain. */
  ghost function OnChain(p: Params, v: ChainView): set<Hash256>
    requires Shape(p, v)
  {
    TxHashSet(p, Entries(v.blocks, Path(v.blocks, p.genesis.hash, v.tip)))
  }

  lemma {:induction false} DisplacedHashes(p: Params, txs: seq<Transaction>, applied: set<Hash256>)
    ensures HashSet(p, Displaced(p, txs, applied)) == HashSet(p, txs) - applied
  {
    if txs != [] {
      var init, last := txs[..|txs| - 1], txs[|txs| - 1];
      DisplacedHashes(p, init, applied);
      assert txs == init + [last];
      HashSetConcat(p, init, [last]);
      HashSetConcat(p, Displaced(p, init, applied), [last]);
      assert HashSet(p, [last]) == {p.txHash(last)};
      assert Displaced(p, init, applied) + [] == Displaced(p, init, applied);
    }
  }

  lemma HashSetConcat(p: Params, a: seq<Transaction>, b: seq<Transaction>)
    ensures HashSet(p, a + b) == HashSet(p, a) + HashSet(p, b)
  {
    forall h | h in HashSet(p, a) + HashSet(p, b) ensures h in HashSet(p, a + b) {
      if h in HashSet(p, a) {
        var i :| 0 <= i < |a| && p.txHash(a[i]) == h;
        assert (a + b)[i] == a[i];
      } else {
        var i :| 0 <= i < |b| && p.txHash(b[i]) == h;
        assert (a + b)[|a| + i] == b[i];
      }
    }
  }

  lemma TxHashSetSnoc(p: Params, es: seq<Entry>, e: Entry)
    ensures TxHashSet(p, es + [e]) == TxHashSet(p, es) + HashSet(p, e.block.transactions)
  {
    var fs := es + [e];
    forall h | h in TxHashSet(p, es) + HashSet(p, e.block.transactions) ensures h in TxHashSet(p, fs) {
      if h in TxHashSet(p, es) {
        var i, j :| 0 <= i < |es| && 0 <= j < |es[i].block.transactions| && p.txHash(es[i].block.transactions[j]) == h;
        assert fs[i] == es[i];
      } else {
        var j :| 0 <= j < |e.block.transactions| && p.txHash(e.block.transactions[j]) == h;
        assert fs[|es|] == e;
      }
    }
  }

  lemma {:induction false} TxHashSetConcat(p: Params, es: seq<Entry>, fs: seq<Entry>)
    ensures TxHashSet(p, es + fs) == TxHashSet(p, es) + TxHashSet(p, fs)
  {
    if fs == [] {
      assert es + fs == es;
    } else {
      var init, last := fs[..|fs| - 1], fs[|fs| - 1];
      TxHashSetConcat(p, es, init);
      TxHashSetSnoc(p, es + init, last);
      TxHashSetSnoc(p, init, last);
      assert es + fs == es + init + [last] && fs == init + [last];
    }
  }

  lemma {:induction false} TxHashSetReverse(p: Params, es: seq<Entry>)
    ensures TxHashSet(p, Reverse(es)) == TxHashSet(p, es)
  {
    if es != [] {
      TxHashSetReverse(p, es[1..]);
      TxHashSetSnoc(p, Reverse(es[1..]), es[0]);
      TxHashSetConcat(p, [es[0]], es[1..]);
      TxHashSetSnoc(p, [], es[0]);
      assert [] + [es[0]] == [es[0]] && [es[0]] + es[1..] == es;
    }
  }

  /** What is handed back is exactly what the losing branch had and the winning one lacks. */
  lemma {:induction false} RequeueHashes(p: Params, undo: seq<Entry>, applied: set<Hash256>)
    ensures HashSet(p, Requeue(p, undo, applied)) == TxHashSet(p, undo) - applied
  {
    if undo != [] {
      var init, last := undo[..|undo| - 1], undo[|undo| - 1];
      RequeueHashes(p, init, applied);
      DisplacedHashes(p, last.block.transactions, applied);
      HashSetConcat(p, Requeue(p, init, applied), Displaced(p, last.block.transactions, applied));
      TxHashSetSnoc(p, init, last);
      assert undo == init + [last];
    }
  }

  /** The transactions of the losing branch, block after block in the order of undoing. */
  function BranchTransactions(undo: seq<Entry>): seq<Transaction> {
    if undo == [] then [] else BranchTransactions(undo[..|undo| - 1]) + undo[|undo| - 1].block.transactions
  }

  /** The transactions whose hash is not among the applied ones, in place. */
  ghost predicate Filtered(p: Params, all: seq<Transaction>, applied: set<Hash256>, kept: seq<Transaction>,
                           places: seq<nat>)
  {
    && |places| == |kept|
    && (forall i :: 0 <= i < |kept| ==> places[i] < |all| && kept[i] == all[places[i]])
    && (forall i, j :: 0 <= i < j < |places| ==> places[i] < places[j])
    && (forall k :: 0 <= k < |all| ==> (k in places <==> p.txHash(all[k]) !in applied))
  }

  lemma FilteredDrop(p: Params, all: seq<Transaction>, applied: set<Hash256>, kept: seq<Transaction>,
                     places: seq<nat>, tx: Transaction)
    requires Filtered(p, all, applied, kept, places) && p.txHash(tx) in applied
    ensures Filtered(p, all + [tx], applied, kept, places)
  {
    var whole := all + [tx];
    forall k | 0 <= k < |whole| ensures k in places <==> p.txHash(whole[k]) !in applied {
      assert k < |all| ==> whole[k] == all[k];
      if k in places {
        var i :| 0 <= i < |places| && places[i] == k;
        assert places[i] < |all|;
      }
    }
  }

  lemma FilteredKeep(p: Params, all: seq<Transaction>, applied: set<Hash256>, kept: seq<Transaction>,
                     places: seq<nat>, tx: Transaction)
    requires Filtered(p, all, applied, kept, places) && p.txHash(tx) !in applied
    ensures Filtered(p, all + [tx], applied, kept + [tx], places + [|all|])
  {
    var whole, more := all + [tx], places + [|all|];
    assert more[|places|] == |all|;
    forall k | 0 <= k < |whole| ensures k in more <==> p.txHash(whole[k]) !in applied {
      assert k < |all| ==> whole[k] == all[k];
      assert k in more <==> k in places || k == |all|;
    }
    assert forall i :: 0 <= i < |places| ==> more[i] == places[i] < |all| && (kept + [tx])[i] == kept[i];
  }

  lemma {:induction false} FilteredSnoc(p: Params, all: seq<Transaction>, applied: set<Hash256>, kept: seq<Transaction>,
                                        places: seq<nat>, tx: Transaction)
    returns (more: seq<nat>)
    requires Filtered(p, all, applied, kept, places)
    ensures Filtered(p, all + [tx], applied, if p.txHash(tx) in applied then kept else kept + [tx], more)
  {
    hide Filtered;
    if p.txHash(tx) in applied {
      FilteredDrop(p, all, applied, kept, places, tx);
      more := places;
    } else {
      FilteredKeep(p, all, applied, kept, places, tx);
      more := places + [|all|];
    }
  }

  lemma {:induction false} FilteredBlock(p: Params, all: seq<Transaction>, applied: set<Hash256>,
                                         kept: seq<Transaction>, places: seq<nat>, txs: seq<Transaction>)
    returns (more: seq<nat>)
    requires Filtered(p, all, applied, kept, places)
    ensures Filtered(p, all + txs, applied, kept + Displaced(p, txs, applied), more)
    decreases |txs|
  {
    hide Filtered;
    if txs == [] {
      more := places;
      assert all + txs == all && kept + [] == kept;
    } else {
      var init, last := txs[..|txs| - 1], txs[|txs| - 1];
      var some := FilteredBlock(p, all, applied, kept, places, init);
      more := FilteredSnoc(p, all + init, applied, kept + Displaced(p, init, applied), some, last);
      assert all + init + [last] == all + txs;
      assert Displaced(p, init, applied) + [] == Displaced(p, init, applied);
      assert kept + Displaced(p, init, applied) + [last] == kept + (Displaced(p, init, applied) + [last]);
    }
  }

  /** What is handed back is the losing branch, tip block first, each block's
      transactions in their order, without those the winning branch has: every
      occurrence of every other one, and nothing else. */
  lemma {:induction false} RequeueInOrder(p: Params, undo: seq<Entry>, applied: set<Hash256>) returns (places: seq<nat>)
    ensures Filtered(p, BranchTransactions(undo), applied, Requeue(p, undo, applied), places)
  {
    if undo == [] {
      places := [];
    } else {
      hide Filtered;
      var init, last := undo[..|undo| - 1], undo[|undo| - 1];
      var some := RequeueInOrder(p, init, applied);
      places := FilteredBlock(p, BranchTransactions(init), applied, Requeue(p, init, applied), some,
                              last.block.transactions);
    }
  }

  /** Across any fork: the old chain's transactions are on the new chain or requeued. */
  lemma {:induction false} ForkKeepsTransactions(p: Params, s: Store, oldTip: Hash256, newTip: Hash256)
    requires WellFormed(s, p.genesis.hash) && oldTip in s && newTip in s
    ensures var root := p.genesis.hash;
      var undo, apply := UndoList(s, root, oldTip, newTip), ApplyList(s, root, oldTip, newTip);
      TxHashSet(p, Entries(s, Path(s, root, oldTip)))
        <= TxHashSet(p, Entries(s, Path(s, root, newTip))) + HashSet(p, Requeue(p, undo, TxHashSet(p, apply)))
  {
    var root := p.genesis.hash;
    var po, pn := Path(s, root, oldTip), Path(s, root, newTip);
    var k := ForkPoint(s, root, oldTip, newTip);
    CommonPrefixAgrees(po, pn);
    hide WellFormed, Path, ForkPoint, TxHashSet, HashSet, Requeue;
    var undo, apply := UndoList(s, root, oldTip, newTip), ApplyList(s, root, oldTip, newTip);
    RequeueHashes(p, undo, TxHashSet(p, apply));
    TxHashSetReverse(p, Entries(s, po[k..]));
    SplitPath(p, s, po, k);
    SplitPath(p, s, pn, k);
  }

  lemma SplitPath(p: Params, s: Store, path: seq<Hash256>, k: nat)
    requires k <= |path| && forall h :: h in path ==> h in s
    ensures TxHashSet(p, Entries(s, path))
         == TxHashSet(p, Entries(s, path[..k])) + TxHashSet(p, Entries(s, path[k..]))
  {
    assert Entries(s, path) == Entries(s, path[..k]) + Entries(s, path[k..]);
    TxHashSetConcat(p, Entries(s, path[..k]), Entries(s, path[k..]));
  }

  lemma TipOnChain(p: Params, v: ChainView)
    requires Shape(p, v)
    ensures HashSet(p, v.blocks[v.tip].transactions) <= OnChain(p, v)
  {
    LastEntryHashes(p, v.blocks, Path(v.blocks, p.genesis.hash, v.tip));
    hide *;
  }

  lemma LastEntryHashes(p: Params, s: Store, path: seq<Hash256>)
    requires path != [] && forall h :: h in path ==> h in s
    ensures HashSet(p, s[path[|path| - 1]].transactions) <= TxHashSet(p, Entries(s, path))
  {
    var es := Entries(s, path);
    assert es[..|es| - 1] + [es[|es| - 1]] == es;
    TxHashSetSnoc(p, es[..|es| - 1], es[|es| - 1]);
  }

  /** What a caller of SubmitBlock sees of the step. */
  ghost predicate Outcome(p: Params, m: Machine, b: Block, step: MachineStep)
    requires Shape(p, m.view)
  {
    var v, w, root := m.view, step.machine.view, p.genesis.hash;
    && Shape(p, w) && v.tip in w.blocks
    && (w.blocks == v.blocks || exists n :: n !in v.blocks && w.blocks == v.blocks[n := b])
    && match step.answer
       case Ok(Accepted(hash, height, reorged, requeue)) =>
         && w.tip == hash && hash in w.blocks && w.blocks[hash] == b
         && requeue == Requeue(p, UndoList(w.blocks, root, v.tip, hash),
                               TxHashSet(p, ApplyList(w.blocks, root, v.tip, hash)))
       case Ok(Orphan(parent)) => w.tip == v.tip && parent == b.header.prevHash && parent !in w.blocks
       case _ => w.tip == v.tip
  }

  lemma NoParentMeansMissing(p: Params, s: Store, b: Block, seed: Hash256)
    requires WellFormed(s, p.genesis.hash)
    ensures Judge(p, s, b, seed).NoParent? ==>
      Judge(p, s, b, seed).parent == b.header.prevHash && b.header.prevHash !in s
    ensures Judge(p, s, b, seed).Sound? ==>
      Judge(p, s, b, seed).hash !in s && b.header.prevHash in s
  {
  }

  lemma {:induction false} StepOutcome(p: Params, m: Machine, b: Block)
    requires Shape(p, m.view)
    ensures Outcome(p, m, b, SubmitInPlace(p, m, b))
  {
    hide WellFormed, DifficultiesFollow, Work, ReorgLedger, Requeue, UndoList, ApplyList, SeedFor, TxHashSet, Judge;
    AdmitCases(p, m.view, b);
    if b.header.height > 0 && SeedFor(p, m.view, b.header.height).Ok? {
      NoParentMeansMissing(p, m.view.blocks, b, SeedFor(p, m.view, b.header.height).value);
    }
  }

  /** No transaction is lost by a step: a block that is accepted brings its own
      onto the chain, and whatever the old chain had stays or is handed back. */
  lemma {:induction false} NothingLost(p: Params, m: Machine, b: Block)
    requires Shape(p, m.view)
    ensures var step := SubmitInPlace(p, m, b);
      && Shape(p, step.machine.view)
      && if step.answer.Ok? && step.answer.value.Accepted? then
           && OnChain(p, m.view) <= OnChain(p, step.machine.view) + HashSet(p, step.answer.value.requeue)
           && HashSet(p, b.transactions) <= OnChain(p, step.machine.view)
         else OnChain(p, step.machine.view) == OnChain(p, m.view)
  {
    hide SubmitInPlace, WellFormed, DifficultiesFollow, Requeue, UndoList, ApplyList, TxHashSet, Path;
    var step := SubmitInPlace(p, m, b);
    StepOutcome(p, m, b);
    var w := step.machine.view;
    KeptEntries(p, m.view, w.(tip := m.view.tip), b);
    if step.answer.Ok? && step.answer.value.Accepted? {
      ForkKeepsTransactions(p, w.blocks, m.view.tip, w.tip);
      TipOnChain(p, w);
    }
  }

  lemma {:induction false} KeptEntries(p: Params, v: ChainView, w: ChainView, b: Block)
    requires Shape(p, v) && Shape(p, w) && v.tip == w.tip
    requires w.blocks == v.blocks || exists n :: n !in v.blocks && w.blocks == v.blocks[n := b]
    ensures OnChain(p, w) == OnChain(p, v)
  {
    KeptBlock(p, v, w, b, v.tip);
    assert Entries(w.blocks, Path(w.blocks, p.genesis.hash, w.tip))
        == Entries(v.blocks, Path(v.blocks, p.genesis.hash, v.tip));
  }
}
