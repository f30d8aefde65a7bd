/** The in-memory rehearsal of a reorganisation: an overlay of touched accounts
    over the stored ones, first unwound and then advanced. */
module Simulation {
  import opened Primitives
  import opened Protocol
  import opened Ledger
  import opened ForkChoice

  type Accounts = map<Address, Account>

  /** The ledger the overlay stands for. */
  function Current(stored: Accounts, overlay: Accounts): Ledger {
    Canonical(stored + overlay)
  }

  function Read(stored: Accounts, overlay: Accounts, a: Address): (acc: Account)
    ensures acc == Lookup(Current(stored, overlay), a)
  {
    CanonicalLookup(stored + overlay, a);
    if a in overlay then overlay[a] else Lookup(stored, a)
  }

  lemma Written(stored: Accounts, overlay: Accounts, a: Address, acc: Account)
    ensures Current(stored, overlay[a := acc]) == Put(Current(stored, overlay), a, acc)
  {
    assert stored + overlay[a := acc] == (stored + overlay)[a := acc];
    CanonicalPut(stored + overlay, a, acc);
  }

  /** Undoes a block's transactions, last first. */
  method UndoTransactions(p: Params, stored: Accounts, start: Accounts, txs: seq<Transaction>)
    returns (overlay: Accounts)
    ensures Current(stored, overlay) == UndoTxs(p, Current(stored, start), txs)
  {
    hide Current, Put, Lookup, Canonical;
    overlay := start;
    var i := |txs|;
    assert txs[..i] == txs;
    while i > 0
      invariant 0 <= i <= |txs|
      invariant UndoTxs(p, Current(stored, overlay), txs[..i]) == UndoTxs(p, Current(stored, start), txs)
    {
      i := i - 1;
      var tx := txs[i];
      assert txs[..i + 1][..i] == txs[..i];
      var to := Read(stored, overlay, tx.to);
      to := to.(balance := SaturatingSub(to.balance, tx.amount));
      Written(stored, overlay, tx.to, to);
      overlay := overlay[tx.to := to];

      var sender := p.addressOf(tx.from);
      var acc := Read(stored, overlay, sender);
      acc := Account(SaturatingAdd(acc.balance, WrapAdd(tx.amount, tx.fee)),
                     if acc.nonce == 0 then 0 else acc.nonce - 1);
      Written(stored, overlay, sender, acc);
      overlay := overlay[sender := acc];
    }
    assert txs[..i] == [];
  }

  /** Unwinds the losing branch, tip first. */
  method UndoBranch(p: Params, stored: Accounts, undo: seq<Entry>) returns (overlay: Accounts)
    ensures Current(stored, overlay) == UndoBlocks(p, Canonical(stored), undo)
  {
    overlay := map[];
    assert stored + overlay == stored;
    hide Current, Put, UndoTxs;
    var i := 0;
    while i < |undo|
      invariant i <= |undo|
      invariant UndoBlocks(p, Current(stored, overlay), undo[i..]) == UndoBlocks(p, Canonical(stored), undo)
    {
      assert undo[i..][1..] == undo[i + 1..];
      var block := undo[i].block;
      var miner := Read(stored, overlay, block.header.miner);
      miner := miner.(balance := SaturatingSub(miner.balance, p.BlockReward(block.header.height)));
      Written(stored, overlay, block.header.miner, miner);
      overlay := overlay[block.header.miner := miner];
      overlay := UndoTransactions(p, stored, overlay, block.transactions);
      i := i + 1;
    }
  }

  /** Checks one transaction against the overlay and applies it. */
  method ApplyTransaction(p: Params, stored: Accounts, start: Accounts, tx: Transaction)
    returns (r: Result<Accounts, TxFault>)
    ensures match ApplyTx(p, Current(stored, start), tx)
      case Err(fault) => r == Err(fault)
      case Ok(l) => r.Ok? && Current(stored, r.value) == l
  {
    hide Current, Put, Lookup, Canonical;
    var overlay := start;
    var sender := p.addressOf(tx.from);
    var acc := Read(stored, overlay, sender);
    if tx.accountNonce != acc.nonce {
      return Err(BadNonce);
    }
    if acc.balance < SaturatingAdd(tx.amount, tx.fee) {
      return Err(TooPoor);
    }
    acc := Account(acc.balance - WrapAdd(tx.amount, tx.fee), acc.nonce + 1);
    Written(stored, overlay, sender, acc);
    overlay := overlay[sender := acc];

    var to := Read(stored, overlay, tx.to);
    to := to.(balance := SaturatingAdd(to.balance, tx.amount));
    Written(stored, overlay, tx.to, to);
    overlay := overlay[tx.to := to];
    return Ok(overlay);
  }

  /** Applies a block's transactions, stopping at the first that does not check out. */
  method ApplyTransactions(p: Params, stored: Accounts, start: Accounts, e: Entry)
    returns (r: Result<Accounts, ChainError>)
    ensures match ApplyTxs(p, Current(stored, start), e.block.transactions)
      case Err(fault) => r == Err(FaultOf(e, fault))
      case Ok(l) => r.Ok? && Current(stored, r.value) == l
  {
    hide Current, ApplyTx;
    var overlay, txs := start, e.block.transactions;
    for i := 0 to |txs|
      invariant ApplyTxs(p, Current(stored, start), txs[..i]) == Ok(Current(stored, overlay))
    {
      assert txs[..i + 1][..i] == txs[..i];
      var applied := ApplyTransaction(p, stored, overlay, txs[i]);
      if applied.Err? {
        FirstFault(p, Current(stored, start), txs, i);
        return Err(FaultOf(e, applied.error));
      }
      overlay := applied.value;
    }
    assert txs[..|txs|] == txs;
    return Ok(overlay);
  }

  lemma {:induction false} FirstFault(p: Params, l: Ledger, txs: seq<Transaction>, i: nat)
    requires i < |txs| && ApplyTxs(p, l, txs[..i + 1]).Err?
    ensures ApplyTxs(p, l, txs) == ApplyTxs(p, l, txs[..i + 1])
    decreases |txs|
  {
    if i + 1 == |txs| {
      assert txs[..i + 1] == txs;
    } else {
      var init := txs[..|txs| - 1];
      assert init[..i + 1] == txs[..i + 1];
      FirstFault(p, l, init, i);
    }
  }

  lemma {:induction false} FirstBadBlock(p: Params, l: Ledger, es: seq<Entry>, i: nat)
    requires i < |es| && ApplyBlocks(p, l, es[..i + 1]).Err?
    ensures ApplyBlocks(p, l, es) == ApplyBlocks(p, l, es[..i + 1])
    decreases |es|
  {
    if i + 1 == |es| {
      assert es[..i + 1] == es;
    } else {
      var init := es[..|es| - 1];
      assert init[..i + 1] == es[..i + 1];
      FirstBadBlock(p, l, init, i);
    }
  }

  /** Advances along the winning branch, oldest first. */
  method ApplyBranch(p: Params, stored: Accounts, start: Accounts, apply: seq<Entry>)
    returns (r: Result<Accounts, ChainError>)
    ensures match ApplyBlocks(p, Current(stored, start), apply)
      case Err(e) => r == Err(e)
      case Ok(l) => r.Ok? && Current(stored, r.value) == l
  {
    hide Current, Put, ApplyTxs;
    var overlay := start;
    for i := 0 to |apply|
      invariant ApplyBlocks(p, Current(stored, start), apply[..i]) == Ok(Current(stored, overlay))
    {
      assert apply[..i + 1][..i] == apply[..i];
      var block := apply[i].block;
      var applied := ApplyTransactions(p, stored, overlay, apply[i]);
      if applied.Err? {
        FirstBadBlock(p, Current(stored, start), apply, i);
        return Err(applied.error);
      }
      overlay := applied.value;
      var miner := Read(stored, overlay, block.header.miner);
      miner := miner.(balance := SaturatingAdd(miner.balance, p.BlockReward(block.header.height)));
      Written(stored, overlay, block.header.miner, miner);
      overlay := overlay[block.header.miner := miner];
    }
    assert apply[..|apply|] == apply;
    return Ok(overlay);
  }

  /** Collects the transactions that fell off the chain. */
  method DisplacedTransactions(p: Params, undo: seq<Entry>, apply: seq<Entry>) returns (requeue: seq<Transaction>)
    ensures requeue == Requeue(p, undo, TxHashSet(p, apply))
  {
    var applied := TxHashSet(p, apply);
    hide TxHashSet;
    requeue := [];
    for i := 0 to |undo|
      invariant requeue == Requeue(p, undo[..i], applied)
    {
      assert undo[..i + 1][..i] == undo[..i];
      var txs := undo[i].block.transactions;
      ghost var before := requeue;
      for j := 0 to |txs|
        invariant requeue == before + Displaced(p, txs[..j], applied)
      {
        assert txs[..j + 1][..j] == txs[..j];
        if p.txHash(txs[j]) !in applied {
          requeue := requeue + [txs[j]];
        }
      }
      assert txs[..|txs|] == txs;
    }
    assert undo[..|undo|] == undo;
  }
}
