/** What a chain that replays says about its transactions: who paid whom, and
    that none of them was carried out twice. */
module Replayed {
  import opened Primitives
  import opened Protocol
  import opened Ledger
  import opened BlockTree
  import opened ForkChoice
  import opened Runs
  import opened Epochs
  import Difficulty
  import Merkle

  lemma ChargeEffect(l: Ledger, sender: Address, tx: Transaction, a: Address)
    requires Total(l) < U64_MAX && ChargeSender(l, sender, tx).Ok?
    ensures var charged := ChargeSender(l, sender, tx).value;
      && Lookup(charged, a).balance == Lookup(l, a).balance - (if a == sender then tx.amount + tx.fee else 0)
      && Total(charged) + tx.amount <= Total(l)
  {
    hide Put, Lookup, Total;
    var acc := Lookup(l, sender);
    TotalPut(l, sender, Account(acc.balance - WrapAdd(tx.amount, tx.fee), acc.nonce + 1));
    PutLookup(l, sender, Account(acc.balance - WrapAdd(tx.amount, tx.fee), acc.nonce + 1), a);
  }

  lemma CreditEffect(l: Ledger, to: Address, amount: U64, a: Address)
    requires Total(l) + amount <= U64_MAX
    ensures Lookup(Credit(l, to, amount), a).balance == Lookup(l, a).balance + if a == to then amount else 0
  {
    hide Put, Lookup, Total;
    var acc := Lookup(l, to);
    TotalPut(l, to, acc);
    PutLookup(l, to, acc.(balance := SaturatingAdd(acc.balance, amount)), a);
  }

  /** A payment takes amount and fee from the sender and gives the amount to the
      recipient, who may be the sender; nobody else is touched. */
  lemma {:induction false} PaymentEffect(p: Params, l: Ledger, tx: Transaction, a: Address)
    requires Total(l) < U64_MAX
    requires ApplyTx(p, l, tx).Ok?
    ensures var sender := p.addressOf(tx.from);
      var before, after := Lookup(l, a), Lookup(ApplyTx(p, l, tx).value, a);
      && after.balance == before.balance
           - (if a == sender then tx.amount + tx.fee else 0) + (if a == tx.to then tx.amount else 0)
      && after.nonce == before.nonce + (if a == sender then 1 else 0)
      && tx.accountNonce == Lookup(l, sender).nonce
  {
    hide ChargeSender, Credit, Lookup, Total;
    TxNonce(p, l, tx, a);
    ChargeEffect(l, p.addressOf(tx.from), tx, a);
    CreditEffect(ChargeSender(l, p.addressOf(tx.from), tx).value, tx.to, tx.amount, a);
  }

  // ----- nonces -----

  /** How many of the transactions are sent by a. */
  function SentBy(p: Params, txs: seq<Transaction>, a: Address): nat {
    if txs == [] then 0
    else SentBy(p, txs[..|txs| - 1], a) + if p.addressOf(txs[|txs| - 1].from) == a then 1 else 0
  }

  /** Each transaction carries the number of earlier ones by its sender. */
  ghost predicate Sequential(p: Params, txs: seq<Transaction>) {
    forall i :: 0 <= i < |txs| ==> txs[i].accountNonce == SentBy(p, txs[..i], p.addressOf(txs[i].from))
  }

  ghost predicate NoncesCount(p: Params, l: Ledger, txs: seq<Transaction>) {
    forall a :: Lookup(l, a).nonce == SentBy(p, txs, a)
  }

  lemma TxNonce(p: Params, l: Ledger, tx: Transaction, a: Address)
    requires ApplyTx(p, l, tx).Ok?
    ensures tx.accountNonce == Lookup(l, p.addressOf(tx.from)).nonce
    ensures Lookup(ApplyTx(p, l, tx).value, a).nonce
         == Lookup(l, a).nonce + if a == p.addressOf(tx.from) then 1 else 0
  {
    hide Put, Lookup;
    var sender := p.addressOf(tx.from);
    var acc := Lookup(l, sender);
    var paid := Account(acc.balance - WrapAdd(tx.amount, tx.fee), acc.nonce + 1);
    var charged := Put(l, sender, paid);
    PutLookup(l, sender, paid, tx.to);
    PutLookup(l, sender, paid, a);
    var to := Lookup(charged, tx.to);
    PutLookup(charged, tx.to, to.(balance := SaturatingAdd(to.balance, tx.amount)), a);
  }

  lemma {:induction false} NoncesGrow(p: Params, l: Ledger, txs: seq<Transaction>, a: Address)
    requires ApplyTxs(p, l, txs).Ok?
    ensures Lookup(ApplyTxs(p, l, txs).value, a).nonce >= Lookup(l, a).nonce
  {
    hide ApplyTx, Lookup;
    if txs != [] {
      NoncesGrow(p, l, txs[..|txs| - 1], a);
      TxNonce(p, ApplyTxs(p, l, txs[..|txs| - 1]).value, txs[|txs| - 1], a);
    }
  }

  /** The sender has already used up this nonce. */
  predicate Stale(p: Params, l: Ledger, tx: Transaction) {
    tx.accountNonce < Lookup(l, p.addressOf(tx.from)).nonce
  }

  /** One stale transaction makes every list that contains it fail, whatever the order. */
  lemma {:induction false} StaleFails(p: Params, l: Ledger, txs: seq<Transaction>, tx: Transaction)
    requires tx in txs && Stale(p, l, tx)
    ensures ApplyTxs(p, l, txs).Err?
  {
    hide ApplyTx, Lookup;
    var init, last := txs[..|txs| - 1], txs[|txs| - 1];
    if tx in init {
      StaleFails(p, l, init, tx);
    } else if ApplyTxs(p, l, txs).Ok? {
      NoncesGrow(p, l, init, p.addressOf(tx.from));
      TxNonce(p, ApplyTxs(p, l, init).value, last, p.addressOf(last.from));
    }
  }

  /** Carrying out a list makes each of its transactions stale. */
  lemma {:induction false} DoneIsStale(p: Params, l: Ledger, txs: seq<Transaction>, tx: Transaction)
    requires tx in txs && ApplyTxs(p, l, txs).Ok?
    ensures Stale(p, ApplyTxs(p, l, txs).value, tx)
  {
    hide ApplyTx, Lookup;
    var init, last := txs[..|txs| - 1], txs[|txs| - 1];
    TxNonce(p, ApplyTxs(p, l, init).value, last, p.addressOf(tx.from));
    if tx in init {
      DoneIsStale(p, l, init, tx);
    } else {
      TxNonce(p, ApplyTxs(p, l, init).value, last, p.addressOf(last.from));
    }
  }

  lemma {:induction false} FailureStays(p: Params, l: Ledger, txs: seq<Transaction>, more: seq<Transaction>)
    requires ApplyTxs(p, l, txs).Err?
    ensures ApplyTxs(p, l, txs + more) == ApplyTxs(p, l, txs)
    decreases |more|
  {
    hide ApplyTx;
    if more == [] {
      assert txs + more == txs;
    } else {
      FailureStays(p, l, txs, more[..|more| - 1]);
      assert (txs + more)[..|txs + more| - 1] == txs + more[..|more| - 1];
    }
  }

  lemma {:induction false} PrefixApplies(p: Params, l: Ledger, txs: seq<Transaction>, i: nat)
    requires i <= |txs| && ApplyTxs(p, l, txs).Ok?
    ensures ApplyTxs(p, l, txs[..i]).Ok?
  {
    hide ApplyTxs;
    assert txs[..i] + txs[i..] == txs;
    if ApplyTxs(p, l, txs[..i]).Err? {
      FailureStays(p, l, txs[..i], txs[i..]);
    }
  }

  /** No list of transactions that can be carried out holds one of them twice. */
  lemma {:induction false} NoneTwice(p: Params, l: Ledger, txs: seq<Transaction>, i: nat, j: nat)
    requires ApplyTxs(p, l, txs).Ok? && i < j < |txs|
    ensures txs[i] != txs[j]
  {
    hide ApplyTx;
    PrefixApplies(p, l, txs, j);
    assert txs[i] == txs[..j][i];
    DoneIsStale(p, l, txs[..j], txs[i]);
    PrefixApplies(p, l, txs, j + 1);
    assert txs[..j + 1][..j] == txs[..j];
    TxNonce(p, ApplyTxs(p, l, txs[..j]).value, txs[j], p.addressOf(txs[j].from));
  }

  lemma SequentialSnoc(p: Params, txs: seq<Transaction>, tx: Transaction)
    requires Sequential(p, txs) && tx.accountNonce == SentBy(p, txs, p.addressOf(tx.from))
    ensures Sequential(p, txs + [tx])
    ensures forall a :: SentBy(p, txs + [tx], a) == SentBy(p, txs, a) + if a == p.addressOf(tx.from) then 1 else 0
  {
    var all := txs + [tx];
    assert all[..|txs|] == txs;
    forall i | 0 <= i < |all| ensures all[i].accountNonce == SentBy(p, all[..i], p.addressOf(all[i].from)) {
      if i < |txs| {
        assert all[..i] == txs[..i];
      }
    }
  }

  lemma {:induction false} TxsNonces(p: Params, l: Ledger, done: seq<Transaction>, txs: seq<Transaction>)
    requires NoncesCount(p, l, done) && Sequential(p, done)
    requires ApplyTxs(p, l, txs).Ok?
    ensures NoncesCount(p, ApplyTxs(p, l, txs).value, done + txs) && Sequential(p, done + txs)
  {
    hide ApplyTx, Lookup, Sequential, SentBy;
    if txs == [] {
      assert done + txs == done;
    } else {
      var init, last := txs[..|txs| - 1], txs[|txs| - 1];
      TxsNonces(p, l, done, init);
      var mid := ApplyTxs(p, l, init).value;
      forall a {
        TxNonce(p, mid, last, a);
      }
      SequentialSnoc(p, done + init, last);
      assert done + txs == done + init + [last];
    }
  }

  lemma CreditKeepsNonces(l: Ledger, a: Address, amount: U64, b: Address)
    ensures Lookup(Credit(l, a, amount), b).nonce == Lookup(l, b).nonce
  {
    hide Put, Lookup;
    var acc := Lookup(l, a);
    PutLookup(l, a, acc.(balance := SaturatingAdd(acc.balance, amount)), b);
  }

  lemma {:induction false} GenesisNonces(premine: seq<(Address, U64)>, a: Address)
    ensures Lookup(CreditAll(map[], premine), a).nonce == 0
  {
    if premine != [] {
      GenesisNonces(premine[..|premine| - 1], a);
      var init, last := premine[..|premine| - 1], premine[|premine| - 1];
      CreditKeepsNonces(CreditAll(map[], init), last.0, last.1, a);
    }
  }

  /** All transactions from genesis to h, in the order they were carried out. */
  ghost function History(s: Store, root: Hash256, h: Hash256): seq<Transaction>
    requires WellFormed(s, root) && h in s
    decreases s[h].header.height
  {
    if h == root then [] else
      assert Rooted(s, h);
      History(s, root, s[h].header.prevHash) + s[h].transactions
  }

  lemma {:induction false} HistoryNonces(p: Params, s: Store, h: Hash256)
    requires WellFormed(s, p.genesis.hash) && h in s
    requires Replay(p, s, h).Ok?
    ensures NoncesCount(p, Replay(p, s, h).value, History(s, p.genesis.hash, h))
    ensures Sequential(p, History(s, p.genesis.hash, h))
    decreases s[h].header.height
  {
    if h == p.genesis.hash {
      forall a {
        GenesisNonces(p.genesis.premine, a);
      }
    } else {
      ReplayStep(p, s, h);
      var parent := s[h].header.prevHash;
      HistoryNonces(p, s, parent);
      var before := Replay(p, s, parent).value;
      TxsNonces(p, before, History(s, p.genesis.hash, parent), s[h].transactions);
      MinerKeepsNonces(p, before, Entry(h, s[h]), History(s, p.genesis.hash, parent) + s[h].transactions);
    }
  }

  lemma MinerKeepsNonces(p: Params, l: Ledger, e: Entry, txs: seq<Transaction>)
    requires ApplyTxs(p, l, e.block.transactions).Ok?
    requires NoncesCount(p, ApplyTxs(p, l, e.block.transactions).value, txs)
    ensures ApplyBlock(p, l, e).Ok? && NoncesCount(p, ApplyBlock(p, l, e).value, txs)
  {
    hide Lookup, Credit;
    var k := ApplyTxs(p, l, e.block.transactions).value;
    forall a {
      CreditKeepsNonces(k, e.block.header.miner, p.BlockReward(e.block.header.height), a);
    }
  }

  lemma {:induction false} SentByGrows(p: Params, txs: seq<Transaction>, i: nat, j: nat, a: Address)
    requires i < j <= |txs| && p.addressOf(txs[i].from) == a
    ensures SentBy(p, txs[..i], a) < SentBy(p, txs[..j], a)
    decreases j
  {
    assert txs[..j][..j - 1] == txs[..j - 1];
    if i + 1 < j {
      SentByGrows(p, txs, i, j - 1, a);
    }
  }

  /** Replay protection. On every chain that replays, a sender's nonces strictly
      increase, so no transaction is carried out twice. */
  lemma {:induction false} NothingCarriedOutTwice(p: Params, s: Store, h: Hash256, i: nat, j: nat)
    requires WellFormed(s, p.genesis.hash) && h in s
    requires Replay(p, s, h).Ok?
    requires i < j < |History(s, p.genesis.hash, h)|
    ensures var txs := History(s, p.genesis.hash, h);
      && txs[i] != txs[j]
      && (p.addressOf(txs[i].from) == p.addressOf(txs[j].from) ==> txs[i].accountNonce < txs[j].accountNonce)
  {
    HistoryNonces(p, s, h);
    hide WellFormed, Replay, History, SentBy;
    var txs := History(s, p.genesis.hash, h);
    if p.addressOf(txs[i].from) == p.addressOf(txs[j].from) {
      SentByGrows(p, txs, i, j, p.addressOf(txs[i].from));
    }
  }

  // ----- what every stored block went through -----

  /** The block hashes to its own key over the first epoch's dataset, that hash
      meets the target of its difficulty, its root matches and its transactions
      are signed. */
  ghost predicate Vetted(p: Params, h: Hash256, b: Block) {
    && p.powHash(b.header, p.epochSeed(None)) == h
    && Difficulty.BeValue(h.bytes) * Max(b.header.difficulty, 1) < Difficulty.Pow256(32)
    && b.header.txRoot == Merkle.TreeRoot(p.pairHash, p.TxHashes(b.transactions))
    && forall tx :: tx in b.transactions ==> p.signatureValid(tx)
  }

  ghost predicate AllVetted(p: Params, v: ChainView) {
    forall h :: h in v.blocks && h != p.genesis.hash ==> Vetted(p, h, v.blocks[h])
  }

  lemma {:induction false} SoundIsVetted(p: Params, s: Store, b: Block, seed: Hash256)
    requires WellFormed(s, p.genesis.hash) && seed == p.epochSeed(None) && Judge(p, s, b, seed).Sound?
    ensures Vetted(p, Judge(p, s, b, seed).hash, b)
  {
    hide WellFormed, ExpectedDifficulty, Merkle.TreeRoot, Difficulty.MeetsTarget, Difficulty.TargetForDifficulty,
         Difficulty.Pow256, Difficulty.BeValue;
    Difficulty.PowCheckMeaning(p.powHash(b.header, seed), b.header.difficulty);
  }

  lemma {:induction false} SubmitKeepsVetted(p: Params, v: ChainView, b: Block)
    requires Shape(p, v) && AllVetted(p, v) && FirstEpoch(p, v)
    ensures AllVetted(p, Submit(p, v, b).view)
  {
    hide WellFormed, DifficultiesFollow, Work, Replay, SeedFor, Judge, UndoList, ApplyList, Requeue, Vetted,
         FirstEpoch, Boundary, TxHashSet;
    SeedInFirstEpoch(p, v, b.header.height);
    if b.header.height > 0 && SeedFor(p, v, b.header.height).Ok? {
      var seed := SeedFor(p, v, b.header.height).value;
      if Judge(p, v.blocks, b, seed).Sound? {
        SoundIsVetted(p, v.blocks, b, seed);
      }
    }
  }

  /** After any run, nothing is stored that was not checked. */
  lemma {:induction false} RunIsVetted(p: Params, bs: seq<Block>)
    ensures Shape(p, Start(p)) && AllVetted(p, Run(p, Start(p), bs))
  {
    StartHasShape(p);
    if bs != [] {
      RunIsVetted(p, bs[..|bs| - 1]);
      HeightsStayBelow(p, bs[..|bs| - 1], p.genesis.hash);
      SubmitKeepsVetted(p, Run(p, Start(p), bs[..|bs| - 1]), bs[|bs| - 1]);
    }
  }
}
