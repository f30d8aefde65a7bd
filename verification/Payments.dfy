/** When payments go through: one, a list, a block, and a mined template, in
    terms of nonces and sums of money alone. */
module Payments {
  import opened Primitives
  import opened Protocol
  import opened Ledger
  import opened Emission
  import opened BlockTree
  import opened ForkChoice
  import opened Runs
  import opened Replayed
  import opened Templates

  /** One payment, over any ledger: it goes through exactly if it carries the
      sender's nonce and the sender holds amount and fee, a sum beyond 64 bits
      counting as the largest balance there is; the nonce is looked at first. */
  lemma PaymentIff(p: Params, l: Ledger, tx: Transaction)
    ensures var acc := Lookup(l, p.addressOf(tx.from));
      var cost := Min(tx.amount + tx.fee, 0xFFFF_FFFF_FFFF_FFFF);
      && (ApplyTx(p, l, tx).Ok? <==> tx.accountNonce == acc.nonce && cost <= acc.balance)
      && (tx.accountNonce != acc.nonce ==> ApplyTx(p, l, tx) == Err(BadNonce))
      && (tx.accountNonce == acc.nonce && cost > acc.balance ==> ApplyTx(p, l, tx) == Err(TooPoor))
  {
    hide Credit, Put, Lookup;
  }

  /** A payment that goes through, over any ledger: the cost is taken modulo 2^64,
      then the amount is added up to the largest balance. */
  lemma PaymentInFull(p: Params, l: Ledger, tx: Transaction, a: Address)
    requires ApplyTx(p, l, tx).Ok?
    ensures var before, after, sender := Lookup(l, a), Lookup(ApplyTx(p, l, tx).value, a), p.addressOf(tx.from);
      var left := before.balance - if a == sender then (tx.amount + tx.fee) % 0x1_0000_0000_0000_0000 else 0;
      && after.balance == (if a == tx.to then Min(left + tx.amount, 0xFFFF_FFFF_FFFF_FFFF) else left)
      && after.nonce == before.nonce + if a == sender then 1 else 0
  {
    hide Put, Lookup;
    var sender := p.addressOf(tx.from);
    var acc := Lookup(l, sender);
    var paid := Account(acc.balance - WrapAdd(tx.amount, tx.fee), acc.nonce + 1);
    var charged := Put(l, sender, paid);
    PutLookup(l, sender, paid, tx.to);
    PutLookup(l, sender, paid, a);
    var to := Lookup(charged, tx.to);
    PutLookup(charged, tx.to, to.(balance := SaturatingAdd(to.balance, tx.amount)), a);
  }

  /** Undoing a payment, over any ledger: first the amount is taken back down to
      zero, then the cost is given back up to the largest balance. */
  lemma UndoInFull(p: Params, l: Ledger, tx: Transaction, a: Address)
    ensures var before, after, sender := Lookup(l, a), Lookup(UndoTx(p, l, tx), a), p.addressOf(tx.from);
      var left := if a == tx.to then Max(before.balance - tx.amount, 0) else before.balance;
      && after.balance == (if a == sender
                           then Min(left + (tx.amount + tx.fee) % 0x1_0000_0000_0000_0000, 0xFFFF_FFFF_FFFF_FFFF)
                           else left)
      && after.nonce == if a == sender then Max(before.nonce - 1, 0) else before.nonce
  {
    hide Put, Lookup;
    var sender := p.addressOf(tx.from);
    var to := Lookup(l, tx.to);
    var debited := Put(l, tx.to, to.(balance := SaturatingSub(to.balance, tx.amount)));
    PutLookup(l, tx.to, to.(balance := SaturatingSub(to.balance, tx.amount)), sender);
    PutLookup(l, tx.to, to.(balance := SaturatingSub(to.balance, tx.amount)), a);
    var s := Lookup(debited, sender);
    PutLookup(debited, sender, Account(SaturatingAdd(s.balance, WrapAdd(tx.amount, tx.fee)),
                                       if s.nonce == 0 then 0 else s.nonce - 1), a);
  }

  lemma BalanceBelowTotal(l: Ledger, a: Address)
    ensures Lookup(l, a).balance <= Total(l)
  {
    TotalPut(l, a, EMPTY_ACCOUNT);
  }

  // ----- a list of payments -----

  /** What a is paid by the transactions. */
  function Received(txs: seq<Transaction>, a: Address): nat {
    if txs == [] then 0
    else Received(txs[..|txs| - 1], a) + if txs[|txs| - 1].to == a then txs[|txs| - 1].amount else 0
  }

  /** What a pays with them, fees included. */
  function Spent(p: Params, txs: seq<Transaction>, a: Address): nat {
    if txs == [] then 0
    else
      var tx := txs[|txs| - 1];
      Spent(p, txs[..|txs| - 1], a) + if p.addressOf(tx.from) == a then tx.amount + tx.fee else 0
  }

  /** Payment i carries the sender's nonce plus the number of its earlier payments. */
  predicate NonceFits(p: Params, l: Ledger, txs: seq<Transaction>, i: nat)
    requires i < |txs|
  {
    var a := p.addressOf(txs[i].from);
    txs[i].accountNonce == Lookup(l, a).nonce + SentBy(p, txs[..i], a)
  }

  /** The sender of payment i has enough left, with what it received before. */
  predicate MoneySuffices(p: Params, l: Ledger, txs: seq<Transaction>, i: nat)
    requires i < |txs|
  {
    var a := p.addressOf(txs[i].from);
    Spent(p, txs[..i], a) + txs[i].amount + txs[i].fee <= Lookup(l, a).balance + Received(txs[..i], a)
  }

  predicate Payable(p: Params, l: Ledger, txs: seq<Transaction>) {
    forall i :: 0 <= i < |txs| ==> NonceFits(p, l, txs, i) && MoneySuffices(p, l, txs, i)
  }

  /** A list that goes through moves the sums and counts the nonces, account by account. */
  lemma {:induction false} ListEffect(p: Params, l: Ledger, txs: seq<Transaction>, a: Address)
    requires Total(l) < U64_MAX && ApplyTxs(p, l, txs).Ok?
    ensures var before, after := Lookup(l, a), Lookup(ApplyTxs(p, l, txs).value, a);
      && after.balance == before.balance + Received(txs, a) - Spent(p, txs, a)
      && after.nonce == before.nonce + SentBy(p, txs, a)
  {
    hide ApplyTx, Lookup, Total;
    if txs != [] {
      var init, last := txs[..|txs| - 1], txs[|txs| - 1];
      ListEffect(p, l, init, a);
      ApplyTxsConserves(p, l, init);
      PaymentEffect(p, ApplyTxs(p, l, init).value, last, a);
    }
  }

  /** The next payment goes through exactly if nonce and money fit; else it names its fault. */
  lemma {:induction false} NextPayment(p: Params, l: Ledger, txs: seq<Transaction>, i: nat)
    requires Total(l) < U64_MAX && i < |txs| && ApplyTxs(p, l, txs[..i]).Ok?
    ensures ApplyTxs(p, l, txs[..i + 1]).Ok? <==> NonceFits(p, l, txs, i) && MoneySuffices(p, l, txs, i)
    ensures !NonceFits(p, l, txs, i) ==> ApplyTxs(p, l, txs[..i + 1]) == Err(BadNonce)
    ensures NonceFits(p, l, txs, i) && !MoneySuffices(p, l, txs, i) ==> ApplyTxs(p, l, txs[..i + 1]) == Err(TooPoor)
  {
    hide ApplyTx, Lookup, Total;
    assert txs[..i + 1][..i] == txs[..i];
    var mid, a := ApplyTxs(p, l, txs[..i]).value, p.addressOf(txs[i].from);
    ListEffect(p, l, txs[..i], a);
    ApplyTxsConserves(p, l, txs[..i]);
    BalanceBelowTotal(mid, a);
    PaymentIff(p, mid, txs[i]);
  }

  /** A list goes through exactly if every payment fits when its turn comes. */
  lemma {:induction false} ListIff(p: Params, l: Ledger, txs: seq<Transaction>)
    requires Total(l) < U64_MAX
    ensures ApplyTxs(p, l, txs).Ok? <==> Payable(p, l, txs)
  {
    if txs != [] {
      var n := |txs| - 1;
      ListIff(p, l, txs[..n]);
      assert txs[..n + 1] == txs;
      PrefixPayable(p, l, txs, n);
      if ApplyTxs(p, l, txs[..n]).Ok? {
        hide ApplyTxs, Payable;
        NextPayment(p, l, txs, n);
      }
    }
  }

  lemma PrefixPayable(p: Params, l: Ledger, txs: seq<Transaction>, n: nat)
    requires n + 1 == |txs|
    ensures Payable(p, l, txs) <==> Payable(p, l, txs[..n]) && NonceFits(p, l, txs, n) && MoneySuffices(p, l, txs, n)
  {
    hide NonceFits, MoneySuffices;
    forall i | 0 <= i < n
      ensures NonceFits(p, l, txs, i) == NonceFits(p, l, txs[..n], i)
      ensures MoneySuffices(p, l, txs, i) == MoneySuffices(p, l, txs[..n], i)
    {
      SamePayment(p, l, txs, n, i);
    }
  }

  lemma SamePayment(p: Params, l: Ledger, txs: seq<Transaction>, n: nat, i: nat)
    requires i < n <= |txs|
    ensures NonceFits(p, l, txs, i) == NonceFits(p, l, txs[..n], i)
    ensures MoneySuffices(p, l, txs, i) == MoneySuffices(p, l, txs[..n], i)
  {
    assert txs[..n][..i] == txs[..i];
  }

  /** The first payment that does not fit decides the error, whatever follows it. */
  lemma {:induction false} FirstFaultDecides(p: Params, l: Ledger, txs: seq<Transaction>, i: nat)
    requires Total(l) < U64_MAX && i < |txs| && Payable(p, l, txs[..i])
    requires !(NonceFits(p, l, txs, i) && MoneySuffices(p, l, txs, i))
    ensures ApplyTxs(p, l, txs) == Err(if NonceFits(p, l, txs, i) then TooPoor else BadNonce)
  {
    hide ApplyTx, NonceFits, MoneySuffices, Total, Payable, ApplyTxs;
    ListIff(p, l, txs[..i]);
    NextPayment(p, l, txs, i);
    FailureStays(p, l, txs[..i + 1], txs[i + 1..]);
    assert txs[..i + 1] + txs[i + 1..] == txs;
  }

  // ----- a block -----

  /** A block goes through exactly if its payments do, before the reward is paid;
      then the miner has the reward on top. */
  lemma {:induction false} BlockIff(p: Params, l: Ledger, e: Entry, a: Address)
    requires RoomFor(p, l, e)
    ensures var txs := e.block.transactions;
      && (ApplyBlock(p, l, e).Ok? <==> Payable(p, l, txs))
      && (ApplyBlock(p, l, e).Ok? ==>
            Lookup(ApplyBlock(p, l, e).value, a).balance
            == Lookup(l, a).balance + Received(txs, a) - Spent(p, txs, a)
               + if a == e.block.header.miner then p.BlockReward(e.block.header.height) else 0)
  {
    hide Lookup, Total, Credit, Payable, Params.BlockReward;
    ListIff(p, l, e.block.transactions);
    if ApplyTxs(p, l, e.block.transactions).Ok? {
      var k := ApplyTxs(p, l, e.block.transactions).value;
      ListEffect(p, l, e.block.transactions, a);
      ApplyTxsConserves(p, l, e.block.transactions);
      CreditEffect(k, e.block.header.miner, p.BlockReward(e.block.header.height), a);
    }
  }

  /** The error of a block names the block and the fault of its first bad payment. */
  lemma {:induction false} BlockFault(p: Params, l: Ledger, e: Entry, i: nat)
    requires Total(l) < U64_MAX && i < |e.block.transactions| && Payable(p, l, e.block.transactions[..i])
    requires !(NonceFits(p, l, e.block.transactions, i) && MoneySuffices(p, l, e.block.transactions, i))
    ensures ApplyBlock(p, l, e) == Err(
      if NonceFits(p, l, e.block.transactions, i) then InsufficientBalance(e.hash, e.block.header.height)
      else InvalidTxNonce(e.hash, e.block.header.height))
  {
    hide Payable, NonceFits, MoneySuffices, ApplyTxs;
    FirstFaultDecides(p, l, e.block.transactions, i);
  }

  // ----- a template -----

  /** What the accounts hold after a run. */
  ghost function TipLedger(p: Params, bs: seq<Block>): (l: Ledger)
    ensures Replay(p, After(p, bs).blocks, After(p, bs).tip) == Ok(l)
  {
    RunStaysBest(p, bs);
    Replay(p, After(p, bs).blocks, After(p, bs).tip).value
  }

  lemma {:induction false} TipHasRoom(p: Params, bs: seq<Block>)
    requires SupplyFits(p, After(p, bs).blocks[After(p, bs).tip].header.height)
    ensures Total(TipLedger(p, bs)) < U64_MAX
  {
    Conservation(p, After(p, bs).blocks, After(p, bs).tip);
  }

  /** A template with a good proof of work and good signatures, below height 2048
      and under a new hash, is accepted exactly if its payments fit the accounts
      of the tip. */
  lemma {:induction false} TemplatePaysIff(p: Params, bs: seq<Block>, b: Block)
    requires IsTemplate(p, After(p, bs), b) && b.header.height < 2048 && b.header.difficulty >= 1
    requires p.powHash(b.header, p.epochSeed(None)) !in After(p, bs).blocks
    requires MeetsDifficulty(p.powHash(b.header, p.epochSeed(None)), b.header.difficulty)
    requires forall tx :: tx in b.transactions ==> p.signatureValid(tx)
    requires SupplyFits(p, After(p, bs).blocks[After(p, bs).tip].header.height)
    ensures var step := Submit(p, After(p, bs), b);
      && ((step.answer.Ok? && step.answer.value.Accepted?) <==> Payable(p, TipLedger(p, bs), b.transactions))
      && (step.answer.Ok? ==> step.view.tip == p.powHash(b.header, p.epochSeed(None)))
      && (step.answer.Err? ==> step.view.tip == After(p, bs).tip)
  {
    var l, hash := TipLedger(p, bs), p.powHash(b.header, p.epochSeed(None));
    TipHasRoom(p, bs);
    ListIff(p, l, b.transactions);
    BlockOk(p, l, Entry(hash, b));
    assert ValidSignatures(p, b.transactions);
    hide *;
    TemplateIsAccepted(p, bs, b);
  }

  lemma BlockOk(p: Params, l: Ledger, e: Entry)
    ensures ApplyBlock(p, l, e).Ok? <==> ApplyTxs(p, l, e.block.transactions).Ok?
  {
  }
}
