/** Account balances and nonces, the effect of a block on them, and the undo
    of that effect, with the code's saturating and wrapping arithmetic. */
module Ledger {
  import opened Primitives
  import opened Protocol

  datatype Account = Account(balance: U64, nonce: nat)

  const EMPTY_ACCOUNT := Account(0, 0)

  /** The meaning of the account store: a missing account reads as empty, so an
      empty account is never kept and equal lookups are equal ledgers. */
  type Ledger = m: map<Address, Account> | forall a :: a in m ==> m[a] != EMPTY_ACCOUNT witness map[]

  function Lookup(m: map<Address, Account>, a: Address): Account {
    if a in m then m[a] else EMPTY_ACCOUNT
  }

  function Put(l: Ledger, a: Address, acc: Account): Ledger {
    if acc == EMPTY_ACCOUNT then l - {a} else l[a := acc]
  }

  function Canonical(m: map<Address, Account>): Ledger {
    map a | a in m && m[a] != EMPTY_ACCOUNT :: m[a]
  }

  lemma SameLookups(l: Ledger, k: Ledger)
    requires forall a :: Lookup(l, a) == Lookup(k, a)
    ensures l == k
  {
    forall a ensures a in l <==> a in k {
      assert Lookup(l, a) == Lookup(k, a);
    }
    forall a | a in l ensures l[a] == k[a] {
      assert Lookup(l, a) == Lookup(k, a);
    }
  }

  lemma CanonicalLookup(m: map<Address, Account>, a: Address)
    ensures Lookup(Canonical(m), a) == Lookup(m, a)
  {
  }

  lemma CanonicalPut(m: map<Address, Account>, a: Address, acc: Account)
    ensures Canonical(m[a := acc]) == Put(Canonical(m), a, acc)
  {
  }

  lemma PutLookup(l: Ledger, a: Address, acc: Account, b: Address)
    ensures Lookup(Put(l, a, acc), b) == if b == a then acc else Lookup(l, b)
  {
  }

  lemma PutTwice(l: Ledger, a: Address, x: Account, y: Account)
    ensures Put(Put(l, a, x), a, y) == Put(l, a, y)
    ensures Put(l, a, Lookup(l, a)) == l
  {
    SameLookups(Put(Put(l, a, x), a, y), Put(l, a, y));
    SameLookups(Put(l, a, Lookup(l, a)), l);
  }

  // ----- one transaction -----

  datatype TxFault = BadNonce | TooPoor

  function Credit(l: Ledger, a: Address, amount: U64): Ledger {
    var acc := Lookup(l, a);
    Put(l, a, acc.(balance := SaturatingAdd(acc.balance, amount)))
  }

  function Debit(l: Ledger, a: Address, amount: U64): Ledger {
    var acc := Lookup(l, a);
    Put(l, a, acc.(balance := SaturatingSub(acc.balance, amount)))
  }

  /** The guard tests the saturated cost, the debit uses the wrapped one. */
  function ChargeSender(l: Ledger, sender: Address, tx: Transaction): Result<Ledger, TxFault> {
    var acc := Lookup(l, sender);
    if tx.accountNonce != acc.nonce then Err(BadNonce)
    else if acc.balance < SaturatingAdd(tx.amount, tx.fee) then Err(TooPoor)
    else Ok(Put(l, sender, Account(acc.balance - WrapAdd(tx.amount, tx.fee), acc.nonce + 1)))
  }

  function RefundSender(l: Ledger, sender: Address, tx: Transaction): Ledger {
    var acc := Lookup(l, sender);
    Put(l, sender, Account(SaturatingAdd(acc.balance, WrapAdd(tx.amount, tx.fee)),
                           if acc.nonce == 0 then 0 else acc.nonce - 1))
  }

  function ApplyTx(p: Params, l: Ledger, tx: Transaction): Result<Ledger, TxFault> {
    match ChargeSender(l, p.addressOf(tx.from), tx)
    case Err(e) => Err(e)
    case Ok(charged) => Ok(Credit(charged, tx.to, tx.amount))
  }

  function UndoTx(p: Params, l: Ledger, tx: Transaction): Ledger {
    RefundSender(Debit(l, tx.to, tx.amount), p.addressOf(tx.from), tx)
  }

  // ----- one block, and a run of blocks -----

  function ApplyTxs(p: Params, l: Ledger, txs: seq<Transaction>): Result<Ledger, TxFault> {
    if txs == [] then Ok(l)
    else
      match ApplyTxs(p, l, txs[..|txs| - 1])
      case Err(e) => Err(e)
      case Ok(k) => ApplyTx(p, k, txs[|txs| - 1])
  }

  function UndoTxs(p: Params, l: Ledger, txs: seq<Transaction>): Ledger
    decreases |txs|
  {
    if txs == [] then l
    else UndoTxs(p, UndoTx(p, l, txs[|txs| - 1]), txs[..|txs| - 1])
  }

  function FaultOf(e: Entry, fault: TxFault): ChainError {
    match fault
    case BadNonce => InvalidTxNonce(e.hash, e.block.header.height)
    case TooPoor => InsufficientBalance(e.hash, e.block.header.height)
  }

  function ApplyBlock(p: Params, l: Ledger, e: Entry): Result<Ledger, ChainError> {
    match ApplyTxs(p, l, e.block.transactions)
    case Err(fault) => Err(FaultOf(e, fault))
    case Ok(k) => Ok(Credit(k, e.block.header.miner, p.BlockReward(e.block.header.height)))
  }

  function UndoBlock(p: Params, l: Ledger, e: Entry): Ledger {
    UndoTxs(p, Debit(l, e.block.header.miner, p.BlockReward(e.block.header.height)), e.block.transactions)
  }

  function ApplyBlocks(p: Params, l: Ledger, es: seq<Entry>): Result<Ledger, ChainError> {
    if es == [] then Ok(l)
    else
      match ApplyBlocks(p, l, es[..|es| - 1])
      case Err(e) => Err(e)
      case Ok(k) => ApplyBlock(p, k, es[|es| - 1])
  }

  function UndoBlocks(p: Params, l: Ledger, es: seq<Entry>): Ledger
    decreases |es|
  {
    if es == [] then l else UndoBlocks(p, UndoBlock(p, l, es[0]), es[1..])
  }

  // ----- total money -----

  /** The sum of all balances. */
  ghost function Total(l: Ledger): nat {
    if l == map[] then 0
    else
      var a :| a in l;
      l[a].balance + Total(l - {a})
  }

  lemma {:induction false} TotalPick(l: Ledger, b: Address)
    requires b in l
    ensures Total(l) == l[b].balance + Total(l - {b})
  {
    var a :| a in l && Total(l) == l[a].balance + Total(l - {a});
    if a != b {
      TotalPick(l - {a}, b);
      TotalPick(l - {b}, a);
      assert l - {a} - {b} == l - {b} - {a};
    }
  }

  lemma TotalPut(l: Ledger, a: Address, acc: Account)
    ensures Total(Put(l, a, acc)) == Total(l) - Lookup(l, a).balance + acc.balance
    ensures Lookup(l, a).balance <= Total(l)
  {
    if a in l {
      TotalPick(l, a);
    } else {
      assert l - {a} == l;
    }
    var k := Put(l, a, acc);
    if a in k {
      TotalPick(k, a);
      assert k - {a} == l - {a};
    }
  }

  function Fees(txs: seq<Transaction>): nat {
    if txs == [] then 0 else Fees(txs[..|txs| - 1]) + txs[|txs| - 1].fee
  }

  /** A ledger with less than 2^64 - 1 units in it pays the exact cost of a
      transaction, and nothing saturates: only the fee disappears. */
  lemma ApplyTxConserves(p: Params, l: Ledger, tx: Transaction)
    requires Total(l) < U64_MAX
    requires ApplyTx(p, l, tx).Ok?
    ensures Total(ApplyTx(p, l, tx).value) + tx.fee == Total(l)
  {
    hide Put, Lookup, Total;
    var sender := p.addressOf(tx.from);
    var acc := Lookup(l, sender);
    TotalPut(l, sender, EMPTY_ACCOUNT);
    assert tx.amount + tx.fee <= acc.balance;
    var charged := ChargeSender(l, sender, tx).value;
    TotalPut(l, sender, Account(acc.balance - (tx.amount + tx.fee), acc.nonce + 1));
    CreditTotal(charged, tx.to, tx.amount);
  }

  lemma CreditTotal(l: Ledger, a: Address, amount: U64)
    requires Total(l) + amount <= U64_MAX
    ensures Total(Credit(l, a, amount)) == Total(l) + amount
    ensures Debit(Credit(l, a, amount), a, amount) == l
  {
    var acc := Lookup(l, a);
    TotalPut(l, a, acc.(balance := SaturatingAdd(acc.balance, amount)));
    var credited := Credit(l, a, amount);
    PutLookup(l, a, acc.(balance := acc.balance + amount), a);
    PutTwice(l, a, acc.(balance := acc.balance + amount), acc);
  }

  lemma {:induction false} UndoTxInverts(p: Params, l: Ledger, tx: Transaction)
    requires Total(l) < U64_MAX
    requires ApplyTx(p, l, tx).Ok?
    ensures UndoTx(p, ApplyTx(p, l, tx).value, tx) == l
  {
    hide Put, Lookup, Total;
    var sender := p.addressOf(tx.from);
    var acc := Lookup(l, sender);
    TotalPut(l, sender, Account(acc.balance - WrapAdd(tx.amount, tx.fee), acc.nonce + 1));
    TotalPut(ChargeSender(l, sender, tx).value, tx.to, EMPTY_ACCOUNT);
    UndoTxInvertsIff(p, l, tx);
  }

  lemma {:induction false} ApplyTxsConserves(p: Params, l: Ledger, txs: seq<Transaction>)
    requires Total(l) < U64_MAX
    requires ApplyTxs(p, l, txs).Ok?
    ensures Total(ApplyTxs(p, l, txs).value) + Fees(txs) == Total(l)
    ensures UndoTxs(p, ApplyTxs(p, l, txs).value, txs) == l
  {
    if txs != [] {
      var init, last := txs[..|txs| - 1], txs[|txs| - 1];
      ApplyTxsConserves(p, l, init);
      var mid := ApplyTxs(p, l, init).value;
      ApplyTxConserves(p, mid, last);
      UndoTxInverts(p, mid, last);
    }
  }

  /** Room for a block: neither the ledger nor the reward can reach 2^64. */
  ghost predicate RoomFor(p: Params, l: Ledger, e: Entry) {
    Total(l) < U64_MAX && Total(l) + p.BlockReward(e.block.header.height) <= U64_MAX
  }

  lemma ApplyBlockConserves(p: Params, l: Ledger, e: Entry)
    requires RoomFor(p, l, e)
    requires ApplyBlock(p, l, e).Ok?
    ensures Total(ApplyBlock(p, l, e).value) + Fees(e.block.transactions)
         == Total(l) + p.BlockReward(e.block.header.height)
    ensures UndoBlock(p, ApplyBlock(p, l, e).value, e) == l
  {
    hide Params.BlockReward, Credit, Debit, Total;
    ApplyTxsConserves(p, l, e.block.transactions);
    var k := ApplyTxs(p, l, e.block.transactions).value;
    CreditTotal(k, e.block.header.miner, p.BlockReward(e.block.header.height));
  }

  // ----- exactly when an undo restores the ledger -----

  /** Undoing one credit restores the ledger exactly when the credit did not saturate. */
  lemma CreditInvertsIff(l: Ledger, a: Address, amount: U64)
    ensures Debit(Credit(l, a, amount), a, amount) == l
       <==> Lookup(l, a).balance + amount <= U64_MAX
  {
    var acc := Lookup(l, a);
    var credited := acc.(balance := SaturatingAdd(acc.balance, amount));
    var back := credited.(balance := SaturatingSub(credited.balance, amount));
    PutLookup(l, a, credited, a);
    PutTwice(l, a, credited, back);
    PutLookup(l, a, back, a);
    PutTwice(l, a, acc, acc);
  }

  /** Undoing one applied transaction restores the ledger exactly when the
      recipient, after the sender has paid, has room for the amount. */
  lemma UndoTxInvertsIff(p: Params, l: Ledger, tx: Transaction)
    requires ApplyTx(p, l, tx).Ok?
    ensures UndoTx(p, ApplyTx(p, l, tx).value, tx) == l
       <==> Lookup(ChargeSender(l, p.addressOf(tx.from), tx).value, tx.to).balance + tx.amount <= U64_MAX
  {
    hide Put, Lookup;
    var sender := p.addressOf(tx.from);
    var acc := Lookup(l, sender);
    var cost := WrapAdd(tx.amount, tx.fee);
    var paid := Account(acc.balance - cost, acc.nonce + 1);
    var charged := Put(l, sender, paid);
    PutLookup(l, sender, paid, sender);
    PutLookup(l, sender, paid, tx.to);
    CreditInvertsIff(charged, tx.to, tx.amount);
    PutTwice(l, sender, paid, acc);
    if Lookup(charged, tx.to).balance + tx.amount > U64_MAX {
      SaturatedUndo(p, l, tx);
    }
  }

  lemma SaturatedUndo(p: Params, l: Ledger, tx: Transaction)
    requires ApplyTx(p, l, tx).Ok?
    requires Lookup(ChargeSender(l, p.addressOf(tx.from), tx).value, tx.to).balance + tx.amount > U64_MAX
    ensures Lookup(UndoTx(p, ApplyTx(p, l, tx).value, tx), tx.to).balance < Lookup(l, tx.to).balance
  {
    hide Put, Lookup;
    var sender := p.addressOf(tx.from);
    var acc := Lookup(l, sender);
    var paid := Account(acc.balance - WrapAdd(tx.amount, tx.fee), acc.nonce + 1);
    var charged := Put(l, sender, paid);
    PutLookup(l, sender, paid, tx.to);
    var to := Lookup(charged, tx.to);
    var full := to.(balance := U64_MAX);
    var credited := Put(charged, tx.to, full);
    PutLookup(charged, tx.to, full, tx.to);
    var back := to.(balance := U64_MAX - tx.amount);
    var debited := Put(credited, tx.to, back);
    PutLookup(credited, tx.to, back, tx.to);
    PutLookup(credited, tx.to, back, sender);
    var s := Lookup(debited, sender);
    PutLookup(debited, sender, Account(SaturatingAdd(s.balance, WrapAdd(tx.amount, tx.fee)),
                                       if s.nonce == 0 then 0 else s.nonce - 1), tx.to);
  }

  /** Undoing this block after applying it gives the ledger back. */
  ghost predicate UndoInverts(p: Params, l: Ledger, e: Entry) {
    ApplyBlock(p, l, e).Ok? ==> UndoBlock(p, ApplyBlock(p, l, e).value, e) == l
  }

  ghost predicate AlwaysInverts(p: Params, total: nat, height: nat) {
    forall l: Ledger, e: Entry :: Total(l) == total && e.block.header.height == height ==> UndoInverts(p, l, e)
  }

  function HeaderAt(height: nat, miner: Address): Header {
    Header(height, ZERO_HASH, ZERO_HASH, 0, 0, miner, 0)
  }

  lemma SingleHolder(a: Address, total: U64)
    requires total > 0
    ensures var l: Ledger := map[a := Account(total, 0)]; Total(l) == total && Lookup(l, a) == Account(total, 0)
  {
    var l: Ledger := map[a := Account(total, 0)];
    TotalPick(l, a);
    assert l - {a} == map[];
  }

  /** A reward that would overflow its only holder is lost on undo. */
  lemma RewardOverflowBreaks(p: Params, total: U64, height: nat)
    requires total + p.BlockReward(height) > U64_MAX
    ensures !AlwaysInverts(p, total, height)
  {
    hide Params.BlockReward;
    var a := Address([]);
    var l: Ledger := map[a := Account(total, 0)];
    SingleHolder(a, total);
    var e := Entry(ZERO_HASH, Block(HeaderAt(height, a), []));
    CreditInvertsIff(l, a, p.BlockReward(height));
    assert !UndoInverts(p, l, e);
  }

  /** With 2^64 - 1 units in one account, a payment of all of them to oneself
      with a fee of one passes the guard, its cost wraps to nothing, and undoing
      it wipes the account out. */
  lemma SelfPaymentNotUndone(p: Params, key: PublicKey)
    ensures var a := p.addressOf(key);
      var l: Ledger := map[a := Account(U64_MAX, 0)];
      var tx := Transaction(key, a, U64_MAX, 1, 0, None);
      && Total(l) == U64_MAX
      && ApplyTx(p, l, tx) == Ok(map[a := Account(U64_MAX, 1)])
      && UndoTx(p, map[a := Account(U64_MAX, 1)], tx) == map[]
  {
    hide Total;
    var a := p.addressOf(key);
    SingleHolder(a, U64_MAX);
    var l: Ledger := map[a := Account(U64_MAX, 0)];
    var tx := Transaction(key, a, U64_MAX, 1, 0, None);
    var paid: Ledger := map[a := Account(U64_MAX, 1)];
    assert l[a := Account(U64_MAX, 1)] == paid;
    assert ChargeSender(l, a, tx) == Ok(paid);
    assert Credit(paid, a, U64_MAX) == paid;
    var debited: Ledger := map[a := Account(0, 1)];
    assert Debit(paid, a, U64_MAX) == debited;
    assert debited - {a} == map[];
  }

  lemma FullSupplyBreaks(p: Params, height: nat)
    requires p.BlockReward(height) == 0
    ensures !AlwaysInverts(p, U64_MAX, height)
  {
    hide Params.BlockReward, Total;
    var key := PublicKey([]);
    var a := p.addressOf(key);
    var l: Ledger := map[a := Account(U64_MAX, 0)];
    var tx := Transaction(key, a, U64_MAX, 1, 0, None);
    var e := Entry(ZERO_HASH, Block(HeaderAt(height, a), [tx]));
    SelfPaymentNotUndone(p, key);
    var paid := ApplyTx(p, l, tx).value;
    OneTransaction(p, l, tx);
    OneTransaction(p, paid, tx);
    CreditNothing(paid, a);
    hide ApplyTx, UndoTx, ApplyTxs, UndoTxs, Credit, Debit;
    assert a in l;
    assert !UndoInverts(p, l, e);
  }

  lemma OneTransaction(p: Params, l: Ledger, tx: Transaction)
    ensures ApplyTxs(p, l, [tx]) == ApplyTx(p, l, tx)
    ensures UndoTxs(p, l, [tx]) == UndoTx(p, l, tx)
  {
    hide ApplyTx, UndoTx;
    assert [tx][..0] == [];
    assert ApplyTxs(p, l, []) == Ok(l);
    assert UndoTxs(p, UndoTx(p, l, tx), []) == UndoTx(p, l, tx);
  }

  lemma CreditNothing(l: Ledger, a: Address)
    ensures Credit(l, a, 0) == l && Debit(l, a, 0) == l
  {
    PutTwice(l, a, EMPTY_ACCOUNT, EMPTY_ACCOUNT);
  }

  /** The room asked for is exactly what is needed: at a given height, every
      block over every ledger holding `total` units is undone exactly if and
      only if the total is below 2^64 - 1 and the reward still fits. */
  lemma RoomIsExact(p: Params, total: U64, height: nat)
    ensures AlwaysInverts(p, total, height) <==> total < U64_MAX && total + p.BlockReward(height) <= U64_MAX
  {
    hide Params.BlockReward;
    if total + p.BlockReward(height) > U64_MAX {
      RewardOverflowBreaks(p, total, height);
    } else if total == U64_MAX {
      FullSupplyBreaks(p, height);
    } else {
      forall l: Ledger, e: Entry | Total(l) == total && e.block.header.height == height
        ensures UndoInverts(p, l, e)
      {
        if ApplyBlock(p, l, e).Ok? {
          ApplyBlockConserves(p, l, e);
        }
      }
    }
  }
}
