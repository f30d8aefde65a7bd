/** The node's database: one map per tree, updated in place. */
module ChainStore {
  import opened Primitives
  import opened Protocol
  import opened Ledger
  import opened BlockTree
  import opened ForkChoice

  datatype Tip = Tip(height: nat, hash: Hash256)

  /** Height to hash along a path. */
  function IndexOf(path: seq<Hash256>): map<nat, Hash256> {
    map i: nat | i < |path| :: path[i]
  }

  /** The values of a map, once for every key. */
  ghost function ValuesOf(m: map<Hash256, Transaction>): multiset<Transaction> {
    if m == map[] then multiset{}
    else
      var h :| h in m;
      multiset{m[h]} + ValuesOf(m - {h})
  }

  lemma SomeValue(m: map<Hash256, Transaction>) returns (h: Hash256)
    requires m != map[]
    ensures h in m && ValuesOf(m) == multiset{m[h]} + ValuesOf(m - {h})
  {
    h :| h in m && ValuesOf(m) == multiset{m[h]} + ValuesOf(m - {h});
  }

  lemma {:induction false} ValuesPick(m: map<Hash256, Transaction>, h: Hash256)
    requires h in m
    ensures ValuesOf(m) == multiset{m[h]} + ValuesOf(m - {h})
  {
    hide ValuesOf;
    var k := SomeValue(m);
    if k != h {
      ValuesPick(m - {k}, h);
      ValuesPick(m - {h}, k);
      assert m - {k} - {h} == m - {h} - {k};
    }
  }

  lemma NoValues()
    ensures ValuesOf(map[]) == multiset{}
  {
  }

  lemma ValuesTaken(m: map<Hash256, Transaction>, rest: set<Hash256>, h: Hash256)
    requires h in m && h in rest
    ensures ValuesOf(m - (rest - {h})) == multiset{m[h]} + ValuesOf(m - rest)
  {
    ValuesPick(m - (rest - {h}), h);
    assert m - (rest - {h}) - {h} == m - rest;
  }

  class ChainState {
    var accounts: map<Address, Account>
    var blocks: Store
    var heights: map<nat, Hash256>
    var chainwork: map<Hash256, nat>
    var tip: Option<Tip>
    var mempool: map<Hash256, Transaction>

    constructor ()
      ensures IsEmpty()
    {
      accounts, blocks, heights, chainwork, tip, mempool := map[], map[], map[], map[], None, map[];
    }

    predicate IsEmpty()
      reads this
    {
      accounts == map[] && blocks == map[] && heights == map[] && chainwork == map[] && tip == None && mempool == map[]
    }

    ghost function View(cache: Option<CachedSeed>): ChainView
      reads this`blocks, this`tip
      requires tip.Some?
    {
      ChainView(blocks, tip.value.hash, cache)
    }

    /** The tip record, the height index and the work tree all describe one
        chain of the stored tree. */
    ghost predicate Consistent(p: Params)
      reads this`blocks, this`tip, this`heights, this`chainwork
    {
      && tip.Some?
      && Shape(p, View(None))
      && tip.value.height == blocks[tip.value.hash].header.height
      && heights == IndexOf(Path(blocks, p.genesis.hash, tip.value.hash))
      && WorkRecorded(p)
    }

    ghost predicate WorkRecorded(p: Params)
      reads this`blocks, this`chainwork
      requires WellFormed(blocks, p.genesis.hash)
    {
      chainwork.Keys == blocks.Keys && forall h :: h in blocks ==> chainwork[h] == Work(blocks, p.genesis.hash, h)
    }

    function GetAccount(a: Address): Account
      reads this
    {
      Lookup(accounts, a)
    }

    method SetAccount(a: Address, acc: Account)
      modifies this`accounts
      ensures accounts == old(accounts)[a := acc]
    {
      accounts := accounts[a := acc];
    }

    method CreditAccount(a: Address, amount: U64)
      modifies this`accounts
      ensures Canonical(accounts) == Credit(Canonical(old(accounts)), a, amount)
    {
      var acc := GetAccount(a);
      acc := acc.(balance := SaturatingAdd(acc.balance, amount));
      CanonicalLookup(accounts, a);
      CanonicalPut(accounts, a, acc);
      SetAccount(a, acc);
    }

    function GetBlock(h: Hash256): Option<Block>
      reads this
    {
      if h in blocks then Some(blocks[h]) else None
    }

    method StoreBlock(h: Hash256, b: Block)
      modifies this`blocks
      ensures blocks == old(blocks)[h := b]
    {
      blocks := blocks[h := b];
    }

    function GetChainwork(h: Hash256): Option<nat>
      reads this
    {
      if h in chainwork then Some(chainwork[h]) else None
    }

    method SetChainwork(h: Hash256, work: nat)
      modifies this`chainwork
      ensures chainwork == old(chainwork)[h := work]
    {
      chainwork := chainwork[h := work];
    }

    function GetHashByHeight(height: nat): Option<Hash256>
      reads this
    {
      if height in heights then Some(heights[height]) else None
    }

    function GetBlockByHeight(height: nat): Option<Block>
      reads this
    {
      match GetHashByHeight(height)
      case None => None
      case Some(h) => GetBlock(h)
    }

    method SetCanonicalHeight(height: nat, h: Hash256)
      modifies this`heights
      ensures heights == old(heights)[height := h]
    {
      heights := heights[height := h];
    }

    method RemoveCanonicalHeight(height: nat)
      modifies this`heights
      ensures heights == old(heights) - {height}
    {
      heights := heights - {height};
    }

    method SetTip(height: nat, h: Hash256)
      modifies this`tip
      ensures tip == Some(Tip(height, h))
    {
      tip := Some(Tip(height, h));
    }

    method MempoolInsert(p: Params, tx: Transaction)
      modifies this`mempool
      ensures mempool == old(mempool)[p.txHash(tx) := tx]
    {
      mempool := mempool[p.txHash(tx) := tx];
    }

    /** All pending transactions, each once, in whatever order the map yields them. */
    method MempoolAll() returns (txs: seq<Transaction>)
      ensures multiset(txs) == ValuesOf(mempool)
      ensures forall tx :: tx in txs <==> tx in mempool.Values
    {
      hide ValuesOf;
      txs := [];
      var rest := mempool.Keys;
      assert mempool - rest == map[];
      NoValues();
      while rest != {}
        invariant rest <= mempool.Keys
        invariant multiset(txs) == ValuesOf(mempool - rest)
        invariant forall tx :: tx in txs ==> tx in mempool.Values
        invariant forall h :: h in mempool && h !in rest ==> mempool[h] in txs
        decreases |rest|
      {
        var h :| h in rest;
        ValuesTaken(mempool, rest, h);
        txs := txs + [mempool[h]];
        rest := rest - {h};
      }
      assert mempool - rest == mempool;
    }

    method MempoolRemove(h: Hash256)
      modifies this`mempool
      ensures mempool == old(mempool) - {h}
    {
      mempool := mempool - {h};
    }
  }
}
