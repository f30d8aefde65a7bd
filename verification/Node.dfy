/** The node around the chain: what it does with each outcome, the buffer of
    blocks waiting for a parent, and the cascade when a parent arrives. One
    call of AcceptAndBroadcast is one step; broadcasts are not modelled. */
module NodeModule {
  import opened Primitives
  import opened Protocol
  import opened BlockTree
  import opened ForkChoice
  import opened Runs
  import opened Epochs
  import opened Replayed
  import opened Templates
  import opened Answers
  import Merkle
  import opened ChainStore
  import opened ChainModule
  import opened Mempool

  type Buffer = map<Hash256, seq<Block>>

  /** All buffered blocks, with multiplicity. */
  ghost function Buffered(m: Buffer): multiset<Block> {
    if m == map[] then multiset{}
    else
      var k :| k in m;
      multiset(m[k]) + Buffered(m - {k})
  }

  lemma {:induction false} BufferedPick(m: Buffer, k: Hash256)
    requires k in m
    ensures Buffered(m) == multiset(m[k]) + Buffered(m - {k})
  {
    var l :| l in m && Buffered(m) == multiset(m[l]) + Buffered(m - {l});
    if l != k {
      BufferedPick(m - {l}, k);
      BufferedPick(m - {k}, l);
      assert m - {l} - {k} == m - {k} - {l};
    }
  }

  function Waiting(m: Buffer, k: Hash256): seq<Block> {
    if k in m then m[k] else []
  }

  lemma BufferedPush(m: Buffer, k: Hash256, b: Block)
    ensures Buffered(m[k := Waiting(m, k) + [b]]) == Buffered(m) + multiset{b}
  {
    hide Buffered;
    var n := m[k := Waiting(m, k) + [b]];
    BufferedPick(n, k);
    assert n - {k} == m - {k};
    if k in m {
      BufferedPick(m, k);
    } else {
      assert m - {k} == m;
    }
  }

  function InsertAll(p: Params, pool: map<Hash256, Transaction>, txs: seq<Transaction>): map<Hash256, Transaction> {
    if txs == [] then pool
    else InsertAll(p, pool, txs[..|txs| - 1])[p.txHash(txs[|txs| - 1]) := txs[|txs| - 1]]
  }

  lemma {:induction false} InsertAllKeys(p: Params, pool: map<Hash256, Transaction>, txs: seq<Transaction>)
    ensures InsertAll(p, pool, txs).Keys == pool.Keys + HashSet(p, txs)
  {
    if txs != [] {
      var init, last := txs[..|txs| - 1], txs[|txs| - 1];
      InsertAllKeys(p, pool, init);
      HashSetConcat(p, init, [last]);
      assert txs == init + [last] && HashSet(p, [last]) == {p.txHash(last)};
    }
  }

  /** The pool after a step's outcome was handled. */
  function PoolAfter(p: Params, pool: map<Hash256, Transaction>, b: Block, answer: Result<SubmitOutcome, ChainError>)
    : map<Hash256, Transaction>
  {
    match answer
    case Ok(Accepted(_, _, _, requeue)) => InsertAll(p, pool - HashSet(p, b.transactions), requeue)
    case _ => pool
  }

  /** Pending or on the canonical chain: a handled step forgets nothing. */
  lemma {:induction false} KnownKept(p: Params, m: Machine, b: Block, pool: map<Hash256, Transaction>)
    requires Shape(p, m.view)
    ensures var step := SubmitInPlace(p, m, b);
      && Shape(p, step.machine.view)
      && pool.Keys + OnChain(p, m.view) <= PoolAfter(p, pool, b, step.answer).Keys + OnChain(p, step.machine.view)
  {
    hide SubmitInPlace, Shape, OnChain, HashSet;
    NothingLost(p, m, b);
    match SubmitInPlace(p, m, b).answer {
      case Ok(Accepted(_, _, _, requeue)) => InsertAllKeys(p, pool - HashSet(p, b.transactions), requeue);
      case _ =>
    }
  }

  lemma StepSeen(p: Params, m: Machine, b: Block)
    requires Shape(p, m.view)
    ensures var step := SubmitInPlace(p, m, b);
      && (forall h :: h in m.view.blocks ==> h in step.machine.view.blocks)
      && match step.answer
         case Ok(Accepted(hash, _, _, _)) => hash in step.machine.view.blocks
         case Ok(Orphan(parent)) => parent == b.header.prevHash && parent !in step.machine.view.blocks
         case _ => true
  {
    hide SubmitInPlace, Shape, Requeue, UndoList, ApplyList, TxHashSet;
    StepOutcome(p, m, b);
  }

  /** A template with a nonce filled in. */
  function Mined(b: Block, n: U64): Block {
    b.(header := b.header.(nonce := n))
  }

  lemma MinedIsTemplate(p: Params, v: ChainView, b: Block, n: U64)
    requires Shape(p, v) && IsTemplate(p, v, b)
    ensures IsTemplate(p, v, Mined(b, n)) && Mined(b, n).transactions == b.transactions
  {
    hide ExpectedDifficulty, Merkle.TreeRoot;
  }

  /** The hashes accepted while these blocks are submitted, in order. */
  ghost function Unlocked(p: Params, m: Machine, bs: seq<Block>): seq<Hash256>
    requires Shape(p, m.view)
  {
    if bs == [] then []
    else
      var before := bs[..|bs| - 1];
      var answer := SubmitInPlace(p, RunInPlace(p, m, before), bs[|bs| - 1]).answer;
      Unlocked(p, m, before) + if answer.Ok? && answer.value.Accepted? then [answer.value.hash] else []
  }

  /** What a cascade submits: parent after parent in the order in which they were
      accepted, the children of each in the order in which they were buffered. */
  ghost function Order(p: Params, m: Machine, buffer: Buffer, queue: seq<Hash256>): seq<Block>
    requires Shape(p, m.view)
    decreases |Buffered(buffer)| + |buffer| + |queue|, |queue|
  {
    if queue == [] then []
    else if queue[0] !in buffer then Order(p, m, buffer, queue[1..])
    else
      var children := buffer[queue[0]];
      BufferedPick(buffer, queue[0]);
      UnlockedFew(p, m, children);
      children + Order(p, RunInPlace(p, m, children), buffer - {queue[0]}, queue[1..] + Unlocked(p, m, children))
  }

  lemma {:induction false} UnlockedFew(p: Params, m: Machine, bs: seq<Block>)
    requires Shape(p, m.view)
    ensures |Unlocked(p, m, bs)| <= |bs|
  {
    hide SubmitInPlace, RunInPlace, Shape;
    if bs != [] {
      UnlockedFew(p, m, bs[..|bs| - 1]);
    }
  }

  lemma UnlockedSnoc(p: Params, m: Machine, bs: seq<Block>, b: Block)
    requires Shape(p, m.view)
    ensures var answer := SubmitInPlace(p, RunInPlace(p, m, bs), b).answer;
      Unlocked(p, m, bs + [b])
      == Unlocked(p, m, bs) + if answer.Ok? && answer.value.Accepted? then [answer.value.hash] else []
  {
    hide SubmitInPlace, RunInPlace, Shape;
    assert (bs + [b])[..|bs|] == bs;
  }

  lemma OrderNext(p: Params, m: Machine, buffer: Buffer, queue: seq<Hash256>)
    requires Shape(p, m.view) && queue != []
    ensures queue[0] !in buffer ==> Order(p, m, buffer, queue) == Order(p, m, buffer, queue[1..])
    ensures queue[0] in buffer ==>
      var children := buffer[queue[0]];
      Order(p, m, buffer, queue)
      == children + Order(p, RunInPlace(p, m, children), buffer - {queue[0]}, queue[1..] + Unlocked(p, m, children))
  {
    hide RunInPlace, Unlocked, Shape, Buffered;
  }

  lemma Regroup<T>(a: seq<T>, b: seq<T>, c: seq<T>)
    ensures a + (b + c) == a + b + c
  {
  }

  lemma OrderEnd(p: Params, m: Machine, buffer: Buffer)
    requires Shape(p, m.view)
    ensures Order(p, m, buffer, []) == []
  {
  }

  class Node {
    const chain: Chain
    var orphans: Buffer
    /** Hashes returned as Accepted so far. */
    ghost var accepted: set<Hash256>

    constructor (chain: Chain)
      requires chain.Valid()
      ensures this.chain == chain && Valid()
      ensures orphans == map[] && accepted == {}
    {
      this.chain := chain;
      this.orphans := map[];
      this.accepted := {};
    }

    ghost predicate Valid()
      reads this, chain.state`blocks, chain.state`tip, chain.state`heights, chain.state`chainwork
    {
      && chain.Valid()
      && (forall k, b :: k in orphans && b in orphans[k] ==> b.header.prevHash == k && WorkedOnce(chain.p, b))
      && accepted <= chain.state.blocks.Keys
    }

    /** Nothing waits for a block that was accepted. */
    ghost predicate Settled()
      reads this
    {
      accepted !! orphans.Keys
    }

    /** Every transaction the node still has: pending or on the canonical chain. */
    ghost function KnownTransactions(): set<Hash256>
      reads chain`cache, chain.state
      requires chain.Valid()
    {
      chain.state.mempool.Keys + OnChain(chain.p, chain.View())
    }

    /** Reacts to the outcome of one block. */
    method HandleOutcome(block: Block, outcome: SubmitOutcome)
      requires Valid()
      modifies this`orphans, this`accepted, chain.state`mempool
      ensures chain.Valid()
      ensures chain.state.mempool == match outcome
        case Accepted(_, _, _, requeue) =>
          InsertAll(chain.p, old(chain.state.mempool) - HashSet(chain.p, block.transactions), requeue)
        case _ => old(chain.state.mempool)
      ensures orphans == match outcome
        case Orphan(parent) => old(orphans)[parent := Waiting(old(orphans), parent) + [block]]
        case _ => old(orphans)
      ensures accepted == match outcome
        case Accepted(hash, _, _, _) => old(accepted) + {hash}
        case _ => old(accepted)
    {
      hide Chain.Valid, HashSet, InsertAll, Waiting;
      match outcome {
        case Accepted(hash, _, _, requeue) =>
          accepted := accepted + {hash};
          UpdateMempool(block, requeue);
        case SideBranch(_, _) =>
        case AlreadyKnown =>
        case Orphan(parent) =>
          orphans := orphans[parent := Waiting(orphans, parent) + [block]];
      }
    }

    /** Drops what the block mined, then puts back what a fork displaced. */
    method UpdateMempool(block: Block, requeue: seq<Transaction>)
      requires chain.Valid()
      modifies chain.state`mempool
      ensures chain.Valid()
      ensures chain.state.mempool ==
        InsertAll(chain.p, old(chain.state.mempool) - HashSet(chain.p, block.transactions), requeue)
    {
      hide Chain.Valid, HashSet;
      var txs := block.transactions;
      HashSetPrefix(chain.p, txs, 0);
      for i := 0 to |txs|
        invariant chain.state.mempool == old(chain.state.mempool) - HashSet(chain.p, txs[..i])
      {
        HashSetPrefix(chain.p, txs, i);
        chain.state.MempoolRemove(chain.p.txHash(txs[i]));
      }
      assert txs[..|txs|] == txs;
      ghost var base := chain.state.mempool;
      for i := 0 to |requeue|
        invariant chain.state.mempool == InsertAll(chain.p, base, requeue[..i])
      {
        assert requeue[..i + 1][..i] == requeue[..i];
        chain.state.MempoolInsert(chain.p, requeue[i]);
      }
      assert requeue[..|requeue|] == requeue;
    }

    /** Submits one block and reacts to the outcome. */
    method Process(block: Block) returns (r: Result<SubmitOutcome, ChainError>)
      requires Valid()
      modifies this`orphans, this`accepted, chain`cache, chain.state
      ensures Valid()
      ensures MachineStep(chain.Model(), r) == SubmitInPlace(chain.p, old(chain.Model()), block)
      ensures old(KnownTransactions()) <= KnownTransactions()
      ensures forall h :: h in old(chain.state.blocks) ==> h in chain.state.blocks
      ensures orphans == if r.Ok? && r.value.Orphan?
        then old(orphans)[block.header.prevHash := Waiting(old(orphans), block.header.prevHash) + [block]]
        else old(orphans)
      ensures r.Ok? && r.value.Orphan? ==> block.header.prevHash !in chain.state.blocks
      ensures accepted == if r.Ok? && r.value.Accepted? then old(accepted) + {r.value.hash} else old(accepted)
    {
      hide Chain.Valid, SubmitInPlace, Shape, OnChain, HashSet, InsertAll, WorkedOnce;
      chain.ShapeFacts();
      ghost var before, pool := chain.Model(), chain.state.mempool;
      KnownKept(chain.p, before, block, pool);
      OrphanIsWorked(chain.p, before, block);
      StepSeen(chain.p, before, block);
      r := chain.SubmitBlock(block);
      if r.Ok? {
        HandleOutcome(block, r.value);
      }
      assert chain.state.mempool == PoolAfter(chain.p, pool, block, r);
    }

    /** Submits the blocks that waited for a parent now accepted. None of them
        can be an orphan again, so nothing is put back in the buffer. */
    method ProcessChildren(children: seq<Block>, parent: Hash256, ghost start: Machine, ghost before: seq<Block>)
      returns (unlocked: seq<Hash256>)
      requires Valid() && parent in chain.state.blocks
      requires forall b :: b in children ==> b.header.prevHash == parent
      requires Shape(chain.p, start.view) && chain.Model() == RunInPlace(chain.p, start, before)
      modifies this`orphans, this`accepted, chain`cache, chain.state
      ensures Valid() && orphans == old(orphans)
      ensures chain.Model() == RunInPlace(chain.p, start, before + children)
      ensures Shape(chain.p, old(chain.Model()).view)
      ensures chain.Model() == RunInPlace(chain.p, old(chain.Model()), children)
      ensures old(KnownTransactions()) <= KnownTransactions()
      ensures |unlocked| <= |children| && unlocked == Unlocked(chain.p, old(chain.Model()), children)
      ensures old(accepted) <= accepted && forall h :: h in unlocked ==> h in accepted
      ensures forall h :: h in accepted ==> h in old(accepted) || h in unlocked
    {
      hide Chain.Valid, Chain.Model, RunInPlace, Shape, KnownTransactions, SubmitInPlace;
      chain.ShapeFacts();
      ghost var first := chain.Model();
      unlocked := [];
      RunOfNone(chain.p, first);
      assert before + children[..0] == before && children[..0] == [];
      for i := 0 to |children|
        invariant Valid() && orphans == old(orphans) && parent in chain.state.blocks
        invariant chain.Model() == RunInPlace(chain.p, start, before + children[..i])
        invariant old(KnownTransactions()) <= KnownTransactions()
        invariant chain.Model() == RunInPlace(chain.p, first, children[..i])
        invariant |unlocked| <= i && unlocked == Unlocked(chain.p, first, children[..i])
        invariant old(accepted) <= accepted && forall h :: h in unlocked ==> h in accepted
        invariant forall h :: h in accepted ==> h in old(accepted) || h in unlocked
      {
        InPlaceSnoc(chain.p, start, before + children[..i], children[i]);
        assert before + children[..i + 1] == before + children[..i] + [children[i]];
        InPlaceSnoc(chain.p, first, children[..i], children[i]);
        UnlockedSnoc(chain.p, first, children[..i], children[i]);
        assert children[..i + 1] == children[..i] + [children[i]];
        var answer := Process(children[i]);
        match answer {
          case Ok(Accepted(hash, _, _, _)) => unlocked := unlocked + [hash];
          case _ =>
        }
      }
      assert children[..|children|] == children;
    }

    /** Retries what waited for an accepted hash, then what waited for those, and
        so on until nothing more is unlocked. */
    method Cascade(first: Hash256, ghost start: Machine, ghost before: seq<Block>) returns (ghost log: seq<Block>)
      requires Valid() && first in accepted
      requires forall h :: h in accepted && h in orphans ==> h == first
      requires Shape(chain.p, start.view) && chain.Model() == RunInPlace(chain.p, start, before)
      modifies this`orphans, this`accepted, chain`cache, chain.state
      ensures Valid() && Settled()
      ensures chain.Model() == RunInPlace(chain.p, start, before + log)
      ensures old(KnownTransactions()) <= KnownTransactions()
      ensures Buffered(orphans) + multiset(log) == old(Buffered(orphans))
      ensures Shape(chain.p, old(chain.Model()).view)
      ensures log == Order(chain.p, old(chain.Model()), old(orphans), [first])
    {
      hide Chain.Valid, Chain.Model, RunInPlace, Shape, KnownTransactions, Buffered, Order, Unlocked, WorkedOnce;
      chain.ShapeFacts();
      ghost var all := Order(chain.p, chain.Model(), orphans, [first]);
      var queue := [first];
      log := [];
      assert before + log == before;
      while queue != []
        invariant Valid()
        invariant forall h :: h in queue ==> h in accepted
        invariant forall h :: h in accepted && h in orphans ==> h in queue
        invariant chain.Model() == RunInPlace(chain.p, start, before + log)
        invariant old(KnownTransactions()) <= KnownTransactions()
        invariant Buffered(orphans) + multiset(log) == old(Buffered(orphans))
        invariant Shape(chain.p, chain.Model().view)
        invariant log + Order(chain.p, chain.Model(), orphans, queue) == all
        decreases |Buffered(orphans)| + |queue|
      {
        OrderNext(chain.p, chain.Model(), orphans, queue);
        assert queue == [queue[0]] + queue[1..];
        var h := queue[0];
        queue := queue[1..];
        if h in orphans {
          BufferedPick(orphans, h);
          var children := orphans[h];
          orphans := orphans - {h};
          var unlocked := ProcessChildren(children, h, start, before + log);
          queue := queue + unlocked;
          Regroup(before, log, children);
          Regroup(log, children, Order(chain.p, chain.Model(), orphans, queue));
          log := log + children;
          chain.ShapeFacts();
        }
      }
      OrderEnd(chain.p, chain.Model(), orphans);
    }

    /** Feeds one block through the chain and everything it unlocks. */
    method AcceptAndBroadcast(block: Block) returns (r: Result<SubmitOutcome, ChainError>, ghost log: seq<Block>)
      requires Valid() && Settled()
      modifies this`orphans, this`accepted, chain`cache, chain.state
      ensures Valid() && Settled()
      ensures log != [] && log[0] == block
      ensures r == SubmitInPlace(chain.p, old(chain.Model()), block).answer
      ensures chain.Model() == RunInPlace(chain.p, old(chain.Model()), log)
      ensures old(KnownTransactions()) <= KnownTransactions()
      ensures Buffered(orphans) + multiset(log[1..])
           == old(Buffered(orphans)) + if r.Ok? && r.value.Orphan? then multiset{block} else multiset{}
      ensures !(r.Ok? && r.value.Accepted?) ==> log == [block]
      ensures Shape(chain.p, SubmitInPlace(chain.p, old(chain.Model()), block).machine.view)
      ensures log == [block] +
        if r.Ok? && r.value.Accepted? then
          Order(chain.p, SubmitInPlace(chain.p, old(chain.Model()), block).machine, old(orphans), [r.value.hash])
        else []
      ensures !(r.Ok? && (r.value.Accepted? || r.value.Orphan?)) ==> orphans == old(orphans)
      ensures Affordable(chain.p, chain.Model().view) && Shape(chain.p, old(chain.Model()).view)
              && InSync(chain.p, old(chain.Model())) && Best(chain.p, old(chain.Model()).view) ==>
        Shape(chain.p, chain.Model().view) && InSync(chain.p, chain.Model()) && Best(chain.p, chain.Model().view)
      ensures FirstEpoch(chain.p, old(chain.Model()).view) ==> FirstEpoch(chain.p, chain.Model().view)
    {
      hide Chain.Valid, Chain.Model, RunInPlace, Shape, KnownTransactions, Buffered, SubmitInPlace, InSync, Best,
           FirstEpoch, Affordable, Order;
      chain.ShapeFacts();
      InPlaceKeepsShape(chain.p, chain.Model(), block);
      ghost var start := chain.Model();
      RunOfNone(chain.p, start);
      InPlaceSnoc(chain.p, start, [], block);
      r := Process(block);
      log := [block];
      assert [] + [block] == [block];
      match r {
        case Ok(Accepted(hash, _, _, _)) =>
          ghost var rest := Cascade(hash, start, log);
          log := log + rest;
        case Ok(Orphan(_)) =>
          BufferedPush(old(orphans), block.header.prevHash, block);
        case _ =>
      }
      RunKeeps(chain.p, start, log);
    }

    /** A transaction sent by a wallet or a peer. */
    method SubmitTx(tx: Transaction) returns (stored: bool)
      requires Valid()
      modifies chain.state`mempool
      ensures Valid()
      ensures stored == chain.p.signatureValid(tx)
      ensures chain.state.mempool ==
        if stored then old(chain.state.mempool)[chain.p.txHash(tx) := tx] else old(chain.state.mempool)
      ensures old(KnownTransactions()) <= KnownTransactions()
    {
      hide Chain.Valid;
      stored := chain.p.signatureValid(tx);
      if stored {
        chain.state.MempoolInsert(chain.p, tx);
      }
    }

    /** A template for a miner over everything pending; reading drains nothing.
        While a pending transaction is stale, no block mined from it is accepted. */
    method GetWork(miner: Address, now: U64) returns (r: Result<(Block, Hash256), ChainError>)
      requires Valid()
      modifies chain`cache
      ensures Valid() && KnownTransactions() == old(KnownTransactions())
      ensures r.Ok? <==> SeedFor(chain.p, old(chain.View()), chain.state.tip.value.height + 1).Ok?
      ensures FirstEpoch(chain.p, old(chain.View())) ==>
        FirstEpoch(chain.p, chain.View()) && (r.Ok? <==> chain.state.tip.value.height + 1 < EPOCH_LENGTH)
      ensures r.Ok? ==>
        && IsTemplate(chain.p, chain.View(), r.value.0)
        && multiset(r.value.0.transactions) == ValuesOf(chain.state.mempool)
        && SeedFor(chain.p, chain.View(), r.value.0.header.height) == Ok(r.value.1)
      ensures Shape(chain.p, chain.View())
      ensures r.Ok? && Best(chain.p, chain.View()) && InSync(chain.p, chain.Model()) ==>
        forall tx, n: U64 :: tx in chain.state.mempool.Values && Stale(chain.p, chain.Model().ledger, tx) ==>
          NotAccepted(chain.p, chain.View(), Mined(r.value.0, n))
    {
      hide Chain.Valid, Shape, IsTemplate, SeedFor, FirstEpoch, ValuesOf, TxHashSet, Stale, NotAccepted, Best;
      var pending := chain.state.MempoolAll();
      ghost var before := chain.View();
      chain.ShapeFacts();
      r := chain.WorkTemplate(miner, pending, now);
      if FirstEpoch(chain.p, before) {
        WarmedInFirstEpoch(chain.p, before, chain.View(), chain.state.tip.value.height + 1);
      }
      chain.ShapeFacts();
      if r.Ok? && Best(chain.p, chain.View()) && InSync(chain.p, chain.Model()) {
        forall tx, n: U64 | tx in chain.state.mempool.Values && Stale(chain.p, chain.Model().ledger, tx)
          ensures NotAccepted(chain.p, chain.View(), Mined(r.value.0, n))
        {
          MinedIsTemplate(chain.p, chain.View(), r.value.0, n);
          StaleNotAccepted(chain.p, chain.View(), Mined(r.value.0, n), tx);
        }
      }
    }
  }

  lemma RunOfNone(p: Params, m: Machine)
    requires Shape(p, m.view)
    ensures RunInPlace(p, m, []) == m
  {
  }

  lemma RunKeeps(p: Params, m: Machine, bs: seq<Block>)
    requires Shape(p, m.view)
    ensures Affordable(p, RunInPlace(p, m, bs).view) && InSync(p, m) && Best(p, m.view) ==>
      InSync(p, RunInPlace(p, m, bs)) && Best(p, RunInPlace(p, m, bs).view)
    ensures FirstEpoch(p, m.view) ==> FirstEpoch(p, RunInPlace(p, m, bs).view)
  {
    hide *;
    if Affordable(p, RunInPlace(p, m, bs).view) && InSync(p, m) && Best(p, m.view) {
      RunStaysInSync(p, m, bs);
    }
    if FirstEpoch(p, m.view) {
      RunInFirstEpoch(p, m, bs);
    }
  }

  lemma InPlaceSnoc(p: Params, m: Machine, bs: seq<Block>, b: Block)
    requires Shape(p, m.view)
    ensures RunInPlace(p, m, bs + [b]) == SubmitInPlace(p, RunInPlace(p, m, bs), b).machine
  {
    assert (bs + [b])[..|bs|] == bs;
  }

  lemma HashSetPrefix(p: Params, txs: seq<Transaction>, i: nat)
    requires i <= |txs|
    ensures HashSet(p, txs[..0]) == {}
    ensures i < |txs| ==> HashSet(p, txs[..i + 1]) == HashSet(p, txs[..i]) + {p.txHash(txs[i])}
  {
    if i < |txs| {
      HashSetConcat(p, txs[..i], [txs[i]]);
      assert txs[..i + 1] == txs[..i] + [txs[i]] && HashSet(p, [txs[i]]) == {p.txHash(txs[i])};
    }
  }
}
