/** Two blocks under one hash. The root does not fix the number of transactions,
    and the chain inherits that: the place of a good block can be taken by another
    one exactly if its number of transactions is at least 3 and not a power of two. */
module Twins {
  import opened Primitives
  import opened Protocol
  import opened Ledger
  import opened BlockTree
  import opened ForkChoice
  import opened Runs
  import opened Replayed
  import opened Rejected
  import opened Templates
  import opened MerkleLevels
  import Merkle

  /** The block with its last transactions repeated, as many as the largest power
      of two that divides their number. */
  function Copied(b: Block): Block
    requires b.transactions != []
  {
    b.(transactions := Padded(b.transactions))
  }

  /** Fit to become the tip, and not stored yet. */
  ghost predicate Good(p: Params, v: ChainView, b: Block, hash: Hash256)
    requires Shape(p, v)
  {
    && IsTemplate(p, v, b) && b.header.height < EPOCH_LENGTH && b.header.difficulty >= 1
    && hash == p.powHash(b.header, p.epochSeed(None)) && hash !in v.blocks
    && MeetsDifficulty(hash, b.header.difficulty) && ValidSignatures(p, b.transactions)
    && Replay(p, v.blocks, v.tip).Ok?
    && ApplyBlock(p, Replay(p, v.blocks, v.tip).value, Entry(hash, b)).Ok?
  }

  // ----- a place that can be taken -----

  lemma {:induction false} PaddedTxHashes(p: Params, txs: seq<Transaction>)
    requires txs != []
    ensures p.TxHashes(Padded(txs)) == Padded(p.TxHashes(txs))
  {
    hide LowBit;
  }

  lemma {:induction false} CopyIsTemplate(p: Params, v: ChainView, b: Block)
    requires Shape(p, v) && IsTemplate(p, v, b)
    requires b.transactions != [] && !PowerOfTwo(|b.transactions|)
    ensures IsTemplate(p, v, Copied(b)) && Copied(b).header == b.header
    ensures ValidSignatures(p, b.transactions) ==> ValidSignatures(p, Copied(b).transactions)
  {
    hide Merkle.TreeRoot, ExpectedDifficulty, Padded, PowerOfTwo;
    PaddedTxHashes(p, b.transactions);
    PaddedKeepsRoot(p.pairHash, p.TxHashes(b.transactions));
  }

  /** A nonce is good once: the first repeated transaction fails. */
  lemma {:induction false} PaddedFails(p: Params, l: Ledger, txs: seq<Transaction>)
    requires txs != [] && ApplyTxs(p, l, txs).Ok?
    ensures ApplyTxs(p, l, Padded(txs)) == Err(BadNonce)
  {
    hide Lookup, Credit, LowBit;
    var tail := txs[|txs| - LowBit(|txs|)..];
    var again := txs + [tail[0]];
    DoneIsStale(p, l, txs, tail[0]);
    assert again[..|txs|] == txs && ApplyTxs(p, l, again) == Err(BadNonce);
    FailureStays(p, l, again, tail[1..]);
    assert again + tail[1..] == Padded(txs);
  }

  lemma CopyFails(p: Params, l: Ledger, hash: Hash256, b: Block)
    requires b.transactions != [] && ApplyBlock(p, l, Entry(hash, b)).Ok?
    ensures ApplyBlock(p, l, Entry(hash, Copied(b))) == Err(InvalidTxNonce(hash, b.header.height))
  {
    PaddedFails(p, l, b.transactions);
  }

  /** Submitted before the block itself, the copy is stored under the hash of
      both, fails, and out-works the tip. */
  lemma {:induction false} CopyIsStored(p: Params, bs: seq<Block>, b: Block, hash: Hash256)
    requires Good(p, After(p, bs), b, hash)
    requires b.transactions != [] && !PowerOfTwo(|b.transactions|)
    ensures var v, step := After(p, bs), Submit(p, After(p, bs), Copied(b));
      && step.view == After(p, bs + [Copied(b)])
      && step.answer == Err(InvalidTxNonce(hash, b.header.height))
      && step.view.tip == v.tip && step.view.blocks == v.blocks[hash := Copied(b)]
      && OutWorks(p, step.view, hash)
      && OffForGood(p, step.view, hash, Copied(b), Work(step.view.blocks, p.genesis.hash, hash))
  {
    var v := After(p, bs);
    AfterSnoc(p, bs, Copied(b));
    CopyIsTemplate(p, v, b);
    CopyFails(p, Replay(p, v.blocks, v.tip).value, hash, b);
    hide *;
    TemplateIsAccepted(p, bs, Copied(b));
    StoredOff(p, Submit(p, v, Copied(b)).view, hash, Copied(b));
  }

  /** Whatever is submitted later, the copy is never replaced, its hash never
      becomes the tip, and the good block is answered AlreadyKnown. */
  lemma {:induction false} CopyTakesThePlace(p: Params, bs: seq<Block>, b: Block, hash: Hash256, more: seq<Block>)
    requires Good(p, After(p, bs), b, hash)
    requires b.transactions != [] && !PowerOfTwo(|b.transactions|)
    ensures var w := After(p, bs + [Copied(b)] + more);
      && hash in w.blocks && w.blocks[hash] == Copied(b) && w.tip != hash
      && Submit(p, w, b).answer == Ok(AlreadyKnown) && Unmoved(w, Submit(p, w, b).view)
  {
    var all, start := bs + [Copied(b)], After(p, bs + [Copied(b)]);
    CopyIsStored(p, bs, b, hash);
    assert b.header.height > 0;
    hide IsTemplate, MeetsDifficulty, ValidSignatures, ApplyBlock, Replay, Work, Shape, Submit, Copied, PowerOfTwo;
    StartHasShape(p);
    RunConcat(p, Start(p), all, more);
    NeverTheTip(p, start, more, hash, Copied(b), Work(start.blocks, p.genesis.hash, hash));
    KnownHash(p, all + more, b);
    AnsweredOnly(p, After(p, all + more), b);
  }

  // ----- a place that cannot be taken -----

  /** No hash collides between the two blocks: not that of their headers, of their
      transactions, nor inside the trees over their transactions. */
  ghost predicate HonestHashes(p: Params, b: Block, d: Block) {
    var seed := p.epochSeed(None);
    && (p.powHash(d.header, seed) == p.powHash(b.header, seed) ==> d.header == b.header)
    && Honest(p.pairHash, p.TxHashes(b.transactions), p.TxHashes(d.transactions))
    && SeparateTxHashes(p, b.transactions + d.transactions)
  }

  ghost predicate SeparateTxHashes(p: Params, txs: seq<Transaction>) {
    forall x, y :: x in txs && y in txs && p.txHash(x) == p.txHash(y) ==> x == y
  }

  lemma {:induction false} DistinctHashes(p: Params, l: Ledger, txs: seq<Transaction>)
    requires ApplyTxs(p, l, txs).Ok? && SeparateTxHashes(p, txs)
    ensures Distinct(p.TxHashes(txs))
  {
    hide ApplyTxs;
    forall i, j | 0 <= i < j < |txs| ensures p.TxHashes(txs)[i] != p.TxHashes(txs)[j] {
      NoneTwice(p, l, txs, i, j);
    }
  }

  lemma SameTxHashes(p: Params, txs: seq<Transaction>, other: seq<Transaction>)
    requires SeparateTxHashes(p, txs + other) && p.TxHashes(txs) == p.TxHashes(other)
    ensures txs == other
  {
    assert |p.TxHashes(txs)| == |txs| == |other|;
    forall i | 0 <= i < |txs| ensures txs[i] == other[i] {
      assert p.TxHashes(txs)[i] == p.TxHashes(other)[i];
      assert (txs + other)[i] == txs[i] && (txs + other)[|txs| + i] == other[i];
    }
  }

  lemma FewerTransactions(p: Params, txs: seq<Transaction>, other: seq<Transaction>)
    requires SeparateTxHashes(p, txs + other)
    ensures SeparateTxHashes(p, txs)
  {
    forall x, y | x in txs && y in txs && p.txHash(x) == p.txHash(y) ensures x == y {
      assert x in txs + other && y in txs + other;
    }
  }

  /** A block that can be carried out, with no transactions or a power of two of
      them: after any run, what is stored under its hash is the block itself. */
  lemma {:induction false} OnlyItself(p: Params, bs: seq<Block>, l: Ledger, b: Block, hash: Hash256)
    requires hash in After(p, bs).blocks && hash != p.genesis.hash && hash == p.powHash(b.header, p.epochSeed(None))
    requires b.header.txRoot == Merkle.TreeRoot(p.pairHash, p.TxHashes(b.transactions))
    requires ApplyTxs(p, l, b.transactions).Ok?
    requires b.transactions == [] || PowerOfTwo(|b.transactions|)
    requires HonestHashes(p, b, After(p, bs).blocks[hash])
    ensures After(p, bs).blocks[hash] == b
  {
    hide Merkle.TreeRoot, Honest, Run, ApplyTxs, PowerOfTwo, Distinct, SeparateTxHashes;
    var stored := After(p, bs).blocks[hash];
    RunIsVetted(p, bs);
    FewerTransactions(p, b.transactions, stored.transactions);
    DistinctHashes(p, l, b.transactions);
    RootFixesPowerOfTwo(p.pairHash, p.TxHashes(b.transactions), p.TxHashes(stored.transactions));
    SameTxHashes(p, b.transactions, stored.transactions);
  }

  /** Whatever their number, a stored block with as many transactions is the block itself. */
  lemma {:induction false} OnlyAnotherLength(p: Params, bs: seq<Block>, b: Block, hash: Hash256)
    requires hash in After(p, bs).blocks && hash != p.genesis.hash && hash == p.powHash(b.header, p.epochSeed(None))
    requires b.header.txRoot == Merkle.TreeRoot(p.pairHash, p.TxHashes(b.transactions))
    requires var stored := After(p, bs).blocks[hash];
      && |stored.transactions| == |b.transactions|
      && (p.powHash(stored.header, p.epochSeed(None)) == hash ==> stored.header == b.header)
      && Merkle.NoCollision(p.pairHash, p.TxHashes(stored.transactions), p.TxHashes(b.transactions))
      && SeparateTxHashes(p, stored.transactions + b.transactions)
    ensures After(p, bs).blocks[hash] == b
  {
    hide Merkle.TreeRoot, Merkle.NoCollision, Run, SeparateTxHashes;
    var stored := After(p, bs).blocks[hash];
    RunIsVetted(p, bs);
    Merkle.RootFixesList(p.pairHash, p.TxHashes(stored.transactions), p.TxHashes(b.transactions));
    SameTxHashes(p, stored.transactions, b.transactions);
  }

  // ----- exactly when -----

  /** Another block that a submission stores under the hash. */
  ghost predicate Taken(p: Params, v: ChainView, b: Block, hash: Hash256, d: Block)
    requires Shape(p, v)
  {
    var s := Submit(p, v, d).view.blocks;
    d != b && HonestHashes(p, b, d) && hash in s && s[hash] == d
  }

  lemma SmallCounts(n: nat)
    ensures n >= 3 && !PowerOfTwo(n) <==> n != 0 && !PowerOfTwo(n)
  {
    assert LowBit(1) == 1 && LowBit(2) == 2 * LowBit(1);
  }

  lemma {:induction false} CopyIsHonest(p: Params, b: Block)
    requires b.transactions != [] && !PowerOfTwo(|b.transactions|) && HonestHashes(p, b, b)
    ensures HonestHashes(p, b, Copied(b)) && Copied(b) != b
  {
    hide Padded, PowerOfTwo, Hashed, CollisionFree, LeafOnly;
    PaddedLonger(b.transactions);
    PaddedTxHashes(p, b.transactions);
    PaddedHashed(p.pairHash, p.TxHashes(b.transactions));
  }

  /** The place of a good block whose own hashes do not collide can be taken, by
      way of nothing but the shape of the tree, exactly if the number of its
      transactions is at least 3 and not a power of two. */
  lemma {:induction false} PlaceTakenIff(p: Params, bs: seq<Block>, b: Block, hash: Hash256)
    requires Good(p, After(p, bs), b, hash) && HonestHashes(p, b, b)
    ensures (exists d :: Taken(p, After(p, bs), b, hash, d))
       <==> |b.transactions| >= 3 && !PowerOfTwo(|b.transactions|)
  {
    SmallCounts(|b.transactions|);
    var v := After(p, bs);
    if b.transactions != [] && !PowerOfTwo(|b.transactions|) {
      hide Good, HonestHashes, PowerOfTwo, Submit, After, Copied;
      CopyIsStored(p, bs, b, hash);
      CopyIsHonest(p, b);
      assert Taken(p, v, b, hash, Copied(b));
    } else {
      forall d ensures !Taken(p, v, b, hash, d) {
        if Taken(p, v, b, hash, d) {
          NotTaken(p, bs, b, hash, d);
        }
      }
    }
  }

  lemma {:induction false} NotTaken(p: Params, bs: seq<Block>, b: Block, hash: Hash256, d: Block)
    requires Good(p, After(p, bs), b, hash) && (b.transactions == [] || PowerOfTwo(|b.transactions|))
    ensures !Taken(p, After(p, bs), b, hash, d)
  {
    var v := After(p, bs);
    hide Submit, PowerOfTwo, HonestHashes, MeetsDifficulty, ValidSignatures, Run, Replay;
    AfterSnoc(p, bs, d);
    assert hash != p.genesis.hash;
    if Taken(p, v, b, hash, d) {
      OnlyItself(p, bs + [d], Replay(p, v.blocks, v.tip).value, b, hash);
    }
  }
}
