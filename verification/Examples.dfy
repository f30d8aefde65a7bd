/** Concrete runs that show where two properties end: a stored block that
    out-works the tip, and balances that are no replay of the chain. */
module Examples {
  import opened Primitives
  import opened Protocol
  import opened Ledger
  import opened Emission
  import opened BlockTree
  import opened ForkChoice
  import opened Runs
  import opened Epochs
  import opened Rejected
  import opened Templates
  import opened Twins
  import opened MerkleLevels
  import Difficulty
  import Merkle

  function HashOf(n: Byte): Hash256 {
    Hash256(Repeat(n, 32))
  }

  lemma HashesDiffer(m: Byte, n: Byte)
    requires m != n
    ensures HashOf(m) != HashOf(n)
  {
    assert Repeat(m, 32)[31] == m && Repeat(n, 32)[31] == n;
  }

  /** Three bytes that tell the hashes of transactions and of inner nodes apart. */
  function Mark(a: Byte, b: Byte, c: Byte): Hash256 {
    Hash256([a, b, c] + Repeat(0, 29))
  }

  /** A network of difficulty 1 whose blocks hash to their nonce; every signature is good. */
  function Toy(premine: seq<(Address, U64)>): Params {
    Params(Genesis(HashOf(0), 0, 1, 1, 1000, 30, 60, premine),
           (key: PublicKey) => Address(key.bytes),
           (tx: Transaction) => Mark(1, tx.accountNonce % 256, 0),
           (tx: Transaction) => true,
           (x: Hash256, y: Hash256) => Mark((x.bytes[0] as int + 1) % 256, x.bytes[1], y.bytes[1]),
           (boundary: Option<Hash256>) => ZERO_HASH,
           (h: Header, seed: Hash256) => HashOf(h.nonce % 256))
  }

  function ToyBlock(p: Params, height: nat, parent: Hash256, n: Byte, miner: Address, txs: seq<Transaction>): Block {
    Block(Header(height, parent, Merkle.TreeRoot(p.pairHash, p.TxHashes(txs)), 0, 1, miner, n), txs)
  }

  lemma EveryHashWins(hash: Hash256)
    ensures MeetsDifficulty(hash, 1)
  {
    hide Difficulty.Pow256, Difficulty.BeValue;
    Difficulty.PowCheckMeaning(hash, 1);
    Difficulty.BeValueBound(hash.bytes);
  }

  lemma ToyReward(premine: seq<(Address, U64)>, height: nat)
    requires height <= 2
    ensures Toy(premine).BlockReward(height) == 1
  {
    assert Toy(premine).HalvingInterval() == 1000;
    assert height / 1000 == 0;
  }

  // ----- a block nobody can pay for -----

  lemma {:induction false} ToyTemplate(premine: seq<(Address, U64)>, n: Byte, miner: Address, txs: seq<Transaction>)
    ensures IsTemplate(Toy(premine), After(Toy(premine), []), ToyBlock(Toy(premine), 1, HashOf(0), n, miner, txs))
    ensures After(Toy(premine), []) == Start(Toy(premine))
  {
    StartHasShape(Toy(premine));
    hide HashOf, Merkle.TreeRoot;
    assert Toy(premine).RetargetWindow() == 60;
  }

  /** A payment out of an empty account: the block is stored, out-works the tip
      and is no tip; so the tip is not the heaviest stored block. */
  lemma {:induction false} UnpaidBlockOutWorks()
    ensures var tx := Transaction(PublicKey([1]), Address([2]), 1, 0, 0, None);
      var p, b := Toy([]), ToyBlock(Toy([]), 1, HashOf(0), 1, Address([3]), [tx]);
      && Submit(p, Start(p), b).answer == Err(InsufficientBalance(HashOf(1), 1))
      && After(p, [b]).tip == HashOf(0) && HashOf(1) in After(p, [b]).blocks
      && OutWorks(p, After(p, [b]), HashOf(1)) && !HeaviestStored(p, After(p, [b]))
  {
    hide Repeat, Submit, ApplyBlock, Replay, Work, MeetsDifficulty, WellFormed, DifficultiesFollow, Run;
    var tx := Transaction(PublicKey([1]), Address([2]), 1, 0, 0, None);
    var p, b := Toy([]), ToyBlock(Toy([]), 1, HashOf(0), 1, Address([3]), [tx]);
    ToyTemplate([], 1, Address([3]), [tx]);
    HashesDiffer(0, 1);
    EveryHashWins(HashOf(1));
    CannotPay(p, tx, Entry(HashOf(1), b));
    AfterSnoc(p, [], b);
    assert [] + [b] == [b];
    assert p.powHash(b.header, p.epochSeed(None)) == HashOf(1);
    PoorGenesis();
    hide *;
    TemplateIsAccepted(p, [], b);
    HeavierStored(p, After(p, [b]), HashOf(1));
  }

  lemma HeavierStored(p: Params, v: ChainView, h: Hash256)
    requires Shape(p, v) && h in v.blocks && v.tip in v.blocks
    requires Work(v.blocks, p.genesis.hash, h) > Work(v.blocks, p.genesis.hash, v.tip)
    ensures OutWorks(p, v, h) && !HeaviestStored(p, v)
  {
    hide Work, WellFormed, DifficultiesFollow;
    assert OutWorks(p, v, h);
  }

  lemma PoorGenesis()
    ensures Shape(Toy([]), Start(Toy([]))) && Replay(Toy([]), Start(Toy([])).blocks, HashOf(0)) == Ok(map[])
    ensures Start(Toy([])).blocks.Keys == {HashOf(0)} && Start(Toy([])).tip == HashOf(0)
  {
    StartHasShape(Toy([]));
  }

  lemma CannotPay(p: Params, tx: Transaction, e: Entry)
    requires tx.amount == 1 && tx.fee == 0 && tx.accountNonce == 0 && e.block.transactions == [tx]
    ensures ApplyBlock(p, map[], e) == Err(InsufficientBalance(e.hash, e.block.header.height))
  {
    OneTransaction(p, map[], tx);
    assert ChargeSender(map[], p.addressOf(tx.from), tx) == Err(TooPoor);
  }

  // ----- a good block whose place can be taken -----

  const PAYER := PublicKey([1])

  /** A free payment to oneself. */
  function Free(nonce: nat): Transaction {
    Transaction(PAYER, Address([1]), 0, 0, nonce, None)
  }

  function ThreePayments(): Block {
    ToyBlock(Toy([]), 1, HashOf(0), 1, Address([3]), [Free(0), Free(1), Free(2)])
  }

  lemma FreePayment(l: Ledger, nonce: nat)
    requires Lookup(l, Address([1])) == Account(0, nonce)
    ensures ApplyTx(Toy([]), l, Free(nonce)).Ok?
    ensures Lookup(ApplyTx(Toy([]), l, Free(nonce)).value, Address([1])) == Account(0, nonce + 1)
  {
  }

  lemma {:induction false} ThreePaymentsApply()
    ensures ApplyTxs(Toy([]), map[], [Free(0), Free(1), Free(2)]).Ok?
  {
    hide ApplyTx, Toy, Free;
    var one, two, three := [Free(0)], [Free(0), Free(1)], [Free(0), Free(1), Free(2)];
    assert one[..0] == [] && two[..1] == one && three[..2] == two;
    FreePayment(map[], 0);
    assert ApplyTxs(Toy([]), map[], one) == ApplyTx(Toy([]), map[], Free(0));
    FreePayment(ApplyTxs(Toy([]), map[], one).value, 1);
    assert ApplyTxs(Toy([]), map[], two) == ApplyTx(Toy([]), ApplyTxs(Toy([]), map[], one).value, Free(1));
    FreePayment(ApplyTxs(Toy([]), map[], two).value, 2);
  }

  lemma MarksDiffer(a: Byte, b: Byte, c: Byte, x: Byte, y: Byte, z: Byte)
    ensures Mark(a, b, c) == Mark(x, y, z) <==> a == x && b == y && c == z
    ensures a != 0 ==> Mark(a, b, c) != ZERO_HASH
  {
    hide Repeat;
    var m, n := [a, b, c] + Repeat(0, 29), [x, y, z] + Repeat(0, 29);
    assert m[0] == a && m[1] == b && m[2] == c && n[0] == x && n[1] == y && n[2] == z;
    ZeroBytes(32);
  }

  lemma {:induction false} ZeroBytes(n: nat)
    ensures n > 0 ==> Repeat(0, n)[0] == 0
  {
    if n > 1 {
      ZeroBytes(n - 1);
    }
  }

  /** The tree over three transactions, level by level. */
  lemma ThreeLeaves()
    ensures var p, leaves := Toy([]), [Mark(1, 0, 0), Mark(1, 1, 0), Mark(1, 2, 0)];
      && p.TxHashes([Free(0), Free(1), Free(2)]) == leaves
      && Above(p.pairHash, leaves) == [Mark(2, 0, 1), Mark(2, 2, 2)]
      && Hashed(p.pairHash, leaves)
         == {(leaves[0], leaves[1]), (leaves[2], leaves[2]), (Mark(2, 0, 1), Mark(2, 2, 2))}
  {
    hide Repeat;
    var pair, leaves := Toy([]).pairHash, [Mark(1, 0, 0), Mark(1, 1, 0), Mark(1, 2, 0)];
    var inner := [Mark(2, 0, 1), Mark(2, 2, 2)];
    assert Pairs(leaves) == [(leaves[0], leaves[1]), (leaves[2], leaves[2])];
    assert Above(pair, leaves) == inner;
    assert Pairs(inner) == [(inner[0], inner[1])];
    assert Hashed(pair, Above(pair, inner)) == {};
    assert Hashed(pair, inner) == {(inner[0], inner[1])};
  }

  /** The three inputs hashed in a tree over three leaves. */
  ghost predicate ThreeInputs(pair: (Hash256, Hash256) -> Hash256, s: seq<Hash256>, u: Hash256, v: Hash256,
                              inputs: set<(Hash256, Hash256)>)
  {
    && |s| == 3 && pair(s[0], s[1]) == u && pair(s[2], s[2]) == v
    && inputs == {(s[0], s[1]), (s[2], s[2]), (u, v)}
  }

  lemma FreeOfCollisions(pair: (Hash256, Hash256) -> Hash256, s: seq<Hash256>, u: Hash256, v: Hash256,
                         inputs: set<(Hash256, Hash256)>)
    requires ThreeInputs(pair, s, u, v, inputs) && u != v && pair(u, v) != u && pair(u, v) != v
    ensures CollisionFree(pair, inputs)
  {
    forall x, y | x in inputs && y in inputs ensures !Collides(pair, x, y) {
      assert x == (s[0], s[1]) || x == (s[2], s[2]) || x == (u, v);
      assert y == (s[0], s[1]) || y == (s[2], s[2]) || y == (u, v);
    }
  }

  lemma NotAmongThree(pair: (Hash256, Hash256) -> Hash256, s: seq<Hash256>, u: Hash256, v: Hash256,
                      inputs: set<(Hash256, Hash256)>, h: Hash256)
    requires ThreeInputs(pair, s, u, v, inputs) && h != u && h != v && h != pair(u, v)
    ensures forall x :: x in inputs ==> pair(x.0, x.1) != h
  {
  }

  lemma HonestOfThree(pair: (Hash256, Hash256) -> Hash256, s: seq<Hash256>, u: Hash256, v: Hash256)
    requires ThreeInputs(pair, s, u, v, Hashed(pair, s))
    requires Distinct([u, v, pair(u, v), ZERO_HASH])
    requires forall leaf :: leaf in s ==> leaf !in [u, v, pair(u, v), ZERO_HASH]
    ensures Honest(pair, s, s)
  {
    var inner, inputs := [u, v, pair(u, v), ZERO_HASH], Hashed(pair, s);
    assert inner[0] != inner[1] && inner[0] != inner[2] && inner[1] != inner[2];
    assert inner[0] != inner[3] && inner[1] != inner[3] && inner[2] != inner[3];
    hide Hashed, CollisionFree, Distinct, ThreeInputs;
    FreeOfCollisions(pair, s, u, v, inputs);
    NotAmongThree(pair, s, u, v, inputs, ZERO_HASH);
    assert inputs + inputs == inputs;
    forall leaf | leaf in s ensures LeafOnly(pair, inputs, leaf) {
      assert leaf !in inner;
      NotAmongThree(pair, s, u, v, inputs, leaf);
    }
  }

  lemma DistinctMarks(ms: seq<(Byte, Byte, Byte)>, hashes: seq<Hash256>)
    requires Distinct(ms) && |hashes| == |ms| + 1 && hashes[|ms|] == ZERO_HASH
    requires forall i :: 0 <= i < |ms| ==> ms[i].0 != 0 && hashes[i] == Mark(ms[i].0, ms[i].1, ms[i].2)
    ensures Distinct(hashes)
  {
    hide Mark, Repeat;
    forall i, j | 0 <= i < j < |hashes| ensures hashes[i] != hashes[j] {
      var other := if j < |ms| then ms[j] else (0, 0, 0);
      assert j < |ms| ==> ms[i] != ms[j];
      MarksDiffer(ms[i].0, ms[i].1, ms[i].2, other.0, other.1, other.2);
    }
  }

  lemma InnerMarks()
    ensures Distinct([Mark(2, 0, 1), Mark(2, 2, 2), Mark(3, 0, 2), ZERO_HASH])
  {
    hide Mark;
    DistinctMarks([(2, 0, 1), (2, 2, 2), (3, 0, 2)], [Mark(2, 0, 1), Mark(2, 2, 2), Mark(3, 0, 2), ZERO_HASH]);
  }

  lemma LeafMarks(n: Byte)
    ensures Mark(1, n, 0) !in [Mark(2, 0, 1), Mark(2, 2, 2), Mark(3, 0, 2), ZERO_HASH]
  {
    hide Mark;
    MarksDiffer(1, n, 0, 2, 0, 1);
    MarksDiffer(1, n, 0, 2, 2, 2);
    MarksDiffer(1, n, 0, 3, 0, 2);
  }

  lemma FreeHash(nonce: nat)
    ensures Toy([]).txHash(Free(nonce)) == Mark(1, nonce % 256, 0)
  {
    hide Mark;
  }

  lemma SeparateFree(i: nat, j: nat)
    requires i < 256 && j < 256 && Toy([]).txHash(Free(i)) == Toy([]).txHash(Free(j))
    ensures i == j
  {
    FreeHash(i);
    FreeHash(j);
    hide Mark, Toy;
    MarksDiffer(1, i, 0, 1, j, 0);
  }

  lemma ThreeTxHashes(txs: seq<Transaction>)
    requires txs == [Free(0), Free(1), Free(2)]
    ensures SeparateTxHashes(Toy([]), txs + txs)
  {
    hide Toy, Free;
    forall x, y | x in txs + txs && y in txs + txs && Toy([]).txHash(x) == Toy([]).txHash(y) ensures x == y {
      var i: nat :| i < 3 && x == Free(i);
      var j: nat :| j < 3 && y == Free(j);
      SeparateFree(i, j);
    }
  }

  lemma ThreeInner()
    ensures var pair := Toy([]).pairHash;
      && pair(Mark(1, 0, 0), Mark(1, 1, 0)) == Mark(2, 0, 1)
      && pair(Mark(1, 2, 0), Mark(1, 2, 0)) == Mark(2, 2, 2)
      && pair(Mark(2, 0, 1), Mark(2, 2, 2)) == Mark(3, 0, 2)
  {
    hide Repeat, HashOf;
  }

  lemma {:induction false} ThreePaymentsHonest()
    ensures HonestHashes(Toy([]), ThreePayments(), ThreePayments())
  {
    hide Mark, Above, Hashed, Repeat, Toy, Free, Distinct, Honest, SeparateTxHashes, Merkle.TreeRoot, HashOf;
    ThreeInner();
    ThreeLeaves();
    InnerMarks();
    LeafMarks(0);
    LeafMarks(1);
    LeafMarks(2);
    HonestOfThree(Toy([]).pairHash, [Mark(1, 0, 0), Mark(1, 1, 0), Mark(1, 2, 0)], Mark(2, 0, 1), Mark(2, 2, 2));
    ThreeTxHashes(ThreePayments().transactions);
  }

  lemma {:induction false} ThreePaymentsGood()
    ensures Good(Toy([]), After(Toy([]), []), ThreePayments(), HashOf(1))
    ensures After(Toy([]), []) == Start(Toy([])) && Start(Toy([])).tip == HashOf(0)
    ensures ThreePayments().header.height == 1 && |ThreePayments().transactions| == 3
  {
    hide Repeat, MeetsDifficulty, ApplyTxs, Replay, WellFormed, DifficultiesFollow, Run, Merkle.TreeRoot, Credit, Mark,
         IsTemplate;
    var p, b := Toy([]), ThreePayments();
    ToyTemplate([], 1, Address([3]), b.transactions);
    HashesDiffer(0, 1);
    EveryHashWins(HashOf(1));
    ThreePaymentsApply();
    PoorGenesis();
  }

  /** A concrete good block of three transactions, without any collision: its copy
      of four comes first, and the block itself is turned away. */
  lemma {:induction false} CopyComesFirst()
    ensures var p, b := Toy([]), ThreePayments();
      && Good(p, After(p, []), b, HashOf(1)) && HonestHashes(p, b, b) && |b.transactions| == 3
      && Submit(p, After(p, []), Copied(b)).answer == Err(InvalidTxNonce(HashOf(1), 1))
      && Submit(p, After(p, [Copied(b)]), b).answer == Ok(AlreadyKnown)
      && After(p, [Copied(b)]).tip == HashOf(0)
  {
    hide *;
    var p, b := Toy([]), ThreePayments();
    ThreePaymentsGood();
    ThreePaymentsHonest();
    ThreeIsNoPower();
    CopyIsStored(p, [], b, HashOf(1));
    CopyTakesThePlace(p, [], b, HashOf(1), []);
    assert [] + [Copied(b)] + [] == [Copied(b)] == [] + [Copied(b)];
  }

  lemma ThreeIsNoPower()
    ensures !PowerOfTwo(3)
  {
    assert LowBit(3) == 1;
  }

  // ----- a reward that does not fit -----

  const RICH := Address([1])
  const OTHER := Address([2])

  function Full(): Params {
    Toy([(RICH, U64_MAX)])
  }

  function Alone(): Block { ToyBlock(Full(), 1, HashOf(0), 1, RICH, []) }
  function Rival(): Block { ToyBlock(Full(), 1, HashOf(0), 2, OTHER, []) }
  function RivalChild(): Block { ToyBlock(Full(), 2, HashOf(2), 3, OTHER, []) }

  function FullLedger(): Ledger { map[RICH := Account(U64_MAX, 0)] }

  lemma {:induction false} ToyChild(v: ChainView, parent: Hash256, n: Byte, b: Block)
    requires Shape(Full(), v) && FirstEpoch(Full(), v) && parent in v.blocks && HashOf(n) !in v.blocks
    requires b == ToyBlock(Full(), v.blocks[parent].header.height + 1, parent, n, b.header.miner, [])
    requires b.header.height <= 60
    ensures SeedFor(Full(), v, b.header.height) == Ok(ZERO_HASH)
    ensures Judge(Full(), v.blocks, b, ZERO_HASH) == Sound(HashOf(n))
  {
    hide HashOf, WellFormed, DifficultiesFollow, MeetsDifficulty, Merkle.TreeRoot;
    SeedInFirstEpoch(Full(), v, b.header.height);
    EveryHashWins(HashOf(n));
    assert Full().RetargetWindow() == 60;
  }

  /** The block is stored, and becomes the tip if it has more work and its branch applies. */
  ghost predicate Chooses(p: Params, m: Machine, b: Block, hash: Hash256)
    requires Shape(p, m.view)
    requires WellFormed(m.view.blocks[hash := b], p.genesis.hash) && m.view.tip in m.view.blocks
  {
    var s, root, step := m.view.blocks[hash := b], p.genesis.hash, SubmitInPlace(p, m, b);
    var n, answer := step.machine, step.answer;
    && n.view.blocks == s
    && if Work(s, root, hash) <= Work(s, root, m.view.tip) then
         n.view.tip == m.view.tip && n.ledger == m.ledger && answer == Ok(SideBranch(hash, b.header.height))
       else
         match ReorgLedger(p, s, m.ledger, m.view.tip, hash)
         case Ok(l) => n.view.tip == hash && n.ledger == l && answer.Ok? && answer.value.Accepted?
         case Err(e) => n.view.tip == m.view.tip && n.ledger == m.ledger && answer == Err(e)
  }

  /** A sound block is stored, and challenges the tip if it has more work. */
  lemma {:induction false} SoundStep(p: Params, m: Machine, b: Block, seed: Hash256, hash: Hash256)
    requires Shape(p, m.view) && b.header.height > 0 && SeedFor(p, m.view, b.header.height) == Ok(seed)
    requires Judge(p, m.view.blocks, b, seed) == Sound(hash)
    ensures WellFormed(m.view.blocks[hash := b], p.genesis.hash) && m.view.tip in m.view.blocks
    ensures Shape(p, SubmitInPlace(p, m, b).machine.view) && Chooses(p, m, b, hash)
  {
    hide Judge, SeedFor, WellFormed, DifficultiesFollow, Work, ReorgLedger, Requeue, UndoList, ApplyList;
    SoundBlock(p, m.view, b, seed);
    InPlaceKeepsShape(p, m, b);
  }

  /** One of the blocks above, submitted to a machine that has its parent. */
  lemma {:induction false} ToyStep(m: Machine, parent: Hash256, n: Byte, b: Block)
    requires Shape(Full(), m.view) && FirstEpoch(Full(), m.view) && parent in m.view.blocks
    requires HashOf(n) !in m.view.blocks && b.header.height <= 60
    requires b == ToyBlock(Full(), m.view.blocks[parent].header.height + 1, parent, n, b.header.miner, [])
    ensures var s, root := m.view.blocks[HashOf(n) := b], Full().genesis.hash;
      && WellFormed(m.view.blocks, root) && WellFormed(s, root) && m.view.tip in m.view.blocks
      && Work(s, root, HashOf(n)) == Work(m.view.blocks, root, parent) + 1
      && forall h :: h in m.view.blocks ==> Work(s, root, h) == Work(m.view.blocks, root, h)
    ensures var next := SubmitInPlace(Full(), m, b).machine;
      Shape(Full(), next.view) && FirstEpoch(Full(), next.view) && Chooses(Full(), m, b, HashOf(n))
  {
    hide Judge, SeedFor, HashOf, WellFormed, DifficultiesFollow, Work, ReorgLedger, Full, FirstEpoch, SubmitInPlace,
         Chooses;
    ToyChild(m.view, parent, n, b);
    StoredBlock(Full(), m.view, b, ZERO_HASH);
    StepInFirstEpoch(Full(), m, b);
    SoundStep(Full(), m, b, ZERO_HASH, HashOf(n));
  }

  lemma RichLedgers()
    ensures GenesisLedger(Full()) == FullLedger()
    ensures Credit(FullLedger(), RICH, 1) == FullLedger()
    ensures Debit(FullLedger(), RICH, 1) == map[RICH := Account(U64_MAX - 1, 0)]
  {
    hide Repeat;
    assert CreditAll(map[], []) == map[];
    assert [(RICH, U64_MAX)][..0] == [];
    assert Put(map[], RICH, Account(U64_MAX, 0)) == FullLedger();
    assert Put(FullLedger(), RICH, Account(U64_MAX, 0)) == FullLedger();
    assert Put(FullLedger(), RICH, Account(U64_MAX - 1, 0)) == map[RICH := Account(U64_MAX - 1, 0)];
  }

  lemma EmptyBlock(p: Params, l: Ledger, e: Entry)
    requires e.block.transactions == []
    ensures ApplyBlock(p, l, e) == Ok(Credit(l, e.block.header.miner, p.BlockReward(e.block.header.height)))
    ensures UndoBlock(p, l, e) == Debit(l, e.block.header.miner, p.BlockReward(e.block.header.height))
  {
  }

  /** The payments of these blocks: the rich account is full, so that its reward
      is lost when it is credited and taken all the same when it is undone. */
  lemma ToyLedgers()
    ensures GenesisLedger(Full()) == FullLedger()
    ensures ApplyBlock(Full(), FullLedger(), Entry(HashOf(1), Alone())) == Ok(FullLedger())
    ensures UndoBlock(Full(), FullLedger(), Entry(HashOf(1), Alone())) == map[RICH := Account(U64_MAX - 1, 0)]
    ensures forall l: Ledger, h: Hash256 ::
      && ApplyBlock(Full(), l, Entry(h, Rival())) == Ok(Credit(l, OTHER, 1))
      && ApplyBlock(Full(), l, Entry(h, RivalChild())) == Ok(Credit(l, OTHER, 1))
  {
    hide Params.BlockReward, Credit, Debit, ApplyBlock, UndoBlock, Merkle.TreeRoot, HashOf, GenesisLedger;
    ToyReward([(RICH, U64_MAX)], 1);
    ToyReward([(RICH, U64_MAX)], 2);
    RichLedgers();
    EmptyBlock(Full(), FullLedger(), Entry(HashOf(1), Alone()));
    forall l: Ledger, h: Hash256
      ensures ApplyBlock(Full(), l, Entry(h, Rival())) == Ok(Credit(l, OTHER, 1))
      ensures ApplyBlock(Full(), l, Entry(h, RivalChild())) == Ok(Credit(l, OTHER, 1))
    {
      EmptyBlock(Full(), l, Entry(h, Rival()));
      EmptyBlock(Full(), l, Entry(h, RivalChild()));
    }
  }

  lemma ChildPath(s: Store, root: Hash256, h: Hash256, parent: Hash256)
    requires WellFormed(s, root) && h in s && h != root && s[h].header.prevHash == parent
    ensures parent in s && Path(s, root, h) == Path(s, root, parent) + [h]
    ensures Path(s, root, root) == [root]
  {
    assert Rooted(s, h);
  }

  /** Block x on one branch, y and z on the other. */
  ghost predicate Forked(s: Store, root: Hash256, x: Hash256, y: Hash256, z: Hash256) {
    && WellFormed(s, root) && x in s && y in s && z in s
    && root != x && root != y && root != z && x != y
    && s[x].header.prevHash == root && s[y].header.prevHash == root && s[z].header.prevHash == y
  }

  lemma {:induction false} BranchPaths(s: Store, root: Hash256, x: Hash256, y: Hash256, z: Hash256)
    requires Forked(s, root, x, y, z)
    ensures WellFormed(s, root) && x in s && y in s && z in s
    ensures Path(s, root, x) == [root, x] && Path(s, root, z) == [root, y, z]
  {
    hide Path, WellFormed;
    ChildPath(s, root, x, root);
    ChildPath(s, root, y, root);
    ChildPath(s, root, z, y);
  }

  lemma {:induction false} PrefixOfOne<T>(root: T, x: T, y: T, z: T)
    requires x != y
    ensures CommonPrefix([root, x], [root, y, z]) == 1
  {
    hide CommonPrefix;
    var a, b := [root, x], [root, y, z];
    assert a[..1] == b[..1];
    CommonPrefixIs(a, b, 1);
  }

  lemma EntriesOfTails(s: Store, root: Hash256, x: Hash256, y: Hash256, z: Hash256)
    requires root in s && x in s && y in s && z in s
    ensures Reverse(Entries(s, [root, x][1..])) == [Entry(x, s[x])]
    ensures Entries(s, [root, y, z][1..]) == [Entry(y, s[y]), Entry(z, s[z])]
  {
    assert Entries(s, [root, x][1..]) == [Entry(x, s[x])];
    assert [Entry(x, s[x])][1..] == [];
  }

  lemma {:induction false} TwoBranches(s: Store, root: Hash256, x: Hash256, y: Hash256, z: Hash256)
    requires Forked(s, root, x, y, z)
    ensures WellFormed(s, root) && x in s && y in s && z in s
    ensures UndoList(s, root, x, z) == [Entry(x, s[x])]
    ensures ApplyList(s, root, x, z) == [Entry(y, s[y]), Entry(z, s[z])]
  {
    BranchPaths(s, root, x, y, z);
    PrefixOfOne(root, x, y, z);
    hide Path, CommonPrefix, Reverse, Entries;
    EntriesOfTails(s, root, x, y, z);
  }

  lemma {:induction false} ReorgOfTwo(p: Params, s: Store, l: Ledger, x: Hash256, y: Hash256, z: Hash256)
    requires Forked(s, p.genesis.hash, x, y, z)
    requires ApplyBlock(p, UndoBlock(p, l, Entry(x, s[x])), Entry(y, s[y])).Ok?
    ensures WellFormed(s, p.genesis.hash)
    ensures ReorgLedger(p, s, l, x, z)
         == ApplyBlock(p, ApplyBlock(p, UndoBlock(p, l, Entry(x, s[x])), Entry(y, s[y])).value, Entry(z, s[z]))
  {
    hide ApplyBlock, UndoBlock, WellFormed, UndoList, ApplyList;
    TwoBranches(s, p.genesis.hash, x, y, z);
    TwoApplied(p, UndoBlock(p, l, Entry(x, s[x])), Entry(y, s[y]), Entry(z, s[z]));
    UndoneOne(p, l, Entry(x, s[x]));
  }

  lemma UndoneOne(p: Params, l: Ledger, e: Entry)
    ensures UndoBlocks(p, l, [e]) == UndoBlock(p, l, e)
  {
    hide UndoBlock;
    assert [e][1..] == [];
    assert UndoBlocks(p, UndoBlock(p, l, e), []) == UndoBlock(p, l, e);
  }

  lemma {:induction false} ReplayOfTwo(p: Params, s: Store, y: Hash256, z: Hash256)
    requires WellFormed(s, p.genesis.hash) && y in s && z in s && p.genesis.hash != y && p.genesis.hash != z
    requires s[y].header.prevHash == p.genesis.hash && s[z].header.prevHash == y
    requires ApplyBlock(p, GenesisLedger(p), Entry(y, s[y])).Ok?
    ensures Replay(p, s, z) == ApplyBlock(p, ApplyBlock(p, GenesisLedger(p), Entry(y, s[y])).value, Entry(z, s[z]))
  {
    hide ApplyBlock;
    assert Rooted(s, y) && Rooted(s, z);
    assert Replay(p, s, y) == ApplyBlock(p, GenesisLedger(p), Entry(y, s[y]));
  }

  predicate Holds(r: Result<Ledger, ChainError>, a: Address, balance: U64) {
    r.Ok? && Lookup(r.value, a).balance == balance
  }

  /** The ledger the reorganisation leaves, one unit short of the replay. */
  lemma {:induction false} LostReward(s: Store)
    requires Forked(s, Full().genesis.hash, HashOf(1), HashOf(2), HashOf(3))
    requires s[HashOf(1)] == Alone() && s[HashOf(2)] == Rival() && s[HashOf(3)] == RivalChild()
    ensures WellFormed(s, Full().genesis.hash)
    ensures Holds(ReorgLedger(Full(), s, FullLedger(), HashOf(1), HashOf(3)), RICH, U64_MAX - 1)
    ensures Holds(Replay(Full(), s, HashOf(3)), RICH, U64_MAX)
  {
    ToyLedgers();
    var short: Ledger := map[RICH := Account(U64_MAX - 1, 0)];
    OthersUntouched(short);
    OthersUntouched(FullLedger());
    hide HashOf, Full, ApplyBlock, UndoBlock, Credit, ReorgLedger, Replay;
    ReorgOfTwo(Full(), s, FullLedger(), HashOf(1), HashOf(2), HashOf(3));
    ReplayOfTwo(Full(), s, HashOf(2), HashOf(3));
  }

  lemma TwoApplied(p: Params, l: Ledger, e: Entry, f: Entry)
    requires ApplyBlock(p, l, e).Ok?
    ensures ApplyBlocks(p, l, [e, f]) == ApplyBlock(p, ApplyBlock(p, l, e).value, f)
  {
    hide ApplyBlock;
    assert [e, f][..1] == [e] && [e][..0] == [];
    assert ApplyBlocks(p, l, [e]) == ApplyBlock(p, l, e);
  }

  lemma OthersUntouched(l: Ledger)
    ensures Lookup(Credit(Credit(l, OTHER, 1), OTHER, 1), RICH) == Lookup(l, RICH)
  {
  }

  /** With all of 2^64 - 1 units issued before the first block, three blocks on
      two branches are enough: the balances moved in place are then not the
      replay of the chain. So the bound on the supply cannot be dropped. */
  lemma {:induction false} FullSupplyLosesSync()
    ensures var p := Full();
      var start := Machine(Start(p), GenesisLedger(p));
      && !SupplyFits(p, 0) && Shape(p, start.view) && InSync(p, start)
      && var m := RunInPlace(p, start, [Alone(), Rival(), RivalChild()]);
         && m.view.tip == HashOf(3) && Replay(p, m.view.blocks, m.view.tip).Ok? && !InSync(p, m)
         && Lookup(m.ledger, RICH).balance == U64_MAX - 1
         && Lookup(Replay(p, m.view.blocks, m.view.tip).value, RICH).balance == U64_MAX
  {
    hide *;
    var p := Full();
    FullFacts();
    var m0 := Machine(Start(p), GenesisLedger(p));
    SubmitAlone();
    var m1 := SubmitInPlace(p, m0, Alone()).machine;
    InPlaceKeepsShape(p, m0, Alone());
    SubmitRival(m1);
    var m2 := SubmitInPlace(p, m1, Rival()).machine;
    InPlaceKeepsShape(p, m1, Rival());
    SubmitChild(m2);
    ThreeSteps(p, m0, Alone(), Rival(), RivalChild());
    OutOfSync(p, SubmitInPlace(p, m2, RivalChild()).machine, RICH);
  }

  /** The rich account's own block is stored and is the tip; the full account
      cannot take the reward. */
  ghost predicate AloneStored(m: Machine) {
    && Shape(Full(), m.view) && FirstEpoch(Full(), m.view)
    && m.view.blocks == Start(Full()).blocks[HashOf(1) := Alone()]
    && m.view.tip == HashOf(1) && m.ledger == FullLedger()
    && Work(m.view.blocks, HashOf(0), HashOf(0)) == 1 && Work(m.view.blocks, HashOf(0), HashOf(1)) == 2
  }

  lemma {:induction false} SubmitAlone()
    ensures var start := Machine(Start(Full()), GenesisLedger(Full()));
      && Shape(Full(), start.view)
      && AloneStored(SubmitInPlace(Full(), start, Alone()).machine)
      && SubmitInPlace(Full(), start, Alone()).answer.Ok?
      && SubmitInPlace(Full(), start, Alone()).answer.value.Accepted?
  {
    FullFacts();
    BlockFacts();
    FourHashes();
    ToyLedgers();
    hide HashOf, Full, Shape, FirstEpoch, SubmitInPlace, Work, ReorgLedger, WellFormed, Start, Alone, ToyBlock,
         FullLedger, ApplyBlock, UndoBlock, InSync;
    var start := Machine(Start(Full()), GenesisLedger(Full()));
    ToyStep(start, HashOf(0), 1, Alone());
    FirstReorg(start.view.blocks[HashOf(1) := Alone()]);
  }

  /** The rival with as much work stays on the side. */
  ghost predicate RivalStored(m: Machine) {
    && Shape(Full(), m.view) && FirstEpoch(Full(), m.view)
    && m.view.blocks == Start(Full()).blocks[HashOf(1) := Alone()][HashOf(2) := Rival()]
    && m.view.tip == HashOf(1) && m.ledger == FullLedger()
    && Work(m.view.blocks, HashOf(0), HashOf(1)) == 2 && Work(m.view.blocks, HashOf(0), HashOf(2)) == 2
  }

  lemma {:induction false} SubmitRival(m: Machine)
    requires AloneStored(m)
    ensures RivalStored(SubmitInPlace(Full(), m, Rival()).machine)
    ensures SubmitInPlace(Full(), m, Rival()).answer == Ok(SideBranch(HashOf(2), 1))
  {
    FullFacts();
    BlockFacts();
    FourHashes();
    hide HashOf, Full, Shape, FirstEpoch, SubmitInPlace, Work, ReorgLedger, WellFormed, Start, Alone, Rival, ToyBlock,
         FullLedger, InSync;
    ToyStep(m, HashOf(0), 2, Rival());
  }

  /** The rival's child has more work, and takes the reward off the full account. */
  lemma {:induction false} SubmitChild(m: Machine)
    requires RivalStored(m)
    ensures var n := SubmitInPlace(Full(), m, RivalChild()).machine;
      && Shape(Full(), n.view) && n.view.tip == HashOf(3)
      && Lookup(n.ledger, RICH).balance == U64_MAX - 1
      && Holds(Replay(Full(), n.view.blocks, n.view.tip), RICH, U64_MAX)
  {
    FullFacts();
    BlockFacts();
    FourHashes();
    hide HashOf, Full, Shape, FirstEpoch, SubmitInPlace, Work, ReorgLedger, WellFormed, Start, Alone, Rival, RivalChild,
         ToyBlock, FullLedger, InSync, Lookup, Replay, Forked;
    ToyStep(m, HashOf(2), 3, RivalChild());
    var s := m.view.blocks[HashOf(3) := RivalChild()];
    ForkStored(s, Start(Full()).blocks);
    LostReward(s);
  }

  lemma ForkStored(s: Store, start: Store)
    requires WellFormed(s, Full().genesis.hash) && Full().genesis.hash == HashOf(0)
    requires s == start[HashOf(1) := Alone()][HashOf(2) := Rival()][HashOf(3) := RivalChild()]
    ensures HashOf(1) in s && HashOf(2) in s && HashOf(3) in s
    ensures Forked(s, Full().genesis.hash, HashOf(1), HashOf(2), HashOf(3))
    ensures s[HashOf(1)] == Alone() && s[HashOf(2)] == Rival() && s[HashOf(3)] == RivalChild()
  {
    FourHashes();
    hide WellFormed, HashOf, Full;
  }

  lemma OutOfSync(p: Params, m: Machine, a: Address)
    requires Shape(p, m.view) && Holds(Replay(p, m.view.blocks, m.view.tip), a, U64_MAX)
    requires Lookup(m.ledger, a).balance == U64_MAX - 1
    ensures Replay(p, m.view.blocks, m.view.tip).Ok? && !InSync(p, m)
    ensures Lookup(Replay(p, m.view.blocks, m.view.tip).value, a).balance == U64_MAX
  {
    hide Shape, Replay, Lookup;
  }

  lemma HoldsAfter(r: Result<Ledger, ChainError>, a: Address, balance: U64)
    requires Holds(r, a, balance)
    ensures r.Ok? && Lookup(r.value, a).balance == balance
  {
  }

  lemma FullFacts()
    ensures var p := Full();
      && p.genesis.hash == HashOf(0) && Shape(p, Start(p)) && FirstEpoch(p, Start(p)) && !SupplyFits(p, 0)
      && InSync(p, Machine(Start(p), GenesisLedger(p)))
      && Start(p).tip == HashOf(0) && Start(p).blocks.Keys == {HashOf(0)}
      && Start(p).blocks[HashOf(0)].header.height == 0
    ensures Work(Start(Full()).blocks, HashOf(0), HashOf(0)) == 1
  {
    hide Repeat;
    StartHasShape(Full());
    assert PremineSum([(RICH, U64_MAX)]) == U64_MAX;
  }

  lemma BlockFacts()
    ensures Alone() == ToyBlock(Full(), 0 + 1, HashOf(0), 1, Alone().header.miner, []) && Alone().header.height == 1
    ensures Rival() == ToyBlock(Full(), 0 + 1, HashOf(0), 2, Rival().header.miner, []) && Rival().header.height == 1
    ensures RivalChild() == ToyBlock(Full(), 1 + 1, HashOf(2), 3, RivalChild().header.miner, [])
    ensures RivalChild().header.height == 2
  {
    hide Repeat;
  }

  lemma FourHashes()
    ensures HashOf(0) != HashOf(1) && HashOf(0) != HashOf(2) && HashOf(0) != HashOf(3)
    ensures HashOf(1) != HashOf(2) && HashOf(1) != HashOf(3) && HashOf(2) != HashOf(3)
  {
    hide HashOf;
    HashesDiffer(0, 1);
    HashesDiffer(0, 2);
    HashesDiffer(0, 3);
    HashesDiffer(1, 2);
    HashesDiffer(1, 3);
    HashesDiffer(2, 3);
  }

  lemma {:induction false} FirstReorg(s: Store)
    requires WellFormed(s, Full().genesis.hash) && Full().genesis.hash == HashOf(0)
    requires HashOf(0) in s && HashOf(1) in s && s[HashOf(1)] == Alone()
    ensures ReorgLedger(Full(), s, FullLedger(), HashOf(0), HashOf(1)) == Ok(FullLedger())
  {
    HashesDiffer(0, 1);
    ToyLedgers();
    hide HashOf, Full, ApplyBlock, UndoBlock, UndoList, ApplyList, WellFormed;
    ExtensionUndoesNothing(Full(), s, HashOf(0), HashOf(1));
    var e := Entry(HashOf(1), Alone());
    assert [e][..0] == [];
    assert ApplyBlocks(Full(), FullLedger(), [e]) == ApplyBlock(Full(), FullLedger(), e);
  }

  lemma ThreeSteps(p: Params, m: Machine, a: Block, b: Block, c: Block)
    requires Shape(p, m.view)
    ensures Shape(p, SubmitInPlace(p, m, a).machine.view)
    ensures Shape(p, SubmitInPlace(p, SubmitInPlace(p, m, a).machine, b).machine.view)
    ensures RunInPlace(p, m, [a, b, c])
         == SubmitInPlace(p, SubmitInPlace(p, SubmitInPlace(p, m, a).machine, b).machine, c).machine
  {
    hide SubmitInPlace, Shape;
    assert [a, b, c][..2] == [a, b] && [a, b][..1] == [a] && [a][..0] == [];
    assert RunInPlace(p, m, []) == m;
    assert RunInPlace(p, m, [a]) == SubmitInPlace(p, m, a).machine;
    assert RunInPlace(p, m, [a, b]) == SubmitInPlace(p, SubmitInPlace(p, m, a).machine, b).machine;
  }
}
