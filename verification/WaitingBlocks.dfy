/** A block that waits for its parent is retried when the parent is accepted, and
    not when the parent is merely stored: a concrete node that misses the heaviest
    chain it was sent. */
module WaitingBlocks {
  import opened Primitives
  import opened Protocol
  import opened BlockTree
  import opened ForkChoice
  import opened Runs
  import opened Epochs
  import opened Examples
  import opened ChainStore
  import opened ChainModule
  import opened NodeModule
  import Merkle

  lemma {:induction false} SubmitOrphan(m: Machine)
    requires AloneStored(m)
    ensures AloneStored(SubmitInPlace(Full(), m, RivalChild()).machine)
    ensures SubmitInPlace(Full(), m, RivalChild()).answer == Ok(Orphan(HashOf(2)))
  {
    OrphanVerdict(m.view);
    StepInFirstEpoch(Full(), m, RivalChild());
    InPlaceKeepsShape(Full(), m, RivalChild());
    SeedInFirstEpoch(Full(), m.view, 2);
    hide Judge, SeedFor, Shape, WellFormed, FirstEpoch, Work, Full, HashOf, Start, Alone;
    assert RivalChild().header.height == 2;
  }

  lemma {:induction false} OrphanVerdict(v: ChainView)
    requires Shape(Full(), v) && v.blocks == Start(Full()).blocks[HashOf(1) := Alone()]
    ensures Judge(Full(), v.blocks, RivalChild(), ZERO_HASH) == NoParent(HashOf(2))
  {
    FullFacts();
    FourHashes();
    ChildFacts();
    hide HashOf, MeetsDifficulty, Merkle.TreeRoot, Start, Alone, RivalChild, Full, WellFormed, DifficultiesFollow,
         ExpectedDifficulty, FirstEpoch, Work, InSync;
  }

  lemma ChildFacts()
    ensures var p, b := Full(), RivalChild();
      && p.powHash(b.header, ZERO_HASH) == HashOf(3) && b.header.prevHash == HashOf(2)
      && b.header.txRoot == Merkle.TreeRoot(p.pairHash, p.TxHashes(b.transactions))
      && MeetsDifficulty(HashOf(3), b.header.difficulty) && ValidSignatures(p, b.transactions)
  {
    hide Repeat, Merkle.TreeRoot;
    EveryHashWins(HashOf(3));
    hide MeetsDifficulty;
  }

  lemma OneStep(p: Params, m: Machine, b: Block)
    requires Shape(p, m.view)
    ensures RunInPlace(p, m, [b]) == SubmitInPlace(p, m, b).machine
  {
    RunOfNone(p, m);
    InPlaceSnoc(p, m, [], b);
    assert [] + [b] == [b];
  }

  /** The parent is stored, its child still waits, and if it were submitted again
      it would become the tip. */
  method ChildOfSideBranch() returns (node: Node)
    ensures node.Valid() && node.chain.p == Full()
    ensures HashOf(2) in node.chain.state.blocks && node.chain.Model().view.tip == HashOf(1)
    ensures Buffered(node.orphans) == multiset{RivalChild()} && RivalChild().header.prevHash == HashOf(2)
    ensures Shape(Full(), node.chain.Model().view)
    ensures SubmitInPlace(Full(), node.chain.Model(), RivalChild()).machine.view.tip == HashOf(3)
  {
    hide *;
    FullFacts();
    StoredFacts();
    var db := new ChainState();
    FreshIsEmpty(db);
    var chain := new Chain.Open(Full(), db);
    node := new Node(chain);
    NothingBuffered();
    NoneSettled(node);
    ghost var log;
    var answer;
    ghost var start := chain.Model();
    SubmitAlone();
    answer, log := node.AcceptAndBroadcast(Alone());
    ValidNode(node);
    OnlyFirst(log, Alone(), Buffered(node.orphans));
    OneStep(Full(), start, Alone());
    ghost var alone := chain.Model();
    StoredShape(alone);
    SubmitOrphan(alone);
    answer, log := node.AcceptAndBroadcast(RivalChild());
    ValidNode(node);
    OneStep(Full(), alone, RivalChild());
    OnlyBuffered(RivalChild());
    ghost var waiting := chain.Model();
    StoredShape(waiting);
    SubmitRival(waiting);
    answer, log := node.AcceptAndBroadcast(Rival());
    ValidNode(node);
    OneStep(Full(), waiting, Rival());
    RivalShape(chain.Model());
    SubmitChild(chain.Model());
    SameState(chain);
  }

  lemma FreshIsEmpty(db: ChainState)
    requires db.IsEmpty()
    ensures db.mempool == map[]
  {
  }

  lemma ValidNode(node: Node)
    requires node.Valid()
    ensures node.chain.Valid() && node.chain.state.tip.Some? && Shape(node.chain.p, node.chain.Model().view)
  {
    node.chain.ShapeFacts();
  }

  lemma NothingBuffered()
    ensures Buffered(map[]) == multiset{}
  {
  }

  lemma NoneSettled(node: Node)
    requires node.accepted == {}
    ensures node.Settled()
  {
  }

  lemma OnlyFirst(log: seq<Block>, b: Block, buffered: multiset<Block>)
    requires log != [] && log[0] == b && buffered + multiset(log[1..]) == multiset{}
    ensures log == [b] && buffered == multiset{}
  {
    assert |buffered| + |multiset(log[1..])| == |buffered + multiset(log[1..])|;
    assert log == [log[0]] + log[1..];
  }

  lemma OnlyBuffered(b: Block)
    ensures multiset([b][1..]) == multiset{}
    ensures forall m: multiset<Block> :: m + multiset{} == m
  {
  }

  lemma StoredShape(m: Machine)
    requires AloneStored(m)
    ensures Shape(Full(), m.view)
  {
  }

  lemma RivalShape(m: Machine)
    requires RivalStored(m)
    ensures Shape(Full(), m.view) && HashOf(2) in m.view.blocks && m.view.tip == HashOf(1)
  {
  }

  lemma StoredFacts()
    ensures RivalChild().header.prevHash == HashOf(2)
  {
  }

  lemma SameState(chain: Chain)
    requires chain.state.tip.Some?
    ensures chain.Model().view.blocks == chain.state.blocks
  {
  }
}
