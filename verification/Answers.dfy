/** What every answer to a submitted block says about the block and the chain. */
module Answers {
  import opened Primitives
  import opened Protocol
  import opened Ledger
  import opened BlockTree
  import opened ForkChoice
  import opened Runs
  import opened Epochs
  import opened Templates
  import Difficulty
  import Merkle

  /** Root, proof of work and signatures are in order. */
  ghost predicate Worked(p: Params, b: Block, hash: Hash256) {
    && b.header.txRoot == Merkle.TreeRoot(p.pairHash, p.TxHashes(b.transactions))
    && Difficulty.BeValue(hash.bytes) * Max(b.header.difficulty, 1) < Difficulty.Pow256(32)
    && forall tx :: tx in b.transactions ==> p.signatureValid(tx)
  }

  /** The block fits under its parent. */
  ghost predicate Fits(p: Params, s: Store, b: Block)
    requires WellFormed(s, p.genesis.hash)
  {
    && b.header.prevHash in s && s[b.header.prevHash].header.height + 1 == b.header.height
    && b.header.difficulty == ExpectedDifficulty(p, s, b.header.prevHash)
  }

  /** What each verdict on a block means. */
  ghost predicate VerdictHolds(p: Params, s: Store, b: Block, hash: Hash256, verdict: Verdict)
    requires WellFormed(s, p.genesis.hash)
  {
    match verdict
    case Known => hash in s
    case NoParent(parent) => hash !in s && Worked(p, b, hash) && parent == b.header.prevHash && parent !in s
    case Sound(h) => h == hash && hash !in s && Worked(p, b, hash) && Fits(p, s, b)
    case Refused(error) =>
      match error
      case InvalidTxRoot => b.header.txRoot != Merkle.TreeRoot(p.pairHash, p.TxHashes(b.transactions))
      case ProofOfWorkTooWeak =>
        Difficulty.BeValue(hash.bytes) * Max(b.header.difficulty, 1) >= Difficulty.Pow256(32)
      case InvalidSignature => exists tx :: tx in b.transactions && !p.signatureValid(tx)
      case WrongHeight =>
        Worked(p, b, hash) && b.header.prevHash in s && s[b.header.prevHash].header.height + 1 != b.header.height
      case WrongDifficulty(got, expected) =>
        && Worked(p, b, hash) && b.header.prevHash in s
        && got == b.header.difficulty != expected == ExpectedDifficulty(p, s, b.header.prevHash)
      case _ => false
  }

  lemma {:induction false} VerdictMeans(p: Params, s: Store, b: Block, seed: Hash256)
    requires WellFormed(s, p.genesis.hash)
    ensures VerdictHolds(p, s, b, p.powHash(b.header, seed), Judge(p, s, b, seed))
  {
    hide WellFormed, ExpectedDifficulty, Merkle.TreeRoot, MeetsDifficulty, Difficulty.Pow256, Difficulty.BeValue;
    PowMeans(p.powHash(b.header, seed), b.header.difficulty);
  }

  lemma PowMeans(hash: Hash256, difficulty: U64)
    ensures MeetsDifficulty(hash, difficulty)
       <==> Difficulty.BeValue(hash.bytes) * Max(difficulty, 1) < Difficulty.Pow256(32)
  {
    hide Difficulty.MeetsTarget, Difficulty.TargetForDifficulty, Difficulty.Pow256, Difficulty.BeValue;
    Difficulty.PowCheckMeaning(hash, difficulty);
  }

  /** Only nonces and balances can keep a stored chain from replaying. */
  lemma {:induction false} ReplayErrors(p: Params, s: Store, h: Hash256)
    requires WellFormed(s, p.genesis.hash) && h in s && Replay(p, s, h).Err?
    ensures Replay(p, s, h).error.InvalidTxNonce? || Replay(p, s, h).error.InsufficientBalance?
    decreases s[h].header.height
  {
    hide ApplyTxs;
    if h != p.genesis.hash {
      assert Rooted(s, h);
      if Replay(p, s, s[h].header.prevHash).Err? {
        ReplayErrors(p, s, s[h].header.prevHash);
      }
    }
  }

  /** The block is new and sound, and the store has it now. */
  ghost predicate StoredNow(p: Params, v: ChainView, b: Block, hash: Hash256, w: ChainView)
    requires Shape(p, v)
  {
    w.blocks == v.blocks[hash := b] && hash !in v.blocks && Worked(p, b, hash) && Fits(p, v.blocks, b)
  }

  /** The stored block has more work than the old tip. */
  ghost predicate OutWorked(p: Params, v: ChainView, hash: Hash256, w: ChainView)
    requires Shape(p, v) && Shape(p, w)
  {
    && v.tip in w.blocks && hash in w.blocks
    && Work(w.blocks, p.genesis.hash, hash) > Work(w.blocks, p.genesis.hash, v.tip)
  }

  /** Its path replays, or fails with this error. */
  ghost predicate Replays(p: Params, w: ChainView, hash: Hash256)
    requires Shape(p, w)
  {
    hash in w.blocks && Replay(p, w.blocks, hash).Ok?
  }

  ghost predicate FailsWith(p: Params, w: ChainView, hash: Hash256, error: ChainError)
    requires Shape(p, w)
  {
    hash in w.blocks && Replay(p, w.blocks, hash) == Err(error)
  }

  /** What each answer means, for a block whose hash is taken over the first
      epoch's dataset. */
  ghost predicate AnswerHolds(p: Params, v: ChainView, b: Block, hash: Hash256, step: Step)
    requires Shape(p, v) && Shape(p, step.view)
  {
    var w := step.view;
    match step.answer
    case Ok(Accepted(h, height, reorged, _)) =>
      && StoredNow(p, v, b, hash, w) && h == hash && height == b.header.height && w.tip == hash
      && (reorged <==> b.header.prevHash != v.tip)
      && OutWorked(p, v, hash, w) && Replays(p, w, hash)
    case Ok(SideBranch(h, height)) =>
      && StoredNow(p, v, b, hash, w) && h == hash && height == b.header.height && w.tip == v.tip
      && !OutWorked(p, v, hash, w)
    case Ok(AlreadyKnown) => Unmoved(v, w) && VerdictHolds(p, v.blocks, b, hash, Known)
    case Ok(Orphan(parent)) => Unmoved(v, w) && VerdictHolds(p, v.blocks, b, hash, NoParent(parent))
    case Err(SecondGenesis) => w == v && b.header.height == 0
    case Err(EpochBoundaryNotFound(height)) => w == v && b.header.height >= 2048
    case Err(InvalidTxNonce(_, _)) => StoredInVain(p, v, b, hash, w, step.answer.error)
    case Err(InsufficientBalance(_, _)) => StoredInVain(p, v, b, hash, w, step.answer.error)
    case Err(e) => Unmoved(v, w) && VerdictHolds(p, v.blocks, b, hash, Refused(e))
  }

  /** Stored with more work than the tip, which stays: the path does not replay. */
  ghost predicate StoredInVain(p: Params, v: ChainView, b: Block, hash: Hash256, w: ChainView, error: ChainError)
    requires Shape(p, v) && Shape(p, w)
  {
    StoredNow(p, v, b, hash, w) && w.tip == v.tip && OutWorked(p, v, hash, w) && FailsWith(p, w, hash, error)
  }

  lemma {:induction false} NotSoundAnswer(p: Params, v: ChainView, b: Block, seed: Hash256)
    requires Shape(p, v) && b.header.height > 0 && SeedFor(p, v, b.header.height) == Ok(seed)
    requires !Judge(p, v.blocks, b, seed).Sound?
    ensures var step := Submit(p, v, b);
      && Shape(p, step.view) && AnswerHolds(p, v, b, p.powHash(b.header, seed), step)
  {
    hide Judge, SeedFor, WellFormed, DifficultiesFollow, Worked, Work, Replay;
    VerdictMeans(p, v.blocks, b, seed);
  }

  lemma {:induction false} SoundAnswer(p: Params, v: ChainView, b: Block, seed: Hash256)
    requires Shape(p, v) && b.header.height > 0 && SeedFor(p, v, b.header.height) == Ok(seed)
    requires Judge(p, v.blocks, b, seed).Sound?
    ensures var step := Submit(p, v, b);
      && Shape(p, step.view) && AnswerHolds(p, v, b, p.powHash(b.header, seed), step)
  {
    hide Judge, SeedFor, WellFormed, DifficultiesFollow, Worked, Fits, Work, Replay, UndoList, ApplyList, Requeue,
         ExpectedDifficulty;
    VerdictMeans(p, v.blocks, b, seed);
    SoundBlock(p, v, b, seed);
    SubmitKeepsShape(p, v, b);
    var hash := p.powHash(b.header, seed);
    if Replay(p, v.blocks[hash := b], hash).Err? {
      ReplayErrors(p, v.blocks[hash := b], hash);
    }
  }

  /** Every answer to every block, after every run from genesis. */
  lemma {:induction false} AnswerMeans(p: Params, bs: seq<Block>, b: Block)
    ensures Shape(p, Submit(p, After(p, bs), b).view)
    ensures AnswerHolds(p, After(p, bs), b, p.powHash(b.header, p.epochSeed(None)), Submit(p, After(p, bs), b))
  {
    var v, seed := After(p, bs), p.epochSeed(None);
    HeightsStayBelow(p, bs, p.genesis.hash);
    SeedInFirstEpoch(p, v, b.header.height);
    BoundaryFacts(b.header.height);
    hide After, Judge, SeedFor, WellFormed, DifficultiesFollow, FirstEpoch, Boundary, Worked, Fits, Work, Replay;
    if b.header.height > 0 && b.header.height < EPOCH_LENGTH {
      hide Submit, AnswerHolds, Shape;
      if Judge(p, v.blocks, b, seed).Sound? {
        SoundAnswer(p, v, b, seed);
      } else {
        NotSoundAnswer(p, v, b, seed);
      }
    }
  }

  /** Worked for some dataset. */
  ghost predicate WorkedOnce(p: Params, b: Block) {
    exists seed :: Worked(p, b, p.powHash(b.header, seed))
  }

  /** From any state: only a block with a matching root, enough work and good
      signatures is ever answered Orphan. */
  lemma {:induction false} OrphanIsWorked(p: Params, m: Machine, b: Block)
    requires Shape(p, m.view)
    ensures var answer := SubmitInPlace(p, m, b).answer;
      answer.Ok? && answer.value.Orphan? ==> WorkedOnce(p, b)
  {
    hide Judge, WellFormed, DifficultiesFollow, SeedFor, Worked, Work, Requeue, UndoList, ApplyList, ReorgLedger;
    if SubmitInPlace(p, m, b).answer.Ok? && SubmitInPlace(p, m, b).answer.value.Orphan? {
      var seed := SeedFor(p, m.view, b.header.height).value;
      VerdictMeans(p, m.view.blocks, b, seed);
      assert Worked(p, b, p.powHash(b.header, seed));
    }
  }

  // ----- the reorganised flag -----

  /** Work strictly grows along a path. */
  lemma {:induction false} WorkGrows(p: Params, v: ChainView, h: Hash256, i: nat)
    requires Shape(p, v) && p.genesis.initialDifficulty >= 1 && h in v.blocks && i < v.blocks[h].header.height
    ensures var path := Path(v.blocks, p.genesis.hash, h);
      Work(v.blocks, p.genesis.hash, path[i]) < Work(v.blocks, p.genesis.hash, h)
    decreases v.blocks[h].header.height
  {
    DifficultyPositive(p, v, h);
    var parent := v.blocks[h].header.prevHash;
    PathStep(p, v, h);
    if i < v.blocks[parent].header.height {
      WorkGrows(p, v, parent, i);
    }
  }

  lemma PathStep(p: Params, v: ChainView, h: Hash256)
    requires Shape(p, v) && h in v.blocks && v.blocks[h].header.height > 0
    ensures var parent := v.blocks[h].header.prevHash;
      && h != p.genesis.hash && parent in v.blocks
      && v.blocks[parent].header.height + 1 == v.blocks[h].header.height
      && Path(v.blocks, p.genesis.hash, h) == Path(v.blocks, p.genesis.hash, parent) + [h]
  {
    hide Repeat;
    assert Rooted(v.blocks, h);
  }

  /** An accepted block reports a reorganisation exactly if the old tip fell off
      the canonical chain. */
  lemma {:induction false} ReorgedIff(p: Params, bs: seq<Block>, b: Block)
    requires p.genesis.initialDifficulty >= 1
    requires Submit(p, After(p, bs), b).answer.Ok? && Submit(p, After(p, bs), b).answer.value.Accepted?
    ensures var v, step := After(p, bs), Submit(p, After(p, bs), b);
      && Shape(p, step.view) && step.view.tip in step.view.blocks
      && (step.answer.value.reorged <==> v.tip !in Path(step.view.blocks, p.genesis.hash, step.view.tip))
  {
    AnswerMeans(p, bs, b);
    RunStaysBest(p, bs);
    hide After, Submit, Worked, ExpectedDifficulty, Work, Replay, WellFormed, DifficultiesFollow, Best;
    TipStored(p, After(p, bs));
    TipOnNewPath(p, After(p, bs), Submit(p, After(p, bs), b).view, b);
  }

  lemma TipStored(p: Params, v: ChainView)
    requires Shape(p, v)
    ensures v.tip in v.blocks
  {
  }

  /** A proper ancestor has less work. */
  lemma {:induction false} AncestorIsLighter(p: Params, v: ChainView, h: Hash256, a: Hash256)
    requires Shape(p, v) && p.genesis.initialDifficulty >= 1 && h in v.blocks
    requires a in Path(v.blocks, p.genesis.hash, h) && a != h
    ensures a in v.blocks && Work(v.blocks, p.genesis.hash, a) < Work(v.blocks, p.genesis.hash, h)
  {
    LastOfPath(p, v, h);
    hide Path, Work, WellFormed, DifficultiesFollow;
    var path := Path(v.blocks, p.genesis.hash, h);
    var i :| 0 <= i < |path| && path[i] == a;
    WorkGrows(p, v, h, i);
  }

  lemma {:induction false} TipOnNewPath(p: Params, v: ChainView, w: ChainView, b: Block)
    requires Shape(p, v) && Shape(p, w) && Best(p, v) && p.genesis.initialDifficulty >= 1
    requires w.tip !in v.blocks && w.blocks == v.blocks[w.tip := b] && Replay(p, w.blocks, w.tip).Ok?
    requires b.header.prevHash in v.blocks && v.tip in v.blocks
    ensures v.tip !in Path(w.blocks, p.genesis.hash, w.tip) <==> b.header.prevHash != v.tip
  {
    hide WellFormed, DifficultiesFollow, Work, Replay, Path, Best, Shape;
    var parent := b.header.prevHash;
    TipFacts(p, v, w);
    PathStep(p, w, w.tip);
    KeptBlock(p, v, w, b, parent);
    KeptBlock(p, v, w, b, v.tip);
    ReplayStep(p, w.blocks, w.tip);
    BestParent(p, v, parent);
    LastOfPath(p, w, parent);
    assert parent in Path(w.blocks, p.genesis.hash, parent);
    if v.tip in Path(w.blocks, p.genesis.hash, parent) && v.tip != parent {
      AncestorIsLighter(p, w, parent, v.tip);
    }
  }

  lemma TipFacts(p: Params, v: ChainView, w: ChainView)
    requires Shape(p, v) && Shape(p, w) && w.tip !in v.blocks
    ensures w.tip != p.genesis.hash && w.tip in w.blocks && w.blocks[w.tip].header.height > 0
    ensures WellFormed(w.blocks, p.genesis.hash)
  {
    hide Repeat;
    assert Rooted(w.blocks, w.tip);
  }

  lemma BestParent(p: Params, v: ChainView, h: Hash256)
    requires Shape(p, v) && Best(p, v) && h in v.blocks && v.tip in v.blocks
    ensures Replay(p, v.blocks, h).Ok? ==> Work(v.blocks, p.genesis.hash, h) <= Work(v.blocks, p.genesis.hash, v.tip)
  {
    hide Work, Replay, WellFormed, DifficultiesFollow;
    assert NotHeavier(p, v, h);
  }

  lemma LastOfPath(p: Params, v: ChainView, h: Hash256)
    requires Shape(p, v) && h in v.blocks
    ensures var path := Path(v.blocks, p.genesis.hash, h);
      |path| == v.blocks[h].header.height + 1 && path[v.blocks[h].header.height] == h
  {
    hide WellFormed, DifficultiesFollow, Repeat;
  }
}
