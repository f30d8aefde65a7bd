/** What becomes of a block mined from a template: every way it can be turned down. */
module Templates {
  import opened Primitives
  import opened Protocol
  import opened Ledger
  import opened BlockTree
  import opened ForkChoice
  import opened Runs
  import opened Replayed
  import opened Epochs
  import opened Rejected
  import Merkle

  lemma {:induction false} TemplateIsSound(p: Params, v: ChainView, b: Block, seed: Hash256)
    requires Shape(p, v) && IsTemplate(p, v, b)
    requires p.powHash(b.header, seed) !in v.blocks
    requires MeetsDifficulty(p.powHash(b.header, seed), b.header.difficulty)
    requires ValidSignatures(p, b.transactions)
    ensures Judge(p, v.blocks, b, seed) == Sound(p.powHash(b.header, seed))
    ensures b.header.height == v.blocks[v.tip].header.height + 1 && b.header.prevHash == v.tip
  {
    hide ExpectedDifficulty, MeetsDifficulty, Merkle.TreeRoot, ValidSignatures;
  }

  lemma {:induction false} ExtensionUndoesNothing(p: Params, s: Store, tip: Hash256, hash: Hash256)
    requires WellFormed(s, p.genesis.hash) && tip in s && hash in s && hash != p.genesis.hash
    requires s[hash].header.prevHash == tip
    ensures UndoList(s, p.genesis.hash, tip, hash) == []
    ensures ApplyList(s, p.genesis.hash, tip, hash) == [Entry(hash, s[hash])]
  {
    assert Rooted(s, hash);
    var path := Path(s, p.genesis.hash, tip);
    CommonPrefixIs(path, path + [hash], |path|);
  }

  lemma RootStored(p: Params, v: ChainView)
    requires Shape(p, v)
    ensures p.genesis.hash in v.blocks
  {
  }

  /** A sound child of the tip with any work challenges it. */
  lemma {:induction false} TemplateChallenges(p: Params, v: ChainView, b: Block, seed: Hash256)
    requires Shape(p, v) && SeedFor(p, v, b.header.height) == Ok(seed) && b.header.height > 0
    requires Judge(p, v.blocks, b, seed) == Sound(p.powHash(b.header, seed))
    requires b.header.prevHash == v.tip && b.header.difficulty >= 1
    ensures var a, hash := Admit(p, v, b), p.powHash(b.header, seed);
      var t, root := v.blocks[hash := b], p.genesis.hash;
      && a.Challenge? && a.hash == hash && a.won == Accepted(hash, b.header.height, false, [])
      && a.view.blocks == t && a.view.tip == v.tip
      && Shape(p, a.view) && v.tip in t && Work(t, root, hash) > Work(t, root, v.tip)
  {
    hide Judge, SeedFor, DifficultiesFollow, WellFormed, Work, Path, UndoList, ApplyList, TxHashSet;
    var hash := p.powHash(b.header, seed);
    StoredWork(p, v, b, seed);
    RootStored(p, v);
    ExtensionUndoesNothing(p, v.blocks[hash := b], v.tip, hash);
    assert Requeue(p, [], TxHashSet(p, [Entry(hash, b)])) == [];
  }

  /** A sound child of the tip is stored with more work than the tip, and its
      transactions alone decide whether it becomes the tip. */
  lemma {:induction false} SoundTemplate(p: Params, v: ChainView, b: Block, seed: Hash256)
    requires Shape(p, v) && Best(p, v) && IsTemplate(p, v, b) && b.header.difficulty >= 1
    requires SeedFor(p, v, b.header.height) == Ok(seed)
    requires p.powHash(b.header, seed) !in v.blocks
    requires MeetsDifficulty(p.powHash(b.header, seed), b.header.difficulty)
    requires ValidSignatures(p, b.transactions)
    ensures var hash, step := p.powHash(b.header, seed), Submit(p, v, b);
      var outcome := ApplyBlock(p, Replay(p, v.blocks, v.tip).value, Entry(hash, b));
      var s, root := step.view.blocks, p.genesis.hash;
      && Shape(p, step.view) && s == v.blocks[hash := b] && v.tip in s
      && Replay(p, s, hash) == outcome && Work(s, root, hash) > Work(s, root, v.tip)
      && match outcome
         case Ok(_) => step.view.tip == hash && step.answer == Ok(Accepted(hash, b.header.height, false, []))
         case Err(e) => step.view.tip == v.tip && step.answer == Err(e)
  {
    var hash := p.powHash(b.header, seed);
    TemplateIsSound(p, v, b, seed);
    hide Admit, Judge, SeedFor, IsTemplate, ValidSignatures, MeetsDifficulty, DifficultiesFollow, WellFormed, Work,
         ApplyBlock;
    TemplateChallenges(p, v, b, seed);
    KeptBlock(p, v, Admit(p, v, b).view, b, v.tip);
    SubmitKeepsShape(p, v, b);
  }

  /** With difficulty zero a block adds no work and stays on the side. */
  lemma {:induction false} WeightlessTemplate(p: Params, v: ChainView, b: Block, seed: Hash256)
    requires Shape(p, v) && IsTemplate(p, v, b) && b.header.difficulty == 0
    requires SeedFor(p, v, b.header.height) == Ok(seed) && Judge(p, v.blocks, b, seed).Sound?
    ensures var hash, step := p.powHash(b.header, seed), Submit(p, v, b);
      && step.view.blocks == v.blocks[hash := b] && step.view.tip == v.tip
      && step.answer == Ok(SideBranch(hash, b.header.height))
  {
    hide Judge, SeedFor, DifficultiesFollow, WellFormed, Work, Requeue, Path, UndoList, ApplyList, IsTemplate, Replay;
    TemplateParent(p, v, b);
    SoundHash(p, v.blocks, b, seed);
    StoredWork(p, v, b, seed);
  }

  lemma TemplateParent(p: Params, v: ChainView, b: Block)
    requires Shape(p, v) && IsTemplate(p, v, b)
    ensures b.header.prevHash == v.tip && b.header.height > 0
  {
  }

  /** A sound child of the tip weighs the tip's work and its own difficulty. */
  lemma {:induction false} StoredWork(p: Params, v: ChainView, b: Block, seed: Hash256)
    requires Shape(p, v) && Judge(p, v.blocks, b, seed).Sound? && b.header.prevHash == v.tip
    ensures var t, hash, root := v.blocks[p.powHash(b.header, seed) := b], p.powHash(b.header, seed), p.genesis.hash;
      && hash !in v.blocks && Shape(p, v.(blocks := t)) && v.tip in t
      && Work(t, root, hash) == Work(t, root, v.tip) + b.header.difficulty
  {
    hide Judge, DifficultiesFollow, WellFormed, Work, Path;
    SoundHash(p, v.blocks, b, seed);
    StoredBlock(p, v, b, seed);
  }

  lemma SoundHash(p: Params, s: Store, b: Block, seed: Hash256)
    requires WellFormed(s, p.genesis.hash)
    ensures Judge(p, s, b, seed).Sound? ==> Judge(p, s, b, seed).hash == p.powHash(b.header, seed)
  {
  }

  /** Same blocks, same tip. */
  predicate Unmoved(v: ChainView, w: ChainView) {
    w.blocks == v.blocks && w.tip == v.tip
  }

  lemma {:induction false} TurnedDown(p: Params, v: ChainView, b: Block, seed: Hash256)
    requires Shape(p, v) && IsTemplate(p, v, b) && SeedFor(p, v, b.header.height) == Ok(seed)
    requires !Judge(p, v.blocks, b, seed).Sound?
    ensures var step, verdict := Submit(p, v, b), Judge(p, v.blocks, b, seed);
      && Unmoved(v, step.view)
      && (verdict.Known? ==> step.answer == Ok(AlreadyKnown))
      && (verdict.Refused? ==> step.answer == Err(verdict.error))
  {
    hide Judge, SeedFor, WellFormed, DifficultiesFollow;
    assert b.header.height > 0;
  }

  lemma {:induction false} TemplateVerdict(p: Params, v: ChainView, b: Block, seed: Hash256)
    requires Shape(p, v) && IsTemplate(p, v, b)
    ensures var hash := p.powHash(b.header, seed);
      Judge(p, v.blocks, b, seed)
      == if hash in v.blocks then Known
         else if !MeetsDifficulty(hash, b.header.difficulty) then Refused(ProofOfWorkTooWeak)
         else if !ValidSignatures(p, b.transactions) then Refused(InvalidSignature)
         else Sound(hash)
  {
    hide ExpectedDifficulty, MeetsDifficulty, Merkle.TreeRoot, ValidSignatures;
  }

  /** After any run from genesis, a template submitted while the tip is unchanged
      meets one of these answers and no other: it lies beyond the first epoch, its
      hash is taken, its proof of work is too weak, a signature is missing; or it
      is stored, and becomes the tip exactly if it adds work and its transactions
      check out. */
  lemma {:induction false} TemplateIsAccepted(p: Params, bs: seq<Block>, b: Block)
    requires IsTemplate(p, After(p, bs), b)
    ensures var v, seed := After(p, bs), p.epochSeed(None);
      var hash, step := p.powHash(b.header, seed), Submit(p, v, b);
      if b.header.height >= EPOCH_LENGTH then
        step == Step(v, Err(EpochBoundaryNotFound(EPOCH_LENGTH)))
      else if hash in v.blocks then
        Unmoved(v, step.view) && step.answer == Ok(AlreadyKnown)
      else if !MeetsDifficulty(hash, b.header.difficulty) then
        Unmoved(v, step.view) && step.answer == Err(ProofOfWorkTooWeak)
      else if !ValidSignatures(p, b.transactions) then
        Unmoved(v, step.view) && step.answer == Err(InvalidSignature)
      else if b.header.difficulty == 0 then
        && step.view.blocks == v.blocks[hash := b] && step.view.tip == v.tip
        && step.answer == Ok(SideBranch(hash, b.header.height))
      else
        && Replay(p, v.blocks, v.tip).Ok?
        && Shape(p, step.view) && step.view.blocks == v.blocks[hash := b]
        && Replay(p, step.view.blocks, hash) == ApplyBlock(p, Replay(p, v.blocks, v.tip).value, Entry(hash, b))
        && v.tip in step.view.blocks
        && Work(step.view.blocks, p.genesis.hash, hash) > Work(step.view.blocks, p.genesis.hash, v.tip)
        && match Replay(p, step.view.blocks, hash)
           case Ok(_) => step.view.tip == hash && step.answer == Ok(Accepted(hash, b.header.height, false, []))
           case Err(e) => step.view.tip == v.tip && step.answer == Err(e)
  {
    var v, seed := After(p, bs), p.epochSeed(None);
    RunStaysBest(p, bs);
    HeightsStayBelow(p, bs, v.tip);
    if b.header.height >= EPOCH_LENGTH {
      SecondEpochRefused(p, bs, b);
      BoundaryFacts(b.header.height);
    } else {
      NextSeedIff(p, bs);
      TemplateVerdict(p, v, b, seed);
      if Judge(p, v.blocks, b, seed).Sound? && b.header.difficulty == 0 {
        hide *;
        WeightlessTemplate(p, v, b, seed);
      } else if Judge(p, v.blocks, b, seed).Sound? {
        hide *;
        SoundTemplate(p, v, b, seed);
      } else {
        hide *;
        TurnedDown(p, v, b, seed);
      }
    }
  }

  lemma RunStaysBest(p: Params, bs: seq<Block>)
    ensures Best(p, After(p, bs))
  {
    StartIsBest(p);
    RunIsBest(p, Start(p), bs);
  }

  // ----- a pending transaction that can no longer be carried out -----

  /** The tip stays, and the block is not accepted. */
  ghost predicate NotAccepted(p: Params, v: ChainView, b: Block)
    requires Shape(p, v)
  {
    var step := Submit(p, v, b);
    step.view.tip == v.tip && !(step.answer.Ok? && step.answer.value.Accepted?)
  }

  lemma StaleBlockFails(p: Params, l: Ledger, e: Entry, tx: Transaction)
    requires tx in e.block.transactions && Stale(p, l, tx)
    ensures ApplyBlock(p, l, e).Err?
  {
    StaleFails(p, l, e.block.transactions, tx);
  }

  lemma {:induction false} StaleNotAccepted(p: Params, v: ChainView, b: Block, tx: Transaction)
    requires Shape(p, v) && Best(p, v) && IsTemplate(p, v, b)
    requires tx in b.transactions && Stale(p, Replay(p, v.blocks, v.tip).value, tx)
    ensures NotAccepted(p, v, b)
  {
    hide Submit, IsTemplate, MeetsDifficulty, ValidSignatures, ApplyBlock, Stale, Replay, Work, Judge, SeedFor,
         WellFormed, DifficultiesFollow;
    TemplateParent(p, v, b);
    if SeedFor(p, v, b.header.height).Ok? {
      var seed := SeedFor(p, v, b.header.height).value;
      StaleBlockFails(p, Replay(p, v.blocks, v.tip).value, Entry(p.powHash(b.header, seed), b), tx);
      TemplateVerdict(p, v, b, seed);
      if !Judge(p, v.blocks, b, seed).Sound? {
        TurnedDown(p, v, b, seed);
      } else if b.header.difficulty == 0 {
        WeightlessTemplate(p, v, b, seed);
      } else {
        SoundTemplate(p, v, b, seed);
      }
    } else {
      NoSeed(p, v, b);
    }
  }

  lemma NoSeed(p: Params, v: ChainView, b: Block)
    requires Shape(p, v) && b.header.height > 0 && SeedFor(p, v, b.header.height).Err?
    ensures NotAccepted(p, v, b)
  {
    hide Shape, SeedFor;
  }

  /** A template that holds a stale transaction is never accepted, wherever in the
      block it stands; if nothing else is wrong with it, it is stored all the same. */
  lemma {:induction false} StaleTemplate(p: Params, bs: seq<Block>, b: Block, tx: Transaction)
    requires IsTemplate(p, After(p, bs), b) && tx in b.transactions
    requires Replay(p, After(p, bs).blocks, After(p, bs).tip).Ok? ==>
      Stale(p, Replay(p, After(p, bs).blocks, After(p, bs).tip).value, tx)
    ensures NotAccepted(p, After(p, bs), b)
    ensures var v, hash := After(p, bs), p.powHash(b.header, p.epochSeed(None));
      (b.header.height < EPOCH_LENGTH && hash !in v.blocks && MeetsDifficulty(hash, b.header.difficulty)
       && ValidSignatures(p, b.transactions)) ==>
        Submit(p, v, b).view.blocks == v.blocks[hash := b]
  {
    var v, hash := After(p, bs), p.powHash(b.header, p.epochSeed(None));
    RunStaysBest(p, bs);
    StaleNotAccepted(p, v, b, tx);
    StaleBlockFails(p, Replay(p, v.blocks, v.tip).value, Entry(hash, b), tx);
    hide After, Submit, IsTemplate, ApplyBlock, ValidSignatures, MeetsDifficulty, Work, Replay, Stale, Shape, Best,
         NotAccepted;
    TemplateIsAccepted(p, bs, b);
  }

  // ----- steps of a run -----

  lemma AfterSnoc(p: Params, bs: seq<Block>, b: Block)
    ensures After(p, bs + [b]) == Submit(p, After(p, bs), b).view
  {
    StartHasShape(p);
    RunSnoc(p, Start(p), bs, b);
  }

  lemma StoredOff(p: Params, w: ChainView, h: Hash256, stored: Block)
    requires Shape(p, w) && h in w.blocks && w.blocks[h] == stored && w.tip in w.blocks
    requires Replay(p, w.blocks, h).Err?
    requires Work(w.blocks, p.genesis.hash, h) > Work(w.blocks, p.genesis.hash, w.tip)
    ensures OutWorks(p, w, h) && OffForGood(p, w, h, stored, Work(w.blocks, p.genesis.hash, h))
  {
    hide Work, Replay, WellFormed, DifficultiesFollow;
  }

  lemma {:induction false} KnownHash(p: Params, bs: seq<Block>, b: Block)
    requires p.powHash(b.header, p.epochSeed(None)) in After(p, bs).blocks
    requires 0 < b.header.height < EPOCH_LENGTH
    ensures Submit(p, After(p, bs), b).answer == Ok(AlreadyKnown)
  {
    hide Shape, Run, Merkle.TreeRoot;
    HeightsStayBelow(p, bs, p.genesis.hash);
    SeedInFirstEpoch(p, After(p, bs), b.header.height);
  }

  lemma {:induction false} AnsweredOnly(p: Params, v: ChainView, b: Block)
    requires Shape(p, v) && Submit(p, v, b).answer == Ok(AlreadyKnown)
    ensures Unmoved(v, Submit(p, v, b).view)
  {
    hide Shape, Judge, SeedFor, Work, Replay, Requeue, UndoList, ApplyList;
  }
}
