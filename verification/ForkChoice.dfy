/** The consensus rule twice. The reference machine remembers only the block
    tree and the tip and reads balances off a replay from genesis. The working
    machine carries the balances and moves them block by block across a fork,
    as the code does. Runs has the theorems about all sequences of steps. */
module ForkChoice {
  import opened Primitives
  import opened Protocol
  import opened Ledger
  import opened BlockTree
  import Difficulty
  import Merkle

  const EPOCH_LENGTH := 2048

  /** The proof-of-work dataset is fixed by its seed. It is cached for one epoch
      and not dropped on a fork, so the cache is part of the state. */
  datatype CachedSeed = CachedSeed(epoch: nat, seed: Hash256)

  datatype ChainView = ChainView(blocks: Store, tip: Hash256, cache: Option<CachedSeed>)

  function GenesisBlock(p: Params): Block {
    Block(Header(0, ZERO_HASH, ZERO_HASH, p.genesis.timestamp, p.genesis.initialDifficulty,
                 Address(Repeat(0, 20)), 0), [])
  }

  function Start(p: Params): ChainView {
    ChainView(map[p.genesis.hash := GenesisBlock(p)], p.genesis.hash, None)
  }

  // ----- what is checked before a block is stored -----

  /** Difficulty of the block after `parent`, read off its own branch. */
  ghost function ExpectedDifficulty(p: Params, s: Store, parent: Hash256): U64
    requires WellFormed(s, p.genesis.hash) && parent in s
  {
    var height, window := s[parent].header.height, p.RetargetWindow();
    if height + 1 <= window then p.genesis.initialDifficulty
    else
      var start := Path(s, p.genesis.hash, parent)[height - window];
      Difficulty.NextDifficulty(
        s[parent].header.difficulty,
        SaturatingSub(s[parent].header.timestamp, s[start].header.timestamp),
        p.genesis.targetBlockTime, window)
  }

  datatype Verdict = Refused(error: ChainError) | Known | NoParent(parent: Hash256) | Sound(hash: Hash256)

  predicate MeetsDifficulty(hash: Hash256, difficulty: U64) {
    Difficulty.MeetsTarget(hash, Difficulty.TargetForDifficulty(difficulty))
  }

  predicate ValidSignatures(p: Params, txs: seq<Transaction>) {
    forall tx :: tx in txs ==> p.signatureValid(tx)
  }

  ghost function Judge(p: Params, s: Store, b: Block, seed: Hash256): Verdict
    requires WellFormed(s, p.genesis.hash)
  {
    var hash := p.powHash(b.header, seed);
    if hash in s then Known
    else if b.header.txRoot != Merkle.TreeRoot(p.pairHash, p.TxHashes(b.transactions)) then Refused(InvalidTxRoot)
    else if !MeetsDifficulty(hash, b.header.difficulty) then Refused(ProofOfWorkTooWeak)
    else if !ValidSignatures(p, b.transactions) then Refused(InvalidSignature)
    else if b.header.prevHash !in s then NoParent(b.header.prevHash)
    else if s[b.header.prevHash].header.height + 1 != b.header.height then Refused(WrongHeight)
    else
      var expected := ExpectedDifficulty(p, s, b.header.prevHash);
      if b.header.difficulty != expected then Refused(WrongDifficulty(b.header.difficulty, expected))
      else Sound(hash)
  }

  /** The epoch seed for a height, through the cache or the canonical chain. */
  ghost function SeedFor(p: Params, v: ChainView, height: nat): Result<Hash256, ChainError>
    requires Shape(p, v)
  {
    var epoch := height / EPOCH_LENGTH;
    var boundary := epoch * EPOCH_LENGTH;
    if v.cache.Some? && v.cache.value.epoch == epoch then Ok(v.cache.value.seed)
    else if epoch == 0 then Ok(p.epochSeed(None))
    else if boundary <= v.blocks[v.tip].header.height then
      Ok(p.epochSeed(Some(Path(v.blocks, p.genesis.hash, v.tip)[boundary])))
    else Err(EpochBoundaryNotFound(boundary))
  }

  ghost predicate DifficultiesFollow(p: Params, s: Store)
    requires WellFormed(s, p.genesis.hash)
  {
    forall h {:trigger FollowsRule(p, s, h)} :: h in s && h != p.genesis.hash ==> FollowsRule(p, s, h)
  }

  ghost predicate FollowsRule(p: Params, s: Store, h: Hash256)
    requires WellFormed(s, p.genesis.hash) && h in s
  {
    Rooted(s, h) && s[h].header.difficulty == ExpectedDifficulty(p, s, s[h].header.prevHash)
  }

  /** What every reachable store satisfies. */
  ghost predicate Shape(p: Params, v: ChainView) {
    && WellFormed(v.blocks, p.genesis.hash)
    && v.blocks[p.genesis.hash] == GenesisBlock(p)
    && v.tip in v.blocks
    && DifficultiesFollow(p, v.blocks)
  }

  lemma StartHasShape(p: Params)
    ensures var s, root := Start(p).blocks, p.genesis.hash;
      && Shape(p, Start(p))
      && Path(s, root, root) == [root]
      && Work(s, root, root) == p.genesis.initialDifficulty
  {
    hide Repeat;
  }

  // ----- one submitted block -----

  function TxHashSet(p: Params, es: seq<Entry>): set<Hash256> {
    set i, j | 0 <= i < |es| && 0 <= j < |es[i].block.transactions| :: p.txHash(es[i].block.transactions[j])
  }

  function Displaced(p: Params, txs: seq<Transaction>, applied: set<Hash256>): seq<Transaction> {
    if txs == [] then []
    else
      Displaced(p, txs[..|txs| - 1], applied)
      + if p.txHash(txs[|txs| - 1]) in applied then [] else [txs[|txs| - 1]]
  }

  /** Transactions of the losing branch, in undo order, that the winning one lacks. */
  function Requeue(p: Params, undo: seq<Entry>, applied: set<Hash256>): seq<Transaction> {
    if undo == [] then []
    else Requeue(p, undo[..|undo| - 1], applied) + Displaced(p, undo[|undo| - 1].block.transactions, applied)
  }

  /** Either the answer is final, or the block is stored and out-works the tip. */
  datatype Attempt =
    | Final(view: ChainView, answer: Result<SubmitOutcome, ChainError>)
    | Challenge(view: ChainView, hash: Hash256, won: SubmitOutcome)

  ghost function Admit(p: Params, v: ChainView, b: Block): Attempt
    requires Shape(p, v)
  {
    if b.header.height == 0 then Final(v, Err(SecondGenesis))
    else
      match SeedFor(p, v, b.header.height)
      case Err(e) => Final(v, Err(e))
      case Ok(seed) =>
        var warm := v.(cache := Some(CachedSeed(b.header.height / EPOCH_LENGTH, seed)));
        match Judge(p, v.blocks, b, seed)
        case Refused(e) => Final(warm, Err(e))
        case Known => Final(warm, Ok(AlreadyKnown))
        case NoParent(parent) => Final(warm, Ok(Orphan(parent)))
        case Sound(hash) =>
          StoreKeepsWellFormed(v.blocks, p.genesis.hash, hash, b);
          var s, root := v.blocks[hash := b], p.genesis.hash;
          if Work(s, root, hash) <= Work(s, root, v.tip) then
            Final(warm.(blocks := s), Ok(SideBranch(hash, b.header.height)))
          else
            var undo, apply := UndoList(s, root, v.tip, hash), ApplyList(s, root, v.tip, hash);
            Challenge(warm.(blocks := s), hash,
              Accepted(hash, b.header.height, v.tip != b.header.prevHash, Requeue(p, undo, TxHashSet(p, apply))))
  }

  datatype Step = Step(view: ChainView, answer: Result<SubmitOutcome, ChainError>)

  /** The reference rule: a challenger wins if its whole path replays. */
  ghost function Submit(p: Params, v: ChainView, b: Block): Step
    requires Shape(p, v)
  {
    match Admit(p, v, b)
    case Final(w, answer) => Step(w, answer)
    case Challenge(w, hash, won) =>
      AdmitCases(p, v, b);
      match Replay(p, w.blocks, hash)
      case Err(e) => Step(w, Err(e))
      case Ok(_) => Step(w.(tip := hash), Ok(won))
  }

  datatype Machine = Machine(view: ChainView, ledger: Ledger)
  datatype MachineStep = MachineStep(machine: Machine, answer: Result<SubmitOutcome, ChainError>)

  /** The working rule: a challenger wins if undoing the losing branch and
      applying the winning one goes through, and the balances follow. */
  ghost function SubmitInPlace(p: Params, m: Machine, b: Block): MachineStep
    requires Shape(p, m.view)
  {
    match Admit(p, m.view, b)
    case Final(w, answer) => MachineStep(m.(view := w), answer)
    case Challenge(w, hash, won) =>
      AdmitCases(p, m.view, b);
      match ReorgLedger(p, w.blocks, m.ledger, m.view.tip, hash)
      case Err(e) => MachineStep(m.(view := w), Err(e))
      case Ok(l) => MachineStep(Machine(w.(tip := hash), l), Ok(won))
  }

  /** The header a miner is handed: next height, the tip as parent, the root of
      the transactions and the difficulty the tip's branch asks for. */
  ghost predicate IsTemplate(p: Params, v: ChainView, b: Block)
    requires Shape(p, v)
  {
    && b.header.height == v.blocks[v.tip].header.height + 1
    && b.header.prevHash == v.tip
    && b.header.txRoot == Merkle.TreeRoot(p.pairHash, p.TxHashes(b.transactions))
    && b.header.difficulty == ExpectedDifficulty(p, v.blocks, v.tip)
  }

  // ----- what one step keeps -----

  lemma {:induction false} ExpectedDifficultyKept(p: Params, s: Store, n: Hash256, b: Block, h: Hash256)
    requires WellFormed(s, p.genesis.hash) && n !in s && WellFormed(s[n := b], p.genesis.hash)
    requires h in s
    ensures ExpectedDifficulty(p, s[n := b], h) == ExpectedDifficulty(p, s, h)
  {
    hide WellFormed, Path, Difficulty.NextDifficulty;
    PathKept(s, p.genesis.hash, n, b, h);
  }

  lemma {:induction false} DifficultiesKept(p: Params, s: Store, n: Hash256, b: Block)
    requires WellFormed(s, p.genesis.hash) && n !in s && WellFormed(s[n := b], p.genesis.hash)
    requires DifficultiesFollow(p, s)
    requires b.header.prevHash in s && b.header.difficulty == ExpectedDifficulty(p, s, b.header.prevHash)
    ensures DifficultiesFollow(p, s[n := b])
  {
    var t := s[n := b];
    forall h | h in t && h != p.genesis.hash ensures FollowsRule(p, t, h) {
      assert Rooted(t, h);
      if h != n {
        assert FollowsRule(p, s, h);
      }
      ExpectedDifficultyKept(p, s, n, b, t[h].header.prevHash);
    }
  }

  /** Admission only adds a block, never moves the tip, and keeps the shape; the
      added block is a challenger exactly when it out-works the tip. */
  lemma {:induction false} AdmitCases(p: Params, v: ChainView, b: Block)
    requires Shape(p, v)
    ensures var a := Admit(p, v, b);
      && Shape(p, a.view) && a.view.tip == v.tip && v.tip in a.view.blocks
      && (a.view.blocks == v.blocks || exists n :: n !in v.blocks && a.view.blocks == v.blocks[n := b])
      && (a.Challenge? ==> a.hash in a.view.blocks && a.hash !in v.blocks)
      && forall h :: h in a.view.blocks && h !in v.blocks ==>
           if a.Challenge? then h == a.hash && OutWorks(p, a.view, h) else !OutWorks(p, a.view, h)
  {
    hide Work, UndoList, ApplyList, Requeue, WellFormed, DifficultiesFollow, SeedFor, Judge;
    if b.header.height > 0 && SeedFor(p, v, b.header.height).Ok? {
      var seed := SeedFor(p, v, b.header.height).value;
      if Judge(p, v.blocks, b, seed).Sound? {
        SoundBlock(p, v, b, seed);
      }
    }
  }

  lemma {:induction false} SoundBlock(p: Params, v: ChainView, b: Block, seed: Hash256)
    requires Shape(p, v)
    requires Judge(p, v.blocks, b, seed).Sound?
    ensures var hash := Judge(p, v.blocks, b, seed).hash;
      hash !in v.blocks && Shape(p, v.(blocks := v.blocks[hash := b]))
  {
    var hash := Judge(p, v.blocks, b, seed).hash;
    StoreKeepsWellFormed(v.blocks, p.genesis.hash, hash, b);
    DifficultiesKept(p, v.blocks, hash, b);
  }

  lemma SoundParent(p: Params, v: ChainView, b: Block, seed: Hash256)
    requires Shape(p, v)
    requires Judge(p, v.blocks, b, seed).Sound?
    ensures var s, hash := v.blocks, Judge(p, v.blocks, b, seed).hash;
      && b.header.prevHash in s && hash !in s && v.tip in s
      && b.header.height == s[b.header.prevHash].header.height + 1
  {
  }

  /** Storing a sound block: the tree stays well shaped, no recorded path or
      work changes, and the new block's work is its parent's plus its own. */
  lemma {:induction false} StoredBlock(p: Params, v: ChainView, b: Block, seed: Hash256)
    requires Shape(p, v)
    requires Judge(p, v.blocks, b, seed).Sound?
    ensures var s, hash, root := v.blocks, Judge(p, v.blocks, b, seed).hash, p.genesis.hash;
      var t := s[hash := b];
      && Shape(p, v.(blocks := t)) && v.tip in s && b.header.prevHash in s && hash !in s
      && Path(t, root, v.tip) == Path(s, root, v.tip)
      && (forall h :: h in s ==> Work(t, root, h) == Work(s, root, h))
      && Work(t, root, hash) == Work(s, root, b.header.prevHash) + b.header.difficulty
  {
    var s, hash, root := v.blocks, Judge(p, v.blocks, b, seed).hash, p.genesis.hash;
    SoundBlock(p, v, b, seed);
    PathKept(s, root, hash, b, v.tip);
    forall h | h in s ensures Work(s[hash := b], root, h) == Work(s, root, h) {
      WorkKept(s, root, hash, b, h);
    }
  }

  ghost predicate OutWorks(p: Params, v: ChainView, h: Hash256)
    requires Shape(p, v) && h in v.blocks
  {
    Work(v.blocks, p.genesis.hash, h) > Work(v.blocks, p.genesis.hash, v.tip)
  }
}
