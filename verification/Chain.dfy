/** The chain: validation, fork choice and reorganisation over the database,
    in the order and with the loops of the code. Every method is tied to the
    working machine of ForkChoice, which Runs relates to the reference rule. */
module ChainModule {
  import opened Primitives
  import opened Protocol
  import opened Ledger
  import opened BlockTree
  import opened ForkChoice
  import opened ForkWalk
  import opened Simulation
  import opened ChainStore
  import Difficulty
  import Merkle

  /** Heights run down the undo list from the old tip and up the apply list
      from the fork. */
  ghost predicate BranchHeights(po: seq<Hash256>, pn: seq<Hash256>, k: nat, undo: seq<Entry>, apply: seq<Entry>) {
    && k <= |po| && k <= |pn| && po[..k] == pn[..k]
    && |undo| == |po| - k && |apply| == |pn| - k
    && (forall i :: 0 <= i < |undo| ==> undo[i].block.header.height == |po| - 1 - i)
    && (forall i :: 0 <= i < |apply| ==> apply[i].hash == pn[k + i] && apply[i].block.header.height == k + i)
  }

  lemma ReorgSteps(p: Params, s: Store, l: Ledger, oldTip: Hash256, newTip: Hash256)
    requires WellFormed(s, p.genesis.hash) && oldTip in s && newTip in s
    ensures var root := p.genesis.hash;
      var undo, apply := UndoList(s, root, oldTip, newTip), ApplyList(s, root, oldTip, newTip);
      && ReorgLedger(p, s, l, oldTip, newTip) == ApplyBlocks(p, UndoBlocks(p, l, undo), apply)
      && BranchHeights(Path(s, root, oldTip), Path(s, root, newTip), ForkPoint(s, root, oldTip, newTip), undo, apply)
  {
    var root := p.genesis.hash;
    PathLinked(s, root, oldTip);
    PathLinked(s, root, newTip);
    CommonPrefixAgrees(Path(s, root, oldTip), Path(s, root, newTip));
    hide WellFormed, Path;
    LinkedHeights(s, Path(s, root, oldTip), Path(s, root, newTip), ForkPoint(s, root, oldTip, newTip));
    hide BranchHeights, CommonPrefix;
  }

  lemma LinkedHeights(s: Store, po: seq<Hash256>, pn: seq<Hash256>, k: nat)
    requires Linked(s, po) && Linked(s, pn) && k <= |po| && k <= |pn| && po[..k] == pn[..k]
    ensures BranchHeights(po, pn, k, Reverse(Entries(s, po[k..])), Entries(s, pn[k..]))
  {
    var lost := Entries(s, po[k..]);
    forall i | 0 <= i < |lost| ensures Reverse(lost)[i] == lost[|lost| - 1 - i] {
      ReverseAt(lost, i);
    }
  }

  lemma OverlayEnds(stored: Accounts, overlay: Accounts)
    ensures stored + (overlay - overlay.Keys) == stored
    ensures Canonical(stored + (overlay - {})) == Current(stored, overlay)
  {
    assert overlay - {} == overlay;
  }

  lemma OverlayStep(stored: Accounts, overlay: Accounts, rest: set<Address>, a: Address)
    requires a in rest && rest <= overlay.Keys
    ensures (stored + (overlay - rest))[a := overlay[a]] == stored + (overlay - (rest - {a}))
  {
  }

  lemma IndexStep(path: seq<Hash256>, n: nat)
    requires n < |path|
    ensures IndexOf(path[..n + 1]) - {n} == IndexOf(path[..n])
    ensures IndexOf(path[..n])[n := path[n]] == IndexOf(path[..n + 1])
  {
  }

  class Chain {
    const p: Params
    const state: ChainState
    var cache: Option<CachedSeed>

    ghost predicate Valid()
      reads state`blocks, state`tip, state`heights, state`chainwork
      ensures Valid() ==> state.tip.Some?
    {
      state.Consistent(p)
    }

    lemma ShapeFacts()
      requires Valid()
      ensures state.tip.Some? && Shape(p, View()) && Shape(p, Model().view)
    {
    }

    lemma TreeFacts()
      requires Valid()
      ensures WellFormed(state.blocks, p.genesis.hash)
    {
    }

    lemma RootFacts()
      requires Valid()
      ensures p.genesis.hash in state.blocks && state.blocks[p.genesis.hash].header.prevHash == ZERO_HASH
    {
    }

    lemma IndexFacts()
      requires Valid()
      ensures WellFormed(state.blocks, p.genesis.hash)
      ensures state.tip.Some? && state.tip.value.hash in state.blocks
      ensures state.heights == IndexOf(Path(state.blocks, p.genesis.hash, state.tip.value.hash))
      ensures state.tip.value.height == state.blocks[state.tip.value.hash].header.height
    {
    }

    ghost function View(): ChainView
      reads this`cache, state`blocks, state`tip
      requires state.tip.Some?
    {
      state.View(cache)
    }

    ghost function Model(): Machine
      reads this`cache, state`blocks, state`tip, state`accounts
      requires state.tip.Some?
    {
      Machine(View(), Canonical(state.accounts))
    }

    /** The genesis state written over whatever the trees held before. */
    ghost predicate WritesGenesis(accounts: map<Address, Account>, blocks: Store, heights: map<nat, Hash256>,
                                     work: map<Hash256, nat>)
      reads state
    {
      && state.tip == Some(Tip(0, p.genesis.hash))
      && state.blocks == blocks[p.genesis.hash := GenesisBlock(p)]
      && state.heights == heights[0 := p.genesis.hash]
      && state.chainwork == work[p.genesis.hash := p.genesis.initialDifficulty]
      && Canonical(state.accounts) == CreditAll(Canonical(accounts), p.genesis.premine)
    }

    /** Opens a database: without a tip record it gets the genesis state, with one
        it is picked up where it was left. Only the dataset cache is lost. */
    constructor Open(p: Params, db: ChainState)
      modifies db
      ensures this.p == p && state == db && cache == None
      ensures old(db.tip).Some? ==> unchanged(db)
      ensures old(db.tip).None? ==> WritesGenesis(old(db.accounts), old(db.blocks), old(db.heights), old(db.chainwork))
      ensures db.mempool == old(db.mempool)
      ensures old(db.IsEmpty()) ==> Valid() && Model() == Machine(Start(p), GenesisLedger(p))
      ensures old(db.Consistent(p)) ==> Valid()
    {
      this.p := p;
      this.state := db;
      this.cache := None;
      new;
      if state.tip.None? {
        InitGenesis();
      }
    }

    method InitGenesis()
      requires cache == None
      modifies state
      ensures WritesGenesis(old(state.accounts), old(state.blocks), old(state.heights), old(state.chainwork))
      ensures state.mempool == old(state.mempool)
      ensures old(state.IsEmpty()) ==> Valid() && Model() == Machine(Start(p), GenesisLedger(p))
    {
      hide Valid, ChainState.Consistent, CreditAll, Repeat;
      ghost var empty := state.IsEmpty();
      var block := GenesisBlock(p);
      var hash := p.genesis.hash;
      CreditPremine();
      state.SetChainwork(hash, block.header.difficulty);
      state.StoreBlock(hash, block);
      state.SetCanonicalHeight(0, hash);
      state.SetTip(0, hash);
      if empty {
        GenesisConsistent();
      }
    }

    method CreditPremine()
      modifies state`accounts
      ensures Canonical(state.accounts) == CreditAll(Canonical(old(state.accounts)), p.genesis.premine)
    {
      hide Credit;
      for i := 0 to |p.genesis.premine|
        invariant Canonical(state.accounts) == CreditAll(Canonical(old(state.accounts)), p.genesis.premine[..i])
      {
        assert p.genesis.premine[..i + 1][..i] == p.genesis.premine[..i];
        state.CreditAccount(p.genesis.premine[i].0, p.genesis.premine[i].1);
      }
      assert p.genesis.premine[..|p.genesis.premine|] == p.genesis.premine;
    }

    lemma GenesisConsistent()
      requires state.blocks == Start(p).blocks && state.tip == Some(Tip(0, p.genesis.hash))
      requires state.heights == map[0 := p.genesis.hash]
      requires state.chainwork == map[p.genesis.hash := p.genesis.initialDifficulty]
      ensures Valid()
    {
      hide Repeat, WellFormed, Path, Work, DifficultiesFollow;
      StartHasShape(p);
      assert state.View(None) == Start(p);
    }

    // ----- epochs and difficulty -----

    method DatasetForHeight(height: nat) returns (r: Result<Hash256, ChainError>)
      requires Valid()
      modifies `cache
      ensures Valid()
      ensures r == SeedFor(p, old(View()), height)
      ensures cache == if r.Ok? then Some(CachedSeed(height / EPOCH_LENGTH, r.value)) else old(cache)
    {
      var epoch := height / EPOCH_LENGTH;
      if cache.Some? && cache.value.epoch == epoch {
        return Ok(cache.value.seed);
      }
      var seed;
      if epoch == 0 {
        seed := p.epochSeed(None);
      } else {
        var boundary := epoch * EPOCH_LENGTH;
        match state.GetHashByHeight(boundary) {
          case None => return Err(EpochBoundaryNotFound(boundary));
          case Some(h) => seed := p.epochSeed(Some(h));
        }
      }
      cache := Some(CachedSeed(epoch, seed));
      return Ok(seed);
    }

    /** Difficulty after canonical height nextHeight - 1, through the height index. */
    method ComputeNextDifficulty(nextHeight: nat) returns (r: Result<U64, ChainError>)
      requires Valid()
      ensures nextHeight <= p.RetargetWindow() ==> r == Ok(p.genesis.initialDifficulty)
      ensures 1 <= nextHeight <= state.tip.value.height + 1 ==>
        var path := Path(state.blocks, p.genesis.hash, state.tip.value.hash);
        r == Ok(ExpectedDifficulty(p, state.blocks, path[nextHeight - 1]))
      ensures nextHeight > state.tip.value.height + 1 && nextHeight > p.RetargetWindow() ==> r.Err?
    {
      hide Valid, ChainState.Consistent, WellFormed, Path, Difficulty.NextDifficulty;
      IndexFacts();
      ghost var path := Path(state.blocks, p.genesis.hash, state.tip.value.hash);
      var window := p.RetargetWindow();
      if 1 <= nextHeight <= state.tip.value.height + 1 {
        PathPrefix(state.blocks, p.genesis.hash, state.tip.value.hash, nextHeight - 1);
      }
      if nextHeight <= window {
        return Ok(p.genesis.initialDifficulty);
      }
      match state.GetBlockByHeight(nextHeight - 1) {
        case None => return Err(MissingHeight(nextHeight - 1));
        case Some(tipBlock) =>
          match state.GetBlockByHeight(nextHeight - 1 - window) {
            case None => return Err(MissingHeight(nextHeight - 1 - window));
            case Some(start) =>
              assert path[..nextHeight][nextHeight - 1 - window] == path[nextHeight - 1 - window];
              return Ok(Difficulty.NextDifficulty(
                tipBlock.header.difficulty,
                SaturatingSub(tipBlock.header.timestamp, start.header.timestamp),
                p.genesis.targetBlockTime, window));
          }
      }
    }

    /** Walks back along the parent links of one branch. */
    method BlockAncestor(from: Block, depth: nat, ghost h: Hash256) returns (r: Option<Block>)
      requires Valid() && h in state.blocks && from == state.blocks[h]
      ensures depth > from.header.height && ZERO_HASH !in state.blocks ==> r == None
      ensures depth <= from.header.height ==>
        r == Some(state.blocks[Path(state.blocks, p.genesis.hash, h)[from.header.height - depth]])
    {
      hide Valid, ChainState.Consistent, WellFormed, Path;
      TreeFacts();
      RootFacts();
      var current := from;
      ghost var path := Path(state.blocks, p.genesis.hash, h);
      for i := 0 to depth
        invariant ZERO_HASH !in state.blocks ==> i <= from.header.height
        invariant i <= from.header.height ==> current == state.blocks[path[from.header.height - i]]
      {
        if i < from.header.height {
          PathPrefix(state.blocks, p.genesis.hash, h, from.header.height - i);
        }
        match state.GetBlock(current.header.prevHash) {
          case None => return None;
          case Some(b) => current := b;
        }
      }
      return Some(current);
    }

    /** Difficulty after `parent` on parent's own branch, which may be a side branch. */
    method ExpectedDifficultyAfter(parent: Block, ghost h: Hash256) returns (r: Result<U64, ChainError>)
      requires Valid() && h in state.blocks && parent == state.blocks[h]
      ensures r == Ok(ExpectedDifficulty(p, state.blocks, h))
    {
      hide Valid, ChainState.Consistent, WellFormed, Path, Difficulty.NextDifficulty;
      TreeFacts();
      var nextHeight := parent.header.height + 1;
      var window := p.RetargetWindow();
      if nextHeight <= window {
        return Ok(p.genesis.initialDifficulty);
      }
      var ancestor := BlockAncestor(parent, window, h);
      match ancestor {
        case None => return Err(NotEnoughAncestors);
        case Some(start) =>
          return Ok(Difficulty.NextDifficulty(
            parent.header.difficulty,
            SaturatingSub(parent.header.timestamp, start.header.timestamp),
            p.genesis.targetBlockTime, window));
      }
    }

    // ----- reorganisation -----

    /** Writes every touched account, in whatever order the map yields them. */
    method CommitAccounts(overlay: Accounts)
      modifies state`accounts
      ensures Canonical(state.accounts) == Current(old(state.accounts), overlay)
    {
      hide *;
      var rest := overlay.Keys;
      ghost var stored := state.accounts;
      OverlayEnds(stored, overlay);
      while rest != {}
        invariant rest <= overlay.Keys
        invariant state.accounts == stored + (overlay - rest)
        decreases |rest|
      {
        var a :| a in rest;
        OverlayStep(stored, overlay, rest, a);
        state.SetAccount(a, overlay[a]);
        rest := rest - {a};
      }
    }

    /** Takes the losing branch out of the height index and puts the winning one in. */
    method CommitHeights(undo: seq<Entry>, apply: seq<Entry>,
                         ghost po: seq<Hash256>, ghost pn: seq<Hash256>, ghost k: nat)
      requires BranchHeights(po, pn, k, undo, apply)
      requires state.heights == IndexOf(po)
      modifies state`heights
      ensures state.heights == IndexOf(pn)
    {
      hide IndexOf;
      assert po[..|po|] == po && pn[..|pn|] == pn;
      for i := 0 to |undo|
        invariant state.heights == IndexOf(po[..|po| - i])
      {
        IndexStep(po, |po| - i - 1);
        state.RemoveCanonicalHeight(undo[i].block.header.height);
      }
      for i := 0 to |apply|
        invariant state.heights == IndexOf(pn[..k + i])
      {
        IndexStep(pn, k + i);
        state.SetCanonicalHeight(apply[i].block.header.height, apply[i].hash);
      }
    }

    /** Moves the canonical chain from oldTip to newTip, or leaves accounts,
        height index and tip untouched if the new branch does not check out. */
    method ReconsiderTip(oldTip: Hash256, newTip: Hash256, newHeight: nat)
      returns (r: Result<seq<Transaction>, ChainError>)
      requires Valid() && oldTip == state.tip.value.hash
      requires newTip in state.blocks && newHeight == state.blocks[newTip].header.height
      modifies state`accounts, state`heights, state`tip
      ensures Valid()
      ensures match ReorgLedger(p, state.blocks, Canonical(old(state.accounts)), oldTip, newTip)
        case Err(e) => r == Err(e) && unchanged(state)
        case Ok(l) =>
          && Canonical(state.accounts) == l && state.tip == Some(Tip(newHeight, newTip))
          && r == Ok(Requeue(p, UndoList(state.blocks, p.genesis.hash, oldTip, newTip),
                             TxHashSet(p, ApplyList(state.blocks, p.genesis.hash, oldTip, newTip))))
    {
      hide *;
      IndexFacts();
      ghost var before, s, root := state.View(None), state.blocks, p.genesis.hash;
      ViewFacts(before);
      var forked := ForkPaths(state.blocks, root, oldTip, newTip);
      var undo, apply;
      match forked {
        case Err(e) => return Err(e);
        case Ok(paths) => undo, apply := paths.0, paths.1;
      }
      ReorgSteps(p, s, Canonical(state.accounts), oldTip, newTip);
      var unwound := UndoBranch(p, state.accounts, undo);
      var applied := ApplyBranch(p, state.accounts, unwound, apply);
      if applied.Err? {
        return Err(applied.error);
      }
      var requeue := DisplacedTransactions(p, undo, apply);
      CommitAccounts(applied.value);
      CommitHeights(undo, apply, Path(s, root, oldTip), Path(s, root, newTip), ForkPoint(s, root, oldTip, newTip));
      state.SetTip(newHeight, newTip);
      Repointed(before);
      return Ok(requeue);
    }

    lemma ViewFacts(v: ChainView)
      requires Valid() && state.tip.Some? && v == state.View(None)
      ensures Shape(p, v) && v.blocks == state.blocks && v.cache == None && v.tip == state.tip.value.hash
      ensures WellFormed(state.blocks, p.genesis.hash) && state.WorkRecorded(p)
    {
    }

    /** Shape does not depend on which stored block is the tip. */
    lemma {:induction false} Repointed(before: ChainView)
      requires Shape(p, before) && before.blocks == state.blocks && before.cache == None
      requires state.tip.Some? && state.tip.value.hash in state.blocks
      requires state.tip.value.height == state.blocks[state.tip.value.hash].header.height
      requires state.heights == IndexOf(Path(state.blocks, p.genesis.hash, state.tip.value.hash))
      requires state.WorkRecorded(p)
      ensures Valid()
    {
    }

    // ----- submitting a block -----

    /** Everything that is checked before a block is stored, in the code's order. */
    method CheckBlock(block: Block, seed: Hash256) returns (verdict: Verdict)
      requires Valid()
      ensures verdict == Judge(p, state.blocks, block, seed)
    {
      hide Valid, ChainState.Consistent, WellFormed, ExpectedDifficulty,
           Difficulty.MeetsTarget, Difficulty.TargetForDifficulty, Merkle.TreeRoot;
      TreeFacts();
      var hash := p.powHash(block.header, seed);
      if hash in state.blocks {
        return Known;
      }
      var txRoot := Merkle.MerkleRoot(p.pairHash, p.TxHashes(block.transactions));
      if block.header.txRoot != txRoot {
        return Refused(InvalidTxRoot);
      }
      var target := Difficulty.ComputeTarget(block.header.difficulty);
      if !Difficulty.MeetsTarget(hash, target) {
        return Refused(ProofOfWorkTooWeak);
      }
      for i := 0 to |block.transactions|
        invariant forall k :: 0 <= k < i ==> p.signatureValid(block.transactions[k])
      {
        if !p.signatureValid(block.transactions[i]) {
          return Refused(InvalidSignature);
        }
      }
      if block.header.prevHash !in state.blocks {
        return NoParent(block.header.prevHash);
      }
      var parent := state.blocks[block.header.prevHash];
      if parent.header.height + 1 != block.header.height {
        return Refused(WrongHeight);
      }
      var expected := ExpectedDifficultyAfter(parent, block.header.prevHash);
      match expected {
        case Err(e) => return Refused(e);
        case Ok(difficulty) =>
          if block.header.difficulty != difficulty {
            return Refused(WrongDifficulty(block.header.difficulty, difficulty));
          }
      }
      return Sound(hash);
    }

    lemma {:induction false} AfterStoring(v: ChainView, work: map<Hash256, nat>, block: Block, seed: Hash256)
      requires Shape(p, v) && Judge(p, v.blocks, block, seed).Sound?
      requires state.tip.Some? && state.tip.value.hash == v.tip && v.cache == None
      requires state.tip.value.height == v.blocks[v.tip].header.height
      requires state.heights == IndexOf(Path(v.blocks, p.genesis.hash, v.tip))
      requires work.Keys == v.blocks.Keys && forall h :: h in v.blocks ==> work[h] == Work(v.blocks, p.genesis.hash, h)
      requires block.header.prevHash in work
      requires var hash := Judge(p, v.blocks, block, seed).hash;
        && state.blocks == v.blocks[hash := block]
        && state.chainwork == work[hash := work[block.header.prevHash] + block.header.difficulty]
      ensures Valid()
    {
      hide WellFormed, Path, Work, Judge, DifficultiesFollow;
      StoredBlock(p, v, block, seed);
      assert state.View(None) == v.(blocks := state.blocks);
    }

    /** Stores a sound block with its work, and reconsiders the tip if it has more. */
    method StoreAndChoose(block: Block, hash: Hash256, ghost seed: Hash256)
      returns (r: Result<SubmitOutcome, ChainError>)
      requires Valid() && Judge(p, state.blocks, block, seed) == Sound(hash)
      modifies state
      ensures Valid() && state.mempool == old(state.mempool)
      ensures state.blocks == old(state.blocks)[hash := block]
      ensures var s, root, tip := state.blocks, p.genesis.hash, old(state.tip.value);
        && WellFormed(s, root) && tip.hash in s && hash in s
        && if Work(s, root, hash) <= Work(s, root, tip.hash) then
             && r == Ok(SideBranch(hash, block.header.height))
             && state.tip == old(state.tip) && state.accounts == old(state.accounts)
           else
             match ReorgLedger(p, s, Canonical(old(state.accounts)), tip.hash, hash)
             case Err(e) => r == Err(e) && state.tip == old(state.tip) && state.accounts == old(state.accounts)
             case Ok(l) =>
               && state.tip == Some(Tip(block.header.height, hash)) && Canonical(state.accounts) == l
               && r == Ok(Accepted(hash, block.header.height, tip.hash != block.header.prevHash,
                    Requeue(p, UndoList(s, root, tip.hash, hash), TxHashSet(p, ApplyList(s, root, tip.hash, hash)))))
    {
      hide Valid, ChainState.Consistent, ChainState.WorkRecorded, Shape, WellFormed, Judge, Work, Path, Canonical,
           Requeue, UndoList, ApplyList, ReorgLedger;
      IndexFacts();
      ghost var before, work := state.View(None), state.chainwork;
      ViewFacts(before);
      WorkFacts();
      SoundParent(p, before, block, seed);
      var parentWork := state.GetChainwork(block.header.prevHash);
      if parentWork.None? {
        return Err(MissingChainwork(block.header.prevHash));
      }
      var thisWork := parentWork.value + block.header.difficulty;
      state.StoreBlock(hash, block);
      state.SetChainwork(hash, thisWork);
      AfterStoring(before, work, block, seed);
      TreeFacts();
      WorkFacts();
      match state.tip {
        case None => return Err(NotInitialized);
        case Some(tip) =>
          var tipWork := state.GetChainwork(tip.hash);
          if tipWork.None? {
            return Err(MissingChainwork(tip.hash));
          }
          if thisWork > tipWork.value {
            var reorged := tip.hash != block.header.prevHash;
            var requeue := ReconsiderTip(tip.hash, hash, block.header.height);
            match requeue {
              case Err(e) => return Err(e);
              case Ok(txs) => return Ok(Accepted(hash, block.header.height, reorged, txs));
            }
          }
          return Ok(SideBranch(hash, block.header.height));
      }
    }

    lemma WorkFacts()
      requires Valid()
      ensures WellFormed(state.blocks, p.genesis.hash) && state.chainwork.Keys == state.blocks.Keys
      ensures forall h :: h in state.blocks ==> state.chainwork[h] == Work(state.blocks, p.genesis.hash, h)
    {
    }

    /** Submits a block: stores it if it is sound, and reorganises onto it if it
        has strictly more work than the tip. */
    method SubmitBlock(block: Block) returns (r: Result<SubmitOutcome, ChainError>)
      requires Valid()
      modifies this`cache, state
      ensures Valid()
      ensures MachineStep(Model(), r) == SubmitInPlace(p, old(Model()), block)
      ensures state.mempool == old(state.mempool)
    {
      hide Shape, SeedFor, Judge, WellFormed, DifficultiesFollow, Work, Path, Canonical, Requeue, UndoList, ApplyList,
           ReorgLedger;
      if block.header.height == 0 {
        return Err(SecondGenesis);
      }
      var seeded := DatasetForHeight(block.header.height);
      match seeded {
        case Err(e) => return Err(e);
        case Ok(seed) =>
          var verdict := CheckBlock(block, seed);
          match verdict {
            case Refused(e) => return Err(e);
            case Known => return Ok(AlreadyKnown);
            case NoParent(parent) => return Ok(Orphan(parent));
            case Sound(hash) => r := StoreAndChoose(block, hash, seed);
          }
      }
    }

    /** A block to be mined on the current tip, and the seed of its dataset. */
    method WorkTemplate(miner: Address, pending: seq<Transaction>, now: U64)
      returns (r: Result<(Block, Hash256), ChainError>)
      requires Valid()
      modifies `cache
      ensures Valid()
      ensures var height := state.tip.value.height + 1;
        var seeded := SeedFor(p, old(View()), height);
        && (r.Ok? <==> seeded.Ok?)
        && cache == if seeded.Ok? then Some(CachedSeed(height / EPOCH_LENGTH, seeded.value)) else old(cache)
      ensures r.Ok? ==>
        && IsTemplate(p, View(), r.value.0) && r.value.0.transactions == pending
        && r.value.0.header.miner == miner && r.value.0.header.timestamp == now && r.value.0.header.nonce == 0
        && SeedFor(p, View(), r.value.0.header.height) == Ok(r.value.1)
    {
      hide ChainState.Consistent, Shape, WellFormed, Path, ExpectedDifficulty, Merkle.TreeRoot;
      IndexFacts();
      match state.tip {
        case None => return Err(NotInitialized);
        case Some(tip) =>
          var nextHeight := tip.height + 1;
          var seeded := DatasetForHeight(nextHeight);
          if seeded.Err? {
            return Err(seeded.error);
          }
          var difficulty := ComputeNextDifficulty(nextHeight);
          match difficulty {
            case Err(e) => return Err(e);
            case Ok(d) =>
              var txRoot := Merkle.MerkleRoot(p.pairHash, p.TxHashes(pending));
              var header := Header(nextHeight, tip.hash, txRoot, now, d, miner, 0);
              return Ok((Block(header, pending), seeded.value));
          }
      }
    }
  }
}
