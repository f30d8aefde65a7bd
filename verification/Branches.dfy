/** The difficulty along every stored branch, from the genesis block on. */
module Branches {
  import opened Primitives
  import opened Protocol
  import opened BlockTree
  import opened ForkChoice
  import opened Runs
  import Difficulty
  import Retarget

  /** The timespan that set a block's difficulty. */
  ghost function ObservedTimespan(p: Params, s: Store, parent: Hash256): U64
    requires WellFormed(s, p.genesis.hash) && parent in s && s[parent].header.height >= p.RetargetWindow()
  {
    var start := Path(s, p.genesis.hash, parent)[s[parent].header.height - p.RetargetWindow()];
    SaturatingSub(s[parent].header.timestamp, s[start].header.timestamp)
  }

  lemma RetargetedDifficulty(p: Params, v: ChainView, h: Hash256, parent: Hash256)
    requires Shape(p, v) && h in v.blocks && parent in v.blocks && parent == v.blocks[h].header.prevHash
    requires v.blocks[h].header.height > p.RetargetWindow()
    ensures WellFormed(v.blocks, p.genesis.hash) && v.blocks[parent].header.height >= p.RetargetWindow()
    ensures v.blocks[h].header.difficulty ==
      Difficulty.NextDifficulty(v.blocks[parent].header.difficulty, ObservedTimespan(p, v.blocks, parent),
                                p.genesis.targetBlockTime, p.RetargetWindow())
  {
    hide Difficulty.NextDifficulty, Path;
    assert FollowsRule(p, v.blocks, h);
  }

  /** On every stored branch: a retargeted difficulty is at most the ratio of the
      smallest clamped timespan, and at least a quarter of its parent's if its own
      ratio fits 64 bits. */
  lemma {:induction false} BranchRetarget(p: Params, v: ChainView, h: Hash256, parent: Hash256)
    requires Shape(p, v) && h in v.blocks && parent in v.blocks && parent == v.blocks[h].header.prevHash
    requires v.blocks[h].header.height > p.RetargetWindow()
    requires p.genesis.initialDifficulty >= 1
    ensures v.blocks[parent].header.height >= p.RetargetWindow()
    ensures var t := Difficulty.TargetTimespan(p.genesis.targetBlockTime, p.RetargetWindow());
      var prev, d := v.blocks[parent].header.difficulty, v.blocks[h].header.difficulty;
      var c := Difficulty.ClampedTimespan(ObservedTimespan(p, v.blocks, parent), t);
      && 1 <= d <= Difficulty.Ratio(prev, t, Difficulty.ClampedTimespan(0, t))
      && (Difficulty.Ratio(prev, t, c) <= U64_MAX ==> prev / 4 <= d)
      && (4 * t <= U64_MAX ==> d <= 7 * prev)
      && (4 * t <= U64_MAX && t % 4 == 0 ==> d <= 4 * prev)
  {
    hide *;
    RetargetedDifficulty(p, v, h, parent);
    DifficultyPositive(p, v, parent);
    var prev, actual := v.blocks[parent].header.difficulty, ObservedTimespan(p, v.blocks, parent);
    Retarget.RetargetBounds(prev, actual, p.genesis.targetBlockTime, p.RetargetWindow());
    Retarget.RetargetFactors(prev, actual, p.genesis.targetBlockTime, p.RetargetWindow());
  }

  /** The genesis block of every run, field by field. */
  lemma {:induction false} GenesisKept(p: Params, bs: seq<Block>)
    ensures p.genesis.hash in After(p, bs).blocks
    ensures var b := After(p, bs).blocks[p.genesis.hash];
      && b.header.height == 0 && b.header.nonce == 0 && b.transactions == []
      && b.header.timestamp == p.genesis.timestamp && b.header.difficulty == p.genesis.initialDifficulty
      && b.header.prevHash.bytes == Repeat(0, 32) && b.header.txRoot.bytes == Repeat(0, 32)
      && b.header.miner.bytes == Repeat(0, 20)
  {
    hide Repeat, Run;
  }

  lemma GenesisStamp(p: Params, v: ChainView)
    requires Shape(p, v)
    ensures p.genesis.hash in v.blocks && v.blocks[p.genesis.hash].header.timestamp == p.genesis.timestamp
    ensures v.blocks[p.genesis.hash].header.difficulty == p.genesis.initialDifficulty
  {
    hide Repeat;
  }

  /** The block a window of blocks before `parent`, on parent's own branch. */
  ghost function WindowStart(p: Params, s: Store, parent: Hash256): (start: Hash256)
    requires WellFormed(s, p.genesis.hash) && parent in s
    requires s[parent].header.height >= Max(p.genesis.retargetWindow, 1)
    ensures start in s && s[start].header.height == s[parent].header.height - Max(p.genesis.retargetWindow, 1)
    ensures start in Path(s, p.genesis.hash, parent)
    ensures s[parent].header.height == Max(p.genesis.retargetWindow, 1) ==> start == p.genesis.hash
  {
    var i := s[parent].header.height - Max(p.genesis.retargetWindow, 1);
    PathPrefix(s, p.genesis.hash, parent, i);
    Path(s, p.genesis.hash, parent)[i]
  }

  /** Time from one block to another, as the code subtracts it. */
  function Elapsed(s: Store, from: Hash256, to: Hash256): U64
    requires from in s && to in s
  {
    Max(0, s[to].header.timestamp - s[from].header.timestamp)
  }

  /** Every stored block but genesis: within the first window it has the initial
      difficulty, after it the retargeted one of the window that ends in its parent. */
  lemma {:induction false} DifficultyOfBlock(p: Params, v: ChainView, h: Hash256, parent: Hash256)
    requires Shape(p, v) && h in v.blocks && h != p.genesis.hash && parent == v.blocks[h].header.prevHash
    ensures parent in v.blocks && v.blocks[h].header.height == v.blocks[parent].header.height + 1
    ensures WellFormed(v.blocks, p.genesis.hash)
    ensures var s, window := v.blocks, Max(p.genesis.retargetWindow, 1);
      s[h].header.difficulty
      == if s[h].header.height <= window then p.genesis.initialDifficulty
         else Difficulty.NextDifficulty(s[parent].header.difficulty,
                                        Elapsed(s, WindowStart(p, s, parent), parent),
                                        p.genesis.targetBlockTime, window)
  {
    hide Difficulty.NextDifficulty, Path, WellFormed;
    ParentStored(p, v, h);
    assert FollowsRule(p, v.blocks, h);
  }

  lemma ParentStored(p: Params, v: ChainView, h: Hash256)
    requires Shape(p, v) && h in v.blocks && h != p.genesis.hash
    ensures Rooted(v.blocks, h) && WellFormed(v.blocks, p.genesis.hash)
    ensures DifficultiesFollow(p, v.blocks)
  {
    hide Repeat;
  }

  /** The first retarget of a branch measures from the genesis timestamp. */
  lemma {:induction false} FirstRetarget(p: Params, bs: seq<Block>, h: Hash256, parent: Hash256)
    requires h in After(p, bs).blocks && h != p.genesis.hash && parent == After(p, bs).blocks[h].header.prevHash
    requires After(p, bs).blocks[h].header.height == Max(p.genesis.retargetWindow, 1) + 1
    ensures parent in After(p, bs).blocks
    ensures var s := After(p, bs).blocks;
      s[h].header.difficulty
      == Difficulty.NextDifficulty(s[parent].header.difficulty,
                                   Max(0, s[parent].header.timestamp - p.genesis.timestamp),
                                   p.genesis.targetBlockTime, Max(p.genesis.retargetWindow, 1))
  {
    hide Difficulty.NextDifficulty, Shape, Run, WellFormed, WindowStart;
    var v := After(p, bs);
    DifficultyOfBlock(p, v, h, parent);
    GenesisStamp(p, v);
  }

  /** And so does what is asked of a block not stored yet. */
  lemma {:induction false} FirstRetargetAsked(p: Params, bs: seq<Block>, parent: Hash256)
    requires parent in After(p, bs).blocks
    requires After(p, bs).blocks[parent].header.height == Max(p.genesis.retargetWindow, 1)
    ensures var b := After(p, bs).blocks[parent];
      ExpectedDifficulty(p, After(p, bs).blocks, parent)
      == Difficulty.NextDifficulty(b.header.difficulty, Max(0, b.header.timestamp - p.genesis.timestamp),
                                   p.genesis.targetBlockTime, Max(p.genesis.retargetWindow, 1))
  {
    hide Difficulty.NextDifficulty, Run;
    GenesisStamp(p, After(p, bs));
  }

  /** A window on time keeps the difficulty, on every stored branch. */
  lemma {:induction false} OnTimeBranch(p: Params, v: ChainView, h: Hash256, parent: Hash256)
    requires Shape(p, v) && h in v.blocks && h != p.genesis.hash && parent == v.blocks[h].header.prevHash
    requires v.blocks[h].header.height > Max(p.genesis.retargetWindow, 1)
    requires parent in v.blocks && v.blocks[h].header.height == v.blocks[parent].header.height + 1
    requires WellFormed(v.blocks, p.genesis.hash) && p.genesis.initialDifficulty >= 1
    requires var t := p.genesis.targetBlockTime * Max(p.genesis.retargetWindow, 1);
      && 1 <= t && 4 * t <= 0xFFFF_FFFF_FFFF_FFFF
      && v.blocks[parent].header.timestamp == v.blocks[WindowStart(p, v.blocks, parent)].header.timestamp + t
    ensures v.blocks[h].header.difficulty == v.blocks[parent].header.difficulty
  {
    hide Difficulty.NextDifficulty, Shape, WellFormed, WindowStart;
    DifficultyOfBlock(p, v, h, parent);
    DifficultyPositive(p, v, parent);
    Retarget.OnTimeKeeps(v.blocks[parent].header.difficulty, p.genesis.targetBlockTime,
                         Max(p.genesis.retargetWindow, 1), Elapsed(v.blocks, WindowStart(p, v.blocks, parent), parent));
  }
}
