/** How far a chain can get. The dataset for block 2048 is looked up under the
    canonical block at height 2048, which is the very block being submitted, so
    that no run from genesis ever leaves the first epoch. */
module Epochs {
  import opened Primitives
  import opened Protocol
  import opened BlockTree
  import opened ForkChoice
  import opened Runs

  /** Nothing is stored at the first epoch boundary or above it. */
  ghost predicate FirstEpoch(p: Params, v: ChainView) {
    && (forall h :: h in v.blocks ==> v.blocks[h].header.height < EPOCH_LENGTH)
    && (v.cache.Some? ==> v.cache.value == CachedSeed(0, p.epochSeed(None)))
  }

  function Boundary(height: nat): nat {
    height / EPOCH_LENGTH * EPOCH_LENGTH
  }

  lemma BoundaryFacts(height: nat)
    ensures height / EPOCH_LENGTH == 0 <==> height < EPOCH_LENGTH
    ensures height >= EPOCH_LENGTH ==> Boundary(height) >= EPOCH_LENGTH
    ensures height == EPOCH_LENGTH ==> Boundary(height) == EPOCH_LENGTH
  {
  }

  lemma SeedInFirstEpoch(p: Params, v: ChainView, height: nat)
    requires Shape(p, v) && FirstEpoch(p, v)
    ensures SeedFor(p, v, height)
         == if height < EPOCH_LENGTH then Ok(p.epochSeed(None)) else Err(EpochBoundaryNotFound(Boundary(height)))
  {
    hide WellFormed, Path, DifficultiesFollow;
    BoundaryFacts(height);
  }

  /** The seed rule as it stands, for any chain: a later epoch is seeded by the
      canonical block at its first height, unless a seed for that epoch is cached. */
  lemma {:induction false} SeedOfEpoch(p: Params, v: ChainView, height: nat, h: Hash256)
    requires Shape(p, v) && v.tip in v.blocks && h in Path(v.blocks, p.genesis.hash, v.tip)
    requires h in v.blocks && v.blocks[h].header.height == height / 2048 * 2048 && height >= 2048
    ensures SeedFor(p, v, height)
         == Ok(if v.cache.Some? && v.cache.value.epoch == height / 2048 then v.cache.value.seed
               else p.epochSeed(Some(h)))
  {
    hide DifficultiesFollow, WellFormed, Path;
    var path := Path(v.blocks, p.genesis.hash, v.tip);
    var i :| 0 <= i < |path| && path[i] == h;
    PathPrefix(v.blocks, p.genesis.hash, v.tip, i);
    PathLength(p, v);
    BoundaryFacts(height);
  }

  lemma PathLength(p: Params, v: ChainView)
    requires Shape(p, v) && v.tip in v.blocks
    ensures |Path(v.blocks, p.genesis.hash, v.tip)| == v.blocks[v.tip].header.height + 1
  {
    hide DifficultiesFollow;
  }

  /** Preparing the dataset for a height stays in the first epoch too. */
  lemma WarmedInFirstEpoch(p: Params, v: ChainView, w: ChainView, height: nat)
    requires Shape(p, v) && FirstEpoch(p, v) && w.blocks == v.blocks
    requires var seeded := SeedFor(p, v, height);
      w.cache == if seeded.Ok? then Some(CachedSeed(height / EPOCH_LENGTH, seeded.value)) else v.cache
    ensures FirstEpoch(p, w) && (SeedFor(p, v, height).Ok? <==> height < EPOCH_LENGTH)
  {
    hide Shape, SeedFor;
    SeedInFirstEpoch(p, v, height);
    BoundaryFacts(height);
  }

  /** Admission stays in the first epoch, and refuses whatever lies beyond it. */
  lemma {:induction false} AdmitInFirstEpoch(p: Params, v: ChainView, b: Block)
    requires Shape(p, v) && FirstEpoch(p, v)
    ensures FirstEpoch(p, Admit(p, v, b).view)
    ensures b.header.height >= EPOCH_LENGTH ==>
      Admit(p, v, b) == Final(v, Err(EpochBoundaryNotFound(Boundary(b.header.height))))
  {
    hide Shape, WellFormed, DifficultiesFollow, Work, SeedFor, Judge, UndoList, ApplyList, Requeue, Boundary;
    SeedInFirstEpoch(p, v, b.header.height);
    BoundaryFacts(b.header.height);
  }

  lemma {:induction false} StepInFirstEpoch(p: Params, m: Machine, b: Block)
    requires Shape(p, m.view) && FirstEpoch(p, m.view)
    ensures FirstEpoch(p, Submit(p, m.view, b).view) && FirstEpoch(p, SubmitInPlace(p, m, b).machine.view)
    ensures b.header.height >= EPOCH_LENGTH ==>
      var refusal := Err(EpochBoundaryNotFound(Boundary(b.header.height)));
      Submit(p, m.view, b) == Step(m.view, refusal) && SubmitInPlace(p, m, b) == MachineStep(m, refusal)
  {
    hide Shape, Admit, Replay, ReorgLedger, Boundary;
    AdmitCases(p, m.view, b);
    AdmitInFirstEpoch(p, m.view, b);
  }

  lemma {:induction false} RunInFirstEpoch(p: Params, m: Machine, bs: seq<Block>)
    requires Shape(p, m.view) && FirstEpoch(p, m.view)
    ensures FirstEpoch(p, Run(p, m.view, bs)) && FirstEpoch(p, RunInPlace(p, m, bs).view)
  {
    hide Shape, Submit, SubmitInPlace, FirstEpoch;
    if bs != [] {
      var init, last := bs[..|bs| - 1], bs[|bs| - 1];
      RunInFirstEpoch(p, m, init);
      StepInFirstEpoch(p, RunInPlace(p, m, init), last);
      StepInFirstEpoch(p, m.(view := Run(p, m.view, init)), last);
    }
  }

  /** Whatever is submitted, every block ever stored is below height 2048. */
  lemma HeightsStayBelow(p: Params, bs: seq<Block>, h: Hash256)
    ensures FirstEpoch(p, After(p, bs))
    ensures h in After(p, bs).blocks ==> After(p, bs).blocks[h].header.height < 2048
  {
    StartHasShape(p);
    RunInFirstEpoch(p, Machine(Start(p), map[]), bs);
  }

  /** A block at height 2048 or above is always answered with the same error,
      and nothing changes. */
  lemma SecondEpochRefused(p: Params, bs: seq<Block>, b: Block)
    requires b.header.height >= 2048
    ensures Submit(p, After(p, bs), b)
         == Step(After(p, bs), Err(EpochBoundaryNotFound(b.header.height / 2048 * 2048)))
  {
    HeightsStayBelow(p, bs, p.genesis.hash);
    StepInFirstEpoch(p, Machine(After(p, bs), map[]), b);
  }

  /** The next block has a dataset exactly as long as it is not the first
      boundary block: at height 2047 mining and validation stop for good. */
  lemma NextSeedIff(p: Params, bs: seq<Block>)
    ensures var v := After(p, bs);
      var next := v.blocks[v.tip].header.height + 1;
      && (SeedFor(p, v, next).Ok? <==> next < 2048)
      && (next < 2048 ==> SeedFor(p, v, next) == Ok(p.epochSeed(None)))
  {
    HeightsStayBelow(p, bs, p.genesis.hash);
    SeedInFirstEpoch(p, After(p, bs), After(p, bs).blocks[After(p, bs).tip].header.height + 1);
  }
}
