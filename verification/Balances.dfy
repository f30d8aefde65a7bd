/** The balances and the money supply after every run from genesis. */
module Balances {
  import opened Protocol
  import opened Ledger
  import opened Emission
  import opened BlockTree
  import opened ForkChoice
  import opened Runs
  import opened Epochs

  /** The highest block that is ever stored. */
  const LAST_HEIGHT := EPOCH_LENGTH - 1

  lemma FirstEpochAffordable(p: Params, v: ChainView)
    requires FirstEpoch(p, v) && SupplyFits(p, LAST_HEIGHT)
    ensures Affordable(p, v)
  {
    forall h | h in v.blocks ensures SupplyFits(p, v.blocks[h].header.height) {
      SupplyFitsBelow(p, LAST_HEIGHT, v.blocks[h].header.height);
    }
  }

  /** Main theorem. Whatever blocks are submitted, in whatever order, the
      balances moved in place are the replay of the canonical chain, that chain
      replays, and no stored chain that replays has more work. */
  lemma {:induction false} BalancesAreReplay(p: Params, bs: seq<Block>)
    requires SupplyFits(p, LAST_HEIGHT)
    ensures Shape(p, Start(p))
    ensures var m := RunInPlace(p, Machine(Start(p), GenesisLedger(p)), bs);
      m.view == Run(p, Start(p), bs) && InSync(p, m) && Best(p, m.view)
  {
    var start := Machine(Start(p), GenesisLedger(p));
    StartIsBest(p);
    RunInFirstEpoch(p, start, bs);
    FirstEpochAffordable(p, RunInPlace(p, start, bs).view);
    RunStaysInSync(p, start, bs);
  }

  /** Nothing is minted or lost by any run: balances and burned fees add up to
      the premine and the rewards of the canonical chain, which stay capped. */
  lemma {:induction false} MoneyConserved(p: Params, bs: seq<Block>)
    requires SupplyFits(p, LAST_HEIGHT)
    ensures Shape(p, Start(p))
    ensures var m := RunInPlace(p, Machine(Start(p), GenesisLedger(p)), bs);
      var s, tip := m.view.blocks, m.view.tip;
      && Total(m.ledger) + FeesOnPath(s, p.genesis.hash, tip)
         == PremineSum(p.genesis.premine) + RewardSum(p, s[tip].header.height)
      && Total(m.ledger) <= SupplyCap(p)
  {
    BalancesAreReplay(p, bs);
    var m := RunInPlace(p, Machine(Start(p), GenesisLedger(p)), bs);
    HeightsStayBelow(p, bs, m.view.tip);
    FirstEpochAffordable(p, m.view);
    TipAffordable(p, m.view);
    Conservation(p, m.view.blocks, m.view.tip);
    EmissionBound(p, m.view.blocks[m.view.tip].header.height);
  }
}
