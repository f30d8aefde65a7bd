/** How many coins can ever exist: the sum of all block rewards over any
    number of halvings. */
module Emission {
  import opened Primitives
  import opened Arithmetic
  import opened Protocol

  /** Rewards of the blocks at heights 1 to n. */
  function RewardSum(p: Params, n: nat): nat {
    if n == 0 then 0 else RewardSum(p, n - 1) + p.BlockReward(n)
  }

  function PremineSum(premine: seq<(Address, U64)>): nat {
    if premine == [] then 0 else PremineSum(premine[..|premine| - 1]) + premine[|premine| - 1].1
  }

  /** Twice the first era: more than all halvings together ever pay. */
  function EmissionCap(p: Params): nat {
    2 * p.genesis.initialReward * p.HalvingInterval()
  }

  function SupplyCap(p: Params): nat {
    PremineSum(p.genesis.premine) + EmissionCap(p)
  }

  /** All coins issued up to a height fit a single 64-bit balance. */
  predicate SupplyFits(p: Params, height: nat) {
    PremineSum(p.genesis.premine) + RewardSum(p, height) < U64_MAX
  }

  lemma {:induction false} SupplyFitsBelow(p: Params, height: nat, lower: nat)
    requires SupplyFits(p, height) && lower <= height
    ensures SupplyFits(p, lower)
  {
    hide Params.BlockReward;
    if lower < height {
      SupplyFitsBelow(p, height - 1, lower);
    }
  }

  lemma RewardHalves(p: Params, era: nat)
    ensures 2 * p.RewardOfEra(era + 1) <= p.RewardOfEra(era)
  {
  }

  lemma {:induction false} NextHeight(n: nat, interval: nat)
    requires interval > 0
    ensures n % interval + 1 < interval ==>
      (n + 1) / interval == n / interval && (n + 1) % interval == n % interval + 1
    ensures n % interval + 1 == interval ==>
      (n + 1) / interval == n / interval + 1 && (n + 1) % interval == 0
  {
    var q, r := n / interval, n % interval;
    assert n == q * interval + r;
    if r + 1 < interval {
      QuotientUnique(n + 1, interval, q, r + 1);
    } else {
      QuotientUnique(n + 1, interval, q + 1, 0);
    }
  }

  /** Within an era the bound grows by one reward a block; at a halving the
      slack left by the finished era pays for all later ones. */
  ghost predicate WithinBound(sum: nat, full: nat, interval: nat, reward: nat, done: nat) {
    sum + 2 * interval * reward <= 2 * full * interval + done * reward
  }

  lemma BoundWithinEra(sum: nat, full: nat, interval: nat, reward: nat, done: nat)
    requires WithinBound(sum, full, interval, reward, done)
    ensures WithinBound(sum + reward, full, interval, reward, done + 1)
  {
    assert (done + 1) * reward == done * reward + reward;
  }

  lemma BoundAcrossHalving(sum: nat, full: nat, interval: nat, reward: nat, next: nat)
    requires WithinBound(sum, full, interval, reward, interval)
    requires 2 * next <= reward
    ensures WithinBound(sum + next, full, interval, next, 1)
  {
    MulMono(2 * next, reward, interval);
    assert 2 * interval * reward == interval * reward + interval * reward;
    assert 2 * interval * next == 2 * next * interval;
  }

  lemma BoundAtGenesis(p: Params)
    ensures WithinBound(0, p.genesis.initialReward, p.HalvingInterval(), p.RewardOfEra(0), 1)
  {
  }

  lemma {:induction false} EmissionInvariant(p: Params, n: nat)
    ensures WithinBound(RewardSum(p, n), p.genesis.initialReward, p.HalvingInterval(),
                        p.BlockReward(n), n % p.HalvingInterval() + 1)
  {
    hide WithinBound;
    hide Params.HalvingInterval, Params.RewardOfEra;
    var interval := p.HalvingInterval();
    if n == 0 {
      QuotientUnique(0, interval, 0, 0);
      BoundAtGenesis(p);
    } else {
      EmissionInvariant(p, n - 1);
      NextHeight(n - 1, interval);
      RewardHalves(p, (n - 1) / interval);
      var full, before := p.genesis.initialReward, p.BlockReward(n - 1);
      if (n - 1) % interval + 1 < interval {
        BoundWithinEra(RewardSum(p, n - 1), full, interval, before, (n - 1) % interval + 1);
      } else {
        BoundAcrossHalving(RewardSum(p, n - 1), full, interval, before, p.BlockReward(n));
      }
    }
  }

  /** All rewards ever paid, over all halvings, stay within twice the first era. */
  lemma EmissionBound(p: Params, n: nat)
    ensures RewardSum(p, n) <= EmissionCap(p)
  {
    EmissionInvariant(p, n);
    var interval, reward := p.HalvingInterval(), p.BlockReward(n);
    MulMono(n % interval + 1, 2 * interval, reward);
  }

  /** A configuration whose cap fits leaves room at every height. */
  lemma CapFits(p: Params, height: nat)
    requires SupplyCap(p) < U64_MAX
    ensures SupplyFits(p, height)
  {
    EmissionBound(p, height);
  }

  lemma {:induction false} ShiftIsQuotient(n: U64, k: nat)
    ensures ShiftRight(n, k) == n / Pow2(k)
  {
    if k > 0 {
      ShiftIsQuotient(n, k - 1);
      HalfOfQuotient(n, Pow2(k - 1));
    }
  }

  lemma Halved(q: nat, d: nat)
    ensures q * d == q / 2 * (2 * d) + q % 2 * d
  {
    assert q == 2 * (q / 2) + q % 2;
    assert (2 * (q / 2) + q % 2) * d == 2 * (q / 2) * d + q % 2 * d;
  }

  lemma {:induction false} HalfOfQuotient(n: nat, d: nat)
    requires d > 0
    ensures n / d / 2 == n / (2 * d)
  {
    var q := n / d;
    QuotientBounds(n, d);
    Halved(q, d);
    assert (q + 1) * d == q * d + d;
    MulMono(q % 2, 1, d);
    QuotientUnique(n, 2 * d, q / 2, n - q * d + q % 2 * d);
  }

  /** Era k of the halving schedule pays the initial reward divided by 2^k, for
      64 eras, and nothing afterwards. An interval of zero counts as one. */
  lemma {:induction false} RewardSchedule(p: Params, k: nat, height: nat)
    requires var interval := Max(p.genesis.halvingInterval, 1);
      k * interval <= height < (k + 1) * interval
    ensures p.BlockReward(height) == if k < 64 then p.genesis.initialReward / Pow2(k) else 0
  {
    var interval := Max(p.genesis.halvingInterval, 1);
    assert (k + 1) * interval == k * interval + interval;
    QuotientUnique(height, interval, k, height - k * interval);
    ShiftIsQuotient(p.genesis.initialReward, k);
  }
}
