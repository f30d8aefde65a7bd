/** What holds after every sequence of submitted blocks. */
module Runs {
  import opened Primitives
  import opened Protocol
  import opened Emission
  import opened BlockTree
  import opened ForkChoice

  /** The tip replays, and nothing that replays has more work. */
  ghost predicate Best(p: Params, v: ChainView)
    requires Shape(p, v)
  {
    && Replay(p, v.blocks, v.tip).Ok?
    && forall h {:trigger NotHeavier(p, v, h)} :: h in v.blocks ==> NotHeavier(p, v, h)
  }

  ghost predicate NotHeavier(p: Params, v: ChainView, h: Hash256)
    requires Shape(p, v) && h in v.blocks
  {
    Replay(p, v.blocks, h).Ok? ==> Work(v.blocks, p.genesis.hash, h) <= Work(v.blocks, p.genesis.hash, v.tip)
  }

  lemma StartIsBest(p: Params)
    ensures Shape(p, Start(p)) && Best(p, Start(p))
  {
    StartHasShape(p);
  }

  lemma {:induction false} SubmitKeepsShape(p: Params, v: ChainView, b: Block)
    requires Shape(p, v)
    ensures Shape(p, Submit(p, v, b).view)
  {
    hide Admit;
    AdmitCases(p, v, b);
  }

  lemma {:induction false} KeptBlock(p: Params, v: ChainView, w: ChainView, b: Block, h: Hash256)
    requires Shape(p, v) && Shape(p, w) && h in v.blocks
    requires w.blocks == v.blocks || exists n :: n !in v.blocks && w.blocks == v.blocks[n := b]
    ensures h in w.blocks && w.blocks[h] == v.blocks[h]
    ensures Work(w.blocks, p.genesis.hash, h) == Work(v.blocks, p.genesis.hash, h)
    ensures Replay(p, w.blocks, h) == Replay(p, v.blocks, h)
    ensures Path(w.blocks, p.genesis.hash, h) == Path(v.blocks, p.genesis.hash, h)
  {
    if w.blocks != v.blocks {
      var n :| n !in v.blocks && w.blocks == v.blocks[n := b];
      WorkKept(v.blocks, p.genesis.hash, n, b, h);
      ReplayKept(p, v.blocks, n, b, h);
      PathKept(v.blocks, p.genesis.hash, n, b, h);
    }
  }

  /** What a step can do: store the block, and make it the tip only if it
      replays and has strictly more work; if it stays off the tip it either
      fails to replay or is not heavier. */
  lemma {:induction false} SubmitCases(p: Params, v: ChainView, b: Block)
    requires Shape(p, v)
    ensures var w := Submit(p, v, b).view;
      && Shape(p, w) && v.tip in v.blocks && v.tip in w.blocks
      && (w.blocks == v.blocks || exists n :: n !in v.blocks && w.blocks == v.blocks[n := b])
      && (w.tip == v.tip || (Replay(p, w.blocks, w.tip).Ok? &&
            Work(w.blocks, p.genesis.hash, w.tip) > Work(w.blocks, p.genesis.hash, v.tip)))
      && forall h :: h in w.blocks && h !in v.blocks ==> NotHeavier(p, w, h)
  {
    hide Admit, WellFormed, DifficultiesFollow, Work, Replay;
    AdmitCases(p, v, b);
    var a, w := Admit(p, v, b), Submit(p, v, b).view;
    assert w.blocks == a.view.blocks;
    forall h | h in w.blocks && h !in v.blocks ensures NotHeavier(p, w, h) {
      assert a.Challenge? ==> h == a.hash;
      assert OutWorks(p, a.view, h) || !OutWorks(p, a.view, h);
    }
  }

  lemma {:induction false} SubmitKeepsBest(p: Params, v: ChainView, b: Block)
    requires Shape(p, v) && Best(p, v)
    ensures Shape(p, Submit(p, v, b).view) && Best(p, Submit(p, v, b).view)
  {
    hide Submit, Shape, Work, Replay;
    SubmitCases(p, v, b);
    var w := Submit(p, v, b).view;
    KeptBlock(p, v, w, b, v.tip);
    forall h | h in w.blocks ensures NotHeavier(p, w, h) {
      if h in v.blocks {
        KeptBlock(p, v, w, b, h);
        assert NotHeavier(p, v, h);
      }
    }
  }

  // ----- runs -----

  ghost function Run(p: Params, v: ChainView, bs: seq<Block>): (w: ChainView)
    requires Shape(p, v)
    ensures Shape(p, w)
  {
    if bs == [] then v
    else
      SubmitKeepsShape(p, Run(p, v, bs[..|bs| - 1]), bs[|bs| - 1]);
      Submit(p, Run(p, v, bs[..|bs| - 1]), bs[|bs| - 1]).view
  }

  lemma {:induction false} InPlaceKeepsShape(p: Params, m: Machine, b: Block)
    requires Shape(p, m.view)
    ensures Shape(p, SubmitInPlace(p, m, b).machine.view)
  {
    AdmitCases(p, m.view, b);
  }

  ghost function RunInPlace(p: Params, m: Machine, bs: seq<Block>): (n: Machine)
    requires Shape(p, m.view)
    ensures Shape(p, n.view)
  {
    if bs == [] then m
    else
      InPlaceKeepsShape(p, RunInPlace(p, m, bs[..|bs| - 1]), bs[|bs| - 1]);
      SubmitInPlace(p, RunInPlace(p, m, bs[..|bs| - 1]), bs[|bs| - 1]).machine
  }

  /** The state after a run from genesis. */
  ghost function After(p: Params, bs: seq<Block>): (v: ChainView)
    ensures Shape(p, v)
  {
    StartHasShape(p);
    Run(p, Start(p), bs)
  }

  lemma RunSnoc(p: Params, v: ChainView, bs: seq<Block>, b: Block)
    requires Shape(p, v)
    ensures Run(p, v, bs + [b]) == Submit(p, Run(p, v, bs), b).view
  {
    assert (bs + [b])[..|bs|] == bs;
  }

  lemma {:induction false} RunConcat(p: Params, v: ChainView, bs: seq<Block>, more: seq<Block>)
    requires Shape(p, v)
    ensures Run(p, v, bs + more) == Run(p, Run(p, v, bs), more)
  {
    hide Submit, Shape;
    if more == [] {
      assert bs + more == bs;
    } else {
      var init, last := more[..|more| - 1], more[|more| - 1];
      RunConcat(p, v, bs, init);
      assert bs + more == bs + init + [last];
      RunSnoc(p, v, bs + init, last);
    }
  }

  lemma {:induction false} RunIsBest(p: Params, v: ChainView, bs: seq<Block>)
    requires Shape(p, v) && Best(p, v)
    ensures Best(p, Run(p, v, bs))
  {
    if bs != [] {
      RunIsBest(p, v, bs[..|bs| - 1]);
      SubmitKeepsBest(p, Run(p, v, bs[..|bs| - 1]), bs[|bs| - 1]);
    }
  }

  /** The balances the working machine carries are the replay of its tip. */
  ghost predicate InSync(p: Params, m: Machine)
    requires Shape(p, m.view)
  {
    Replay(p, m.view.blocks, m.view.tip) == Ok(m.ledger)
  }

  /** One step of the working machine is one step of the reference machine:
      same store, tip and answer, errors included, and it stays in sync. */
  lemma {:induction false} InPlaceRefines(p: Params, m: Machine, b: Block)
    requires Shape(p, m.view) && InSync(p, m)
    requires SupplyFits(p, m.view.blocks[m.view.tip].header.height)
    ensures var step := SubmitInPlace(p, m, b);
      && Step(step.machine.view, step.answer) == Submit(p, m.view, b)
      && Shape(p, step.machine.view) && InSync(p, step.machine)
  {
    AdmitCases(p, m.view, b);
    var a := Admit(p, m.view, b);
    KeptBlock(p, m.view, a.view, b, m.view.tip);
    if a.Challenge? {
      ReorgIsReplay(p, a.view.blocks, m.view.tip, a.hash);
    }
  }

  /** The coins issued up to any stored block fit a 64-bit balance. */
  ghost predicate Affordable(p: Params, v: ChainView) {
    forall h :: h in v.blocks ==> SupplyFits(p, v.blocks[h].header.height)
  }

  /** A step only adds to the store. */
  lemma {:induction false} InPlaceGrows(p: Params, m: Machine, b: Block)
    requires Shape(p, m.view)
    ensures var s, t := m.view.blocks, SubmitInPlace(p, m, b).machine.view.blocks;
      forall h :: h in s ==> h in t && t[h] == s[h]
  {
    hide Admit, ReorgLedger, Shape;
    AdmitCases(p, m.view, b);
  }

  /** From any state in sync, as long as what was issued up to the highest stored
      block fits: the two machines agree and stay in sync. */
  lemma {:induction false} RunStaysInSync(p: Params, m: Machine, bs: seq<Block>)
    requires Shape(p, m.view) && InSync(p, m) && Best(p, m.view)
    requires Affordable(p, RunInPlace(p, m, bs).view)
    ensures var n := RunInPlace(p, m, bs);
      n.view == Run(p, m.view, bs) && InSync(p, n) && Best(p, n.view)
  {
    if bs != [] {
      var n, last := RunInPlace(p, m, bs[..|bs| - 1]), bs[|bs| - 1];
      InPlaceGrows(p, n, last);
      StillAffordable(p, n.view, SubmitInPlace(p, n, last).machine.view);
      hide SubmitInPlace, Submit, Best, Shape, InSync, Affordable;
      RunStaysInSync(p, m, bs[..|bs| - 1]);
      TipAffordable(p, n.view);
      InPlaceRefines(p, n, last);
      SubmitKeepsBest(p, n.view, last);
    }
  }

  lemma StillAffordable(p: Params, v: ChainView, w: ChainView)
    requires Affordable(p, w) && forall h :: h in v.blocks ==> h in w.blocks && w.blocks[h] == v.blocks[h]
    ensures Affordable(p, v)
  {
  }

  lemma TipAffordable(p: Params, v: ChainView)
    requires Shape(p, v) && Affordable(p, v)
    ensures v.tip in v.blocks && SupplyFits(p, v.blocks[v.tip].header.height)
  {
  }

  // ----- the tip never goes back -----

  /** Later state x still knows w's tip, and either keeps it or has left it for
      one with strictly more work. */
  ghost predicate Succeeds(p: Params, w: ChainView, x: ChainView)
    requires Shape(p, w) && Shape(p, x)
  {
    && w.tip in x.blocks
    && Work(x.blocks, p.genesis.hash, w.tip) == Work(w.blocks, p.genesis.hash, w.tip)
    && (w.tip == x.tip ||
          Work(w.blocks, p.genesis.hash, w.tip) < Work(x.blocks, p.genesis.hash, x.tip))
  }

  lemma {:induction false} TipOnlyAdvances(p: Params, v: ChainView, bs: seq<Block>, i: nat, j: nat)
    requires Shape(p, v) && i <= j <= |bs|
    ensures Succeeds(p, Run(p, v, bs[..i]), Run(p, v, bs[..j]))
    decreases j
  {
    hide Submit, Work;
    if i < j {
      assert bs[..j][..j - 1] == bs[..j - 1];
      TipOnlyAdvances(p, v, bs, i, j - 1);
      var y, last := Run(p, v, bs[..j - 1]), bs[j - 1];
      SubmitCases(p, y, last);
      KeptBlock(p, y, Submit(p, y, last).view, last, y.tip);
      KeptBlock(p, y, Submit(p, y, last).view, last, Run(p, v, bs[..i]).tip);
    }
  }

  lemma NoReturn(p: Params, w: ChainView, x: ChainView, y: ChainView)
    requires Shape(p, w) && Shape(p, x) && Shape(p, y)
    requires Succeeds(p, w, x) && Succeeds(p, x, y) && Succeeds(p, w, y)
    requires w.tip == y.tip
    ensures x.tip == w.tip
  {
    hide Shape, Work;
  }

  /** Once the chain has left a tip, no later submission brings it back. */
  lemma {:induction false} TipNeverReturns(p: Params, v: ChainView, bs: seq<Block>, i: nat, j: nat, k: nat)
    requires Shape(p, v) && i <= j <= k <= |bs|
    requires Run(p, v, bs[..i]).tip == Run(p, v, bs[..k]).tip
    ensures Run(p, v, bs[..j]).tip == Run(p, v, bs[..i]).tip
  {
    hide *;
    TipOnlyAdvances(p, v, bs, i, j);
    TipOnlyAdvances(p, v, bs, j, k);
    TipOnlyAdvances(p, v, bs, i, k);
    NoReturn(p, Run(p, v, bs[..i]), Run(p, v, bs[..j]), Run(p, v, bs[..k]));
  }

  // ----- difficulty along every branch -----

  lemma DifficultyPositive(p: Params, v: ChainView, h: Hash256)
    requires Shape(p, v) && h in v.blocks && p.genesis.initialDifficulty >= 1
    ensures v.blocks[h].header.difficulty >= 1
    ensures h != p.genesis.hash ==>
      Rooted(v.blocks, h)
      && Work(v.blocks, p.genesis.hash, v.blocks[h].header.prevHash) < Work(v.blocks, p.genesis.hash, h)
  {
    if h != p.genesis.hash {
      assert FollowsRule(p, v.blocks, h);
    }
  }
}
