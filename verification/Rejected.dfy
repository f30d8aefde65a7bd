/** Blocks that are stored although their transactions do not check out: when
    one of them out-works the tip, and why it never becomes the tip. */
module Rejected {
  import opened Primitives
  import opened Protocol
  import opened BlockTree
  import opened ForkChoice
  import opened Runs

  /** No stored block at all has more work than the tip. */
  ghost predicate HeaviestStored(p: Params, v: ChainView)
    requires Shape(p, v)
  {
    forall h {:trigger OutWorks(p, v, h)} :: h in v.blocks ==> !OutWorks(p, v, h)
  }

  /** The block out-works the tip, but undoing and applying does not go through. */
  ghost predicate FailedChallenge(p: Params, m: Machine, b: Block)
    requires Shape(p, m.view)
  {
    AdmitCases(p, m.view, b);
    var a := Admit(p, m.view, b);
    a.Challenge? && ReorgLedger(p, a.view.blocks, m.ledger, m.view.tip, a.hash).Err?
  }

  lemma {:induction false} KeptOutWorks(p: Params, v: ChainView, w: ChainView, b: Block, h: Hash256)
    requires Shape(p, v) && Shape(p, w) && h in v.blocks && v.tip in v.blocks && w.tip == v.tip
    requires w.blocks == v.blocks || exists n :: n !in v.blocks && w.blocks == v.blocks[n := b]
    ensures h in w.blocks && (OutWorks(p, w, h) <==> OutWorks(p, v, h))
  {
    KeptBlock(p, v, w, b, h);
    KeptBlock(p, v, w, b, v.tip);
  }

  /** Before any reorganisation, only a challenger out-works the tip. */
  lemma {:induction false} AdmittedOutWorks(p: Params, v: ChainView, b: Block)
    requires Shape(p, v) && HeaviestStored(p, v)
    ensures var a := Admit(p, v, b);
      Shape(p, a.view) && forall h :: h in a.view.blocks ==> (OutWorks(p, a.view, h) <==> a.Challenge? && h == a.hash)
  {
    hide Admit, WellFormed, DifficultiesFollow, OutWorks;
    AdmitCases(p, v, b);
    var a := Admit(p, v, b);
    forall h | h in a.view.blocks ensures OutWorks(p, a.view, h) <==> a.Challenge? && h == a.hash {
      if h in v.blocks {
        KeptOutWorks(p, v, a.view, b, h);
      }
    }
  }

  lemma HeavierTip(p: Params, w: ChainView, tip: Hash256)
    requires Shape(p, w) && tip in w.blocks && OutWorks(p, w, tip)
    requires forall h :: h in w.blocks && OutWorks(p, w, h) ==> h == tip
    ensures Shape(p, w.(tip := tip)) && HeaviestStored(p, w.(tip := tip))
  {
    hide WellFormed, DifficultiesFollow, Work;
    var x := w.(tip := tip);
    forall h | h in x.blocks ensures !OutWorks(p, x, h) {
      assert h != tip ==> !OutWorks(p, w, h);
    }
  }

  /** The tip stays the heaviest of all stored blocks exactly unless a
      challenger's branch fails. */
  lemma {:induction false} HeaviestStoredIff(p: Params, m: Machine, b: Block)
    requires Shape(p, m.view) && HeaviestStored(p, m.view)
    ensures var w := SubmitInPlace(p, m, b).machine.view;
      Shape(p, w) && (HeaviestStored(p, w) <==> !FailedChallenge(p, m, b))
  {
    hide Admit, WellFormed, DifficultiesFollow, OutWorks, ReorgLedger;
    AdmitCases(p, m.view, b);
    AdmittedOutWorks(p, m.view, b);
    InPlaceKeepsShape(p, m, b);
    var a := Admit(p, m.view, b);
    if a.Challenge? {
      assert OutWorks(p, a.view, a.hash);
      HeavierTip(p, a.view, a.hash);
    }
  }

  /** In terms of the reference rule: unless a challenger's path does not replay. */
  lemma {:induction false} HeaviestStoredReplayIff(p: Params, v: ChainView, b: Block)
    requires Shape(p, v) && HeaviestStored(p, v)
    ensures var a, w := Admit(p, v, b), Submit(p, v, b).view;
      && Shape(p, a.view) && Shape(p, w) && (a.Challenge? ==> a.hash in a.view.blocks)
      && (HeaviestStored(p, w) <==> !(a.Challenge? && Replay(p, a.view.blocks, a.hash).Err?))
  {
    hide Admit, WellFormed, DifficultiesFollow, OutWorks, Replay;
    AdmitCases(p, v, b);
    AdmittedOutWorks(p, v, b);
    SubmitKeepsShape(p, v, b);
    var a := Admit(p, v, b);
    if a.Challenge? {
      assert OutWorks(p, a.view, a.hash);
      HeavierTip(p, a.view, a.hash);
    }
  }

  /** After any run from genesis: a stored block that out-works the tip is one
      whose path does not replay. */
  lemma HeavierMeansRejected(p: Params, bs: seq<Block>, h: Hash256)
    requires h in After(p, bs).blocks && OutWorks(p, After(p, bs), h)
    ensures Replay(p, After(p, bs).blocks, h).Err?
  {
    StartIsBest(p);
    RunIsBest(p, Start(p), bs);
    assert NotHeavier(p, After(p, bs), h);
  }

  /** Stored under h, off the tip, and on a path that does not replay. */
  ghost predicate OffForGood(p: Params, v: ChainView, h: Hash256, stored: Block, work: nat)
    requires Shape(p, v)
  {
    && h in v.blocks && v.blocks[h] == stored && h != v.tip
    && Replay(p, v.blocks, h).Err? && Work(v.blocks, p.genesis.hash, h) == work
  }

  lemma {:induction false} SubmitKeepsOff(p: Params, v: ChainView, b: Block, h: Hash256, stored: Block, work: nat)
    requires Shape(p, v) && OffForGood(p, v, h, stored, work)
    ensures Shape(p, Submit(p, v, b).view) && OffForGood(p, Submit(p, v, b).view, h, stored, work)
  {
    hide Submit, Shape, Work, Replay;
    SubmitCases(p, v, b);
    KeptBlock(p, v, Submit(p, v, b).view, b, h);
  }

  /** A block whose path does not replay is never replaced, never loses its work
      and never becomes the tip, whatever is submitted later. */
  lemma {:induction false} NeverTheTip(p: Params, v: ChainView, bs: seq<Block>, h: Hash256, stored: Block, work: nat)
    requires Shape(p, v) && OffForGood(p, v, h, stored, work)
    ensures OffForGood(p, Run(p, v, bs), h, stored, work)
  {
    hide Submit, Shape, OffForGood;
    if bs != [] {
      NeverTheTip(p, v, bs[..|bs| - 1], h, stored, work);
      SubmitKeepsOff(p, Run(p, v, bs[..|bs| - 1]), bs[|bs| - 1], h, stored, work);
    }
  }
}
