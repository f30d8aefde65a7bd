/** Every block ever stored, as a tree below genesis: the path to a block, the
    work and the ledger along it, and where two paths fork. */
module BlockTree {
  import opened Primitives
  import opened Protocol
  import opened Ledger
  import opened Emission

  type Store = map<Hash256, Block>

  /** Parent-closed, with a single block at height 0. */
  ghost predicate WellFormed(s: Store, root: Hash256) {
    && root in s && s[root].header.height == 0
    && forall h {:trigger Rooted(s, h)} :: h in s && h != root ==> Rooted(s, h)
  }

  ghost predicate Rooted(s: Store, h: Hash256)
    requires h in s
  {
    var parent := s[h].header.prevHash;
    parent in s && s[parent].header.height + 1 == s[h].header.height
  }

  /** The hashes from genesis to h; the block at height i is at index i. */
  ghost function Path(s: Store, root: Hash256, h: Hash256): (path: seq<Hash256>)
    requires WellFormed(s, root) && h in s
    ensures |path| == s[h].header.height + 1
    ensures path[0] == root && path[|path| - 1] == h
    ensures forall x :: x in path ==> x in s
    decreases s[h].header.height
  {
    if h == root then [h] else
      assert Rooted(s, h);
      Path(s, root, s[h].header.prevHash) + [h]
  }

  /** Any prefix of a path is the path to the block it ends in. */
  lemma {:induction false} PathPrefix(s: Store, root: Hash256, h: Hash256, i: nat)
    requires WellFormed(s, root) && h in s && i <= s[h].header.height
    ensures var path := Path(s, root, h);
      && s[path[i]].header.height == i
      && Path(s, root, path[i]) == path[..i + 1]
      && (i > 0 ==> path[i] != root && s[path[i]].header.prevHash == path[i - 1])
    decreases s[h].header.height
  {
    var path := Path(s, root, h);
    if i == s[h].header.height {
      assert path[..i + 1] == path;
      if h != root {
        assert Rooted(s, h);
      }
    } else {
      assert Rooted(s, h);
      var parent := s[h].header.prevHash;
      PathPrefix(s, root, parent, i);
      assert path[..i + 1] == Path(s, root, parent)[..i + 1];
    }
  }

  /** Each block on the path sits at its own height and names the one before it. */
  ghost predicate Linked(s: Store, path: seq<Hash256>) {
    && (forall h :: h in path ==> h in s)
    && (forall i :: 0 <= i < |path| ==> s[path[i]].header.height == i)
    && (forall i :: 0 < i < |path| ==> s[path[i]].header.prevHash == path[i - 1])
  }

  lemma PathLinked(s: Store, root: Hash256, h: Hash256)
    requires WellFormed(s, root) && h in s
    ensures Linked(s, Path(s, root, h))
  {
    var path := Path(s, root, h);
    forall i | 0 <= i < |path|
      ensures s[path[i]].header.height == i && (i > 0 ==> s[path[i]].header.prevHash == path[i - 1])
    {
      PathPrefix(s, root, h, i);
    }
  }

  /** Storing a block under a new hash changes no existing path. */
  lemma {:induction false} PathKept(s: Store, root: Hash256, n: Hash256, b: Block, h: Hash256)
    requires WellFormed(s, root) && n !in s && WellFormed(s[n := b], root)
    requires h in s
    ensures Path(s[n := b], root, h) == Path(s, root, h)
    decreases s[h].header.height
  {
    if h != root {
      assert Rooted(s, h);
      PathKept(s, root, n, b, s[h].header.prevHash);
    }
  }

  lemma StoreKeepsWellFormed(s: Store, root: Hash256, n: Hash256, b: Block)
    requires WellFormed(s, root) && n !in s
    requires b.header.prevHash in s && s[b.header.prevHash].header.height + 1 == b.header.height
    ensures WellFormed(s[n := b], root)
  {
    var t := s[n := b];
    forall h | h in t && h != root ensures Rooted(t, h) {
      if h != n {
        assert Rooted(s, h);
      }
    }
  }

  // ----- work -----

  /** The sum of the difficulties on the path to h, genesis included. */
  ghost function Work(s: Store, root: Hash256, h: Hash256): nat
    requires WellFormed(s, root) && h in s
    decreases s[h].header.height
  {
    if h == root then s[h].header.difficulty else
      assert Rooted(s, h);
      Work(s, root, s[h].header.prevHash) + s[h].header.difficulty
  }

  lemma {:induction false} WorkKept(s: Store, root: Hash256, n: Hash256, b: Block, h: Hash256)
    requires WellFormed(s, root) && n !in s && WellFormed(s[n := b], root)
    requires h in s
    ensures Work(s[n := b], root, h) == Work(s, root, h)
    decreases s[h].header.height
  {
    if h != root {
      assert Rooted(s, h);
      WorkKept(s, root, n, b, s[h].header.prevHash);
    }
  }

  /** Below height 2^64 the accumulated work fits the 128 bits it is stored in. */
  lemma {:induction false} WorkFits(s: Store, root: Hash256, h: Hash256)
    requires WellFormed(s, root) && h in s
    ensures Work(s, root, h) <= (s[h].header.height + 1) * U64_MAX
    ensures s[h].header.height < U64_SIZE ==> Work(s, root, h) < U64_SIZE * U64_SIZE
    decreases s[h].header.height
  {
    if h != root {
      assert Rooted(s, h);
      WorkFits(s, root, s[h].header.prevHash);
    }
  }

  // ----- replay -----

  function CreditAll(l: Ledger, premine: seq<(Address, U64)>): Ledger {
    if premine == [] then l
    else Credit(CreditAll(l, premine[..|premine| - 1]), premine[|premine| - 1].0, premine[|premine| - 1].1)
  }

  function GenesisLedger(p: Params): Ledger {
    CreditAll(map[], p.genesis.premine)
  }

  /** The premine followed by every block on the path to h, in order. */
  ghost function Replay(p: Params, s: Store, h: Hash256): Result<Ledger, ChainError>
    requires WellFormed(s, p.genesis.hash) && h in s
    decreases s[h].header.height
  {
    if h == p.genesis.hash then Ok(GenesisLedger(p)) else
      assert Rooted(s, h);
      match Replay(p, s, s[h].header.prevHash)
      case Err(e) => Err(e)
      case Ok(l) => ApplyBlock(p, l, Entry(h, s[h]))
  }

  lemma {:induction false} ReplayKept(p: Params, s: Store, n: Hash256, b: Block, h: Hash256)
    requires WellFormed(s, p.genesis.hash) && n !in s && WellFormed(s[n := b], p.genesis.hash)
    requires h in s
    ensures Replay(p, s[n := b], h) == Replay(p, s, h)
    decreases s[h].header.height
  {
    if h != p.genesis.hash {
      assert Rooted(s, h);
      ReplayKept(p, s, n, b, s[h].header.prevHash);
    }
  }

  ghost function FeesOnPath(s: Store, root: Hash256, h: Hash256): nat
    requires WellFormed(s, root) && h in s
    decreases s[h].header.height
  {
    if h == root then 0 else
      assert Rooted(s, h);
      FeesOnPath(s, root, s[h].header.prevHash) + Fees(s[h].transactions)
  }

  /** What an address is given by the entries that name it. */
  function PremineOf(premine: seq<(Address, U64)>, a: Address): nat {
    if premine == [] then 0
    else PremineOf(premine[..|premine| - 1], a) + if premine[|premine| - 1].0 == a then premine[|premine| - 1].1 else 0
  }

  /** At genesis an address holds the sum of its own entries, at most the largest
      balance there is, and has sent nothing. */
  lemma {:induction false} PremineBalance(premine: seq<(Address, U64)>, a: Address)
    ensures Lookup(CreditAll(map[], premine), a)
         == Account(Min(PremineOf(premine, a), 0xFFFF_FFFF_FFFF_FFFF), 0)
  {
    hide Put, Lookup;
    if premine == [] {
      assert Lookup(map[], a) == EMPTY_ACCOUNT by { NoAccount(a); }
    } else {
      var init, last := premine[..|premine| - 1], premine[|premine| - 1];
      PremineBalance(init, a);
      var l := CreditAll(map[], init);
      var acc := Lookup(l, last.0);
      PutLookup(l, last.0, acc.(balance := SaturatingAdd(acc.balance, last.1)), a);
    }
  }

  lemma NoAccount(a: Address)
    ensures Lookup(map[], a) == EMPTY_ACCOUNT
  {
  }

  lemma GenesisBalance(p: Params, a: Address)
    ensures Lookup(GenesisLedger(p), a)
         == Account(Min(PremineOf(p.genesis.premine, a), 0xFFFF_FFFF_FFFF_FFFF), 0)
  {
    PremineBalance(p.genesis.premine, a);
  }

  lemma {:induction false} GenesisTotal(premine: seq<(Address, U64)>)
    requires PremineSum(premine) <= U64_MAX
    ensures Total(CreditAll(map[], premine)) == PremineSum(premine)
  {
    if premine != [] {
      GenesisTotal(premine[..|premine| - 1]);
      CreditTotal(CreditAll(map[], premine[..|premine| - 1]), premine[|premine| - 1].0, premine[|premine| - 1].1);
    }
  }

  lemma RoomForReward(p: Params, l: Ledger, e: Entry)
    requires SupplyFits(p, e.block.header.height) && e.block.header.height > 0
    requires Total(l) <= PremineSum(p.genesis.premine) + RewardSum(p, e.block.header.height - 1)
    ensures RoomFor(p, l, e)
  {
    hide Params.BlockReward;
  }

  lemma ReplayStep(p: Params, s: Store, h: Hash256)
    requires WellFormed(s, p.genesis.hash) && h in s && h != p.genesis.hash
    requires Replay(p, s, h).Ok?
    ensures Rooted(s, h)
    ensures var parent := s[h].header.prevHash;
      && Replay(p, s, parent).Ok?
      && ApplyBlock(p, Replay(p, s, parent).value, Entry(h, s[h])) == Replay(p, s, h)
      && FeesOnPath(s, p.genesis.hash, h) == FeesOnPath(s, p.genesis.hash, parent) + Fees(s[h].transactions)
  {
    hide ApplyBlock, Fees;
    assert Rooted(s, h);
  }

  /** Everything issued on the path is in the accounts or was burned as a fee. */
  ghost predicate Balanced(p: Params, s: Store, h: Hash256)
    requires WellFormed(s, p.genesis.hash) && h in s
  {
    Replay(p, s, h).Ok? ==>
      Total(Replay(p, s, h).value) + FeesOnPath(s, p.genesis.hash, h)
        == PremineSum(p.genesis.premine) + RewardSum(p, s[h].header.height)
  }

  lemma BalancedAtGenesis(p: Params, s: Store)
    requires SupplyFits(p, 0) && WellFormed(s, p.genesis.hash)
    ensures Balanced(p, s, p.genesis.hash)
  {
    GenesisTotal(p.genesis.premine);
  }

  lemma BalancedStep(p: Params, s: Store, h: Hash256)
    requires WellFormed(s, p.genesis.hash) && h in s && h != p.genesis.hash
    requires SupplyFits(p, s[h].header.height)
    requires s[h].header.prevHash in s && Balanced(p, s, s[h].header.prevHash)
    ensures Balanced(p, s, h)
  {
    hide Params.BlockReward, WellFormed, Replay, FeesOnPath, ApplyBlock, RoomFor, SupplyFits, Fees,
         PremineSum, Total;
    if Replay(p, s, h).Ok? {
      ReplayStep(p, s, h);
      var parent := s[h].header.prevHash;
      RoomForReward(p, Replay(p, s, parent).value, Entry(h, s[h]));
      ApplyBlockConserves(p, Replay(p, s, parent).value, Entry(h, s[h]));
    }
  }

  /** Money is conserved on every path of the tree. */
  lemma {:induction false} Conservation(p: Params, s: Store, h: Hash256)
    requires WellFormed(s, p.genesis.hash) && h in s && SupplyFits(p, s[h].header.height)
    ensures Balanced(p, s, h)
    decreases s[h].header.height
  {
    if h == p.genesis.hash {
      BalancedAtGenesis(p, s);
    } else {
      assert Rooted(s, h);
      SupplyFitsBelow(p, s[h].header.height, s[h].header.height - 1);
      Conservation(p, s, s[h].header.prevHash);
      BalancedStep(p, s, h);
      hide *;
    }
  }

  // ----- forks -----

  function CommonPrefix<T(==)>(a: seq<T>, b: seq<T>): (k: nat)
    ensures k <= |a| && k <= |b|
  {
    if a == [] || b == [] || a[0] != b[0] then 0 else 1 + CommonPrefix(a[1..], b[1..])
  }

  lemma {:induction false} CommonPrefixIs<T>(a: seq<T>, b: seq<T>, k: nat)
    requires k <= |a| && k <= |b| && a[..k] == b[..k]
    requires k == |a| || k == |b| || a[k] != b[k]
    ensures CommonPrefix(a, b) == k
  {
    if k > 0 {
      assert a[0] == a[..k][0] == b[0];
      assert a[1..][..k - 1] == a[..k][1..] && b[1..][..k - 1] == b[..k][1..];
      CommonPrefixIs(a[1..], b[1..], k - 1);
    }
  }

  lemma {:induction false} CommonPrefixAgrees<T>(a: seq<T>, b: seq<T>)
    ensures var k := CommonPrefix(a, b);
      a[..k] == b[..k] && (k < |a| && k < |b| ==> a[k] != b[k])
  {
    if a != [] && b != [] && a[0] == b[0] {
      CommonPrefixAgrees(a[1..], b[1..]);
      var k := CommonPrefix(a[1..], b[1..]);
      assert a[..k + 1] == [a[0]] + a[1..][..k];
      assert b[..k + 1] == [b[0]] + b[1..][..k];
    }
  }

  function Entries(s: Store, hashes: seq<Hash256>): (es: seq<Entry>)
    requires forall h :: h in hashes ==> h in s
    ensures |es| == |hashes|
    ensures forall i :: 0 <= i < |es| ==> es[i] == Entry(hashes[i], s[hashes[i]])
  {
    seq(|hashes|, i requires 0 <= i < |hashes| => Entry(hashes[i], s[hashes[i]]))
  }

  ghost function ForkPoint(s: Store, root: Hash256, oldTip: Hash256, newTip: Hash256): (k: nat)
    requires WellFormed(s, root) && oldTip in s && newTip in s
    ensures 1 <= k <= s[oldTip].header.height + 1 && k <= s[newTip].header.height + 1
  {
    CommonPrefix(Path(s, root, oldTip), Path(s, root, newTip))
  }

  /** The losing blocks, tip first. */
  ghost function UndoList(s: Store, root: Hash256, oldTip: Hash256, newTip: Hash256): seq<Entry>
    requires WellFormed(s, root) && oldTip in s && newTip in s
  {
    Reverse(Entries(s, Path(s, root, oldTip)[ForkPoint(s, root, oldTip, newTip)..]))
  }

  /** The winning blocks, oldest first. */
  ghost function ApplyList(s: Store, root: Hash256, oldTip: Hash256, newTip: Hash256): seq<Entry>
    requires WellFormed(s, root) && oldTip in s && newTip in s
  {
    Entries(s, Path(s, root, newTip)[ForkPoint(s, root, oldTip, newTip)..])
  }

  /** Below the fork the branches agree, above it they have no block in common. */
  lemma {:induction false} ForkedBranches(s: Store, root: Hash256, oldTip: Hash256, newTip: Hash256, i: nat, j: nat)
    requires WellFormed(s, root) && oldTip in s && newTip in s
    requires i < |Path(s, root, oldTip)| && j < |Path(s, root, newTip)|
    ensures Path(s, root, oldTip)[i] == Path(s, root, newTip)[j]
       <==> i == j < ForkPoint(s, root, oldTip, newTip)
  {
    var po, pn := Path(s, root, oldTip), Path(s, root, newTip);
    var k := ForkPoint(s, root, oldTip, newTip);
    CommonPrefixAgrees(po, pn);
    PathPrefix(s, root, oldTip, i);
    PathPrefix(s, root, newTip, j);
    hide *;
    if i == j < k {
      assert po[..k][i] == pn[..k][i];
    } else if po[i] == pn[j] {
      assert po[..i + 1] == pn[..j + 1];
      assert i == j;
      SamePrefix(po, pn, i + 1, k);
    }
  }

  lemma SamePrefix<T>(a: seq<T>, b: seq<T>, n: nat, k: nat)
    requires k < n <= |a| && n <= |b|
    requires a[..n] == b[..n]
    ensures a[k] == b[k]
  {
    assert a[k] == a[..n][k] == b[..n][k];
  }

  /** Replaying to the tip is replaying to an ancestor and applying the rest;
      undoing the rest, tip first, gives the ancestor's ledger back. */
  lemma {:induction false} ReplayFromAncestor(p: Params, s: Store, h: Hash256, i: nat)
    requires WellFormed(s, p.genesis.hash) && h in s && i <= s[h].header.height
    ensures var path := Path(s, p.genesis.hash, h);
      Replay(p, s, h) ==
        match Replay(p, s, path[i])
        case Err(e) => Err(e)
        case Ok(l) => ApplyBlocks(p, l, Entries(s, path[i + 1..]))
    decreases s[h].header.height
  {
    var root, path := p.genesis.hash, Path(s, p.genesis.hash, h);
    if i < s[h].header.height {
      LastStep(p, s, h);
      hide WellFormed, Path, Replay, ApplyBlock;
      var parent := s[h].header.prevHash;
      ReplayFromAncestor(p, s, parent, i);
      var rest := Entries(s, path[i + 1..]);
      assert rest == Entries(s, Path(s, root, parent)[i + 1..]) + [Entry(h, s[h])];
    }
  }

  lemma LastStep(p: Params, s: Store, h: Hash256)
    requires WellFormed(s, p.genesis.hash) && h in s && s[h].header.height > 0
    ensures var root, parent := p.genesis.hash, s[h].header.prevHash;
      && parent in s && s[parent].header.height + 1 == s[h].header.height
      && Path(s, root, h) == Path(s, root, parent) + [h]
      && Replay(p, s, h) ==
           match Replay(p, s, parent) case Err(e) => Err(e) case Ok(l) => ApplyBlock(p, l, Entry(h, s[h]))
  {
    hide ApplyBlock;
    assert Rooted(s, h);
  }

  lemma {:induction false} UndoTip(p: Params, s: Store, h: Hash256)
    requires WellFormed(s, p.genesis.hash) && h in s && h != p.genesis.hash
    requires SupplyFits(p, s[h].header.height) && Replay(p, s, h).Ok?
    ensures Rooted(s, h)
    ensures Replay(p, s, s[h].header.prevHash) == Ok(UndoBlock(p, Replay(p, s, h).value, Entry(h, s[h])))
  {
    hide ApplyBlock, UndoBlock, RoomFor, SupplyFits, RewardSum, FeesOnPath, WellFormed, Replay, Params.BlockReward;
    ReplayStep(p, s, h);
    var parent := s[h].header.prevHash;
    var before, e := Replay(p, s, parent).value, Entry(h, s[h]);
    SupplyFitsBelow(p, s[h].header.height, s[parent].header.height);
    Conservation(p, s, parent);
    RoomForReward(p, before, e);
    ApplyBlockConserves(p, before, e);
  }

  lemma {:induction false} UndoToAncestor(p: Params, s: Store, h: Hash256, i: nat)
    requires WellFormed(s, p.genesis.hash) && h in s && i <= s[h].header.height
    requires SupplyFits(p, s[h].header.height) && Replay(p, s, h).Ok?
    ensures var path := Path(s, p.genesis.hash, h);
      Replay(p, s, path[i]) == Ok(UndoBlocks(p, Replay(p, s, h).value, Reverse(Entries(s, path[i + 1..]))))
    decreases s[h].header.height
  {
    hide Replay, UndoBlock, WellFormed, SupplyFits;
    var path := Path(s, p.genesis.hash, h);
    if i < s[h].header.height {
      PathPrefix(s, p.genesis.hash, h, s[h].header.height);
      UndoTip(p, s, h);
      var parent, e := s[h].header.prevHash, Entry(h, s[h]);
      SupplyFitsBelow(p, s[h].header.height, s[parent].header.height);
      UndoToAncestor(p, s, parent, i);
      var rest := Entries(s, Path(s, p.genesis.hash, parent)[i + 1..]);
      assert Entries(s, path[i + 1..]) == rest + [e];
      ReverseSnoc(rest, e);
      assert ([e] + Reverse(rest))[1..] == Reverse(rest);
    }
  }

  /** The ledger the reorganisation computes from the old one, block by block. */
  ghost function ReorgLedger(p: Params, s: Store, l: Ledger, oldTip: Hash256, newTip: Hash256)
    : Result<Ledger, ChainError>
    requires WellFormed(s, p.genesis.hash) && oldTip in s && newTip in s
  {
    ApplyBlocks(p, UndoBlocks(p, l, UndoList(s, p.genesis.hash, oldTip, newTip)),
                ApplyList(s, p.genesis.hash, oldTip, newTip))
  }

  /** The deepest common ancestor is the same block on both paths. */
  lemma {:induction false} ForkAncestor(s: Store, root: Hash256, oldTip: Hash256, newTip: Hash256)
    requires WellFormed(s, root) && oldTip in s && newTip in s
    ensures var k := ForkPoint(s, root, oldTip, newTip);
      Path(s, root, oldTip)[k - 1] == Path(s, root, newTip)[k - 1]
  {
    var po, pn := Path(s, root, oldTip), Path(s, root, newTip);
    var k := ForkPoint(s, root, oldTip, newTip);
    CommonPrefixAgrees(po, pn);
    assert po[k - 1] == po[..k][k - 1] == pn[..k][k - 1];
  }

  /** The reorganisation is a replay from genesis: same ledger, same verdict, same error. */
  lemma {:induction false} ReorgIsReplay(p: Params, s: Store, oldTip: Hash256, newTip: Hash256)
    requires WellFormed(s, p.genesis.hash) && oldTip in s && newTip in s
    requires SupplyFits(p, s[oldTip].header.height) && Replay(p, s, oldTip).Ok?
    ensures ReorgLedger(p, s, Replay(p, s, oldTip).value, oldTip, newTip) == Replay(p, s, newTip)
  {
    hide Path, WellFormed, Replay, SupplyFits, ApplyBlocks, UndoBlocks, Entries, Reverse, ForkPoint, CommonPrefix;
    var k := ForkPoint(s, p.genesis.hash, oldTip, newTip);
    ForkAncestor(s, p.genesis.hash, oldTip, newTip);
    UndoToAncestor(p, s, oldTip, k - 1);
    ReplayFromAncestor(p, s, newTip, k - 1);
  }
}
