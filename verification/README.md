# Ondris node: a verified model

Ondris is a proof-of-work chain with accounts. This project models its node in
Dafny and proves what its parts promise.

**Fork choice and reorganisation.** Every sound block is stored under its hash,
with the summed difficulty of its path. A block with strictly more work than the
tip challenges it: the losing branch is undone and the winning one applied in an
account overlay, and the database is written only if every transaction checks
out. The consensus rule is given twice in `ForkChoice.dfy`. The *reference rule*
keeps the block tree and the tip only and reads balances off a replay from
genesis. The *working rule* carries the balances across forks with the code's
saturating and wrapping 64-bit arithmetic. `Chain.dfy` (with `ForkWalk.dfy`,
`Simulation.dfy`, `ChainStore.dfy`) is the code itself, methods that update the
database in place; each is tied to the working rule without any assumption on
the configuration. `Runs.dfy` proves that the working rule is the reference rule
on every run, which rests on undo being the exact inverse of apply, which rests
on no addition ever saturating. The one hypothesis is `SupplyFits`: premine plus
the rewards of the heights that are reached stay below 2^64 - 1. `Balances.dfy`
has the result for runs from genesis, and `Emission.dfy` the bound over all
halvings (`Emission.CapFits`). `Examples.dfy` has a run that goes wrong without
the hypothesis.

**Payments and answers.** `Payments.dfy` says when payments go through, from one
transaction to a mined template, in sums of money alone; `Answers.dfy` what each
answer to a block means.

**What the rule does not do.** `Rejected.dfy` is about blocks that are stored
although their transactions fail, `Epochs.dfy` about the first epoch boundary,
and `Templates.dfy` about what becomes of a mined block. `Twins.dfy` is about
another block under the same hash, which comes down to `MerkleLevels.dfy`: which
lists share their Merkle root with another list.

**The node.** `Node.dfy` adds the mempool and the buffer of blocks waiting for a
parent; one call of `AcceptAndBroadcast` is one step.

**Hashing.** `Blake3.dfy` and `ChainingTree.dfy` prove the chaining-value stack
against the left-balanced tree of sections 2.1 and 5.1.2 of the BLAKE3 paper, for
any compression function; `Blake3Layout.dfy` gives every compression field by
field. `OndrisHash.dfy` proves both copies of the FNV mix
against a fold over words. `Merkle.dfy` is the transaction root.

**Wire and numbers.** `Stream.dfy` is the encrypted, framed byte stream with
length-prefixed messages. `Difficulty.dfy` is the 256-bit division, the target
comparison and the retarget rule, `Retarget.dfy` what that rule keeps, and
`Branches.dfy` what it makes of every stored branch.

Hash functions, signatures, address derivation and ciphers are parameters, so a
theorem holds whatever they compute; where a law of theirs is needed (a pair hash
without collisions, a cipher that decrypts what it encrypted) it is a hypothesis
of that theorem. Arithmetic overflow follows the release profile, in which plain
additions and multiplications wrap.

Verify with `dafny verify dfyconfig.toml`.

## Where the documentation and the code differ

- docs/ARCHITECTURE.md:57-68 can be read as saying that the tip is the heaviest
  stored block. A block is stored before its transactions are checked
  (crates/ondris-core/src/chain.rs:337-352), so a block whose transactions fail
  stays stored, with more work than the tip until a chain that replays overtakes
  it (`Examples.UnpaidBlockOutWorks`), and never becomes the tip
  (`Rejected.NeverTheTip`). One step keeps the tip the heaviest stored block if
  and only if it is not such a failed challenge (`Rejected.HeaviestStoredIff`).
  What always holds is that the tip is heaviest among the stored blocks whose
  whole path replays (`Runs.Best`).
- docs/ALGORITHM.md:85-91 defines the seed of every later epoch by the hash of its
  boundary block, and docs/ARCHITECTURE.md:76-82 excludes only branches that part
  before a boundary. The code looks the boundary block up in the height index
  before it has stored it (crates/ondris-core/src/chain.rs:141-158 and 283), and
  for height 2048 that is the block being submitted. No run from genesis gets past
  height 2047, no template exists for 2048, and the branch that reads the index is
  never taken (`Epochs.HeightsStayBelow`, `Epochs.SecondEpochRefused`,
  `Epochs.NextSeedIff`).
- crates/ondris-core/src/difficulty.rs:24-26 promises a correction within a factor
  of four both ways. The lower clamp is a truncated quarter, so the upper factor
  holds exactly if the target timespan is below four or a multiple of four;
  otherwise it reaches up to seven (`Retarget.SevenfoldExample`,
  `Retarget.AtMostSevenfold`). `Retarget.FourfoldIff` has the condition for
  target timespans whose fourfold wraps as well. The quotient is cast to 64 bits,
  so a large difficulty that should rise can drop to 1
  (`Retarget.RetargetWrapExample`), and the lower factor holds for every
  difficulty only with a target timespan of one second (`Retarget.QuarterIff`);
  for a given difficulty `Retarget.RetargetExactIff` says when the cast is exact.
- crates/ondris-core/src/difficulty.rs:58-69 tests that faster blocks raise and
  slower ones lower the difficulty. The cast can turn that order around
  (`Retarget.RetargetWrapExample`); `Retarget.NeverRisesIff` says for which
  difficulties it cannot.
- crates/ondris-core/src/block.rs:12-38: the root does not fix the number of
  transactions, and neither does the block hash. A list of m * 2^k hashes, m odd
  and at least 3, has the root of the list with its last 2^k hashes repeated
  (`MerkleLevels.PaddedKeepsRoot`), and such a copy of a block takes its place for
  good if it is submitted first (`Twins.CopyTakesThePlace`; a concrete block is
  `Examples.CopyComesFirst`). Unless hashes collide, the place of a good block can
  be taken if and only if the number of its transactions is at least 3 and not a
  power of two (`Twins.PlaceTakenIff`).
- docs/ARCHITECTURE.md:70-74 says that a buffered block is retried once its parent
  arrives. The code retries only when the parent comes back as Accepted
  (crates/ondris-node/src/main.rs:225); a parent stored as a side branch leaves
  its children in the buffer, also if they have more work than the tip
  (`WaitingBlocks.ChildOfSideBranch`).
- crates/ondris-node/src/main.rs:394-405 checks only the signature of a pending
  transaction, and only a block that contains it takes it out again. While the
  nonce of a pending transaction is used up, no template of the node is accepted
  when it is mined (`NodeModule.Node.GetWork`, `Templates.StaleTemplate`).
- The undo in a reorganisation is exact only while supply fits 64 bits;
  `Ledger.RoomIsExact` gives the condition as an equivalence, and
  `Examples.FullSupplyLosesSync` a run that breaks without it.

## Model

| member | source | states |
|---|---|---|
| Balances.BalancesAreReplay | crates/ondris-core/src/chain.rs:433-511 | For every sequence of submitted blocks from genesis, if premine and the rewards up to height 2047 fit 64 bits: the store, tip and cache are those of the reference rule, the balances moved in place equal a replay of the canonical chain from the premine, that chain replays, and no stored chain that replays has more work |
| Runs.RunStaysInSync | crates/ondris-core/src/chain.rs:432-526 | The same from any state that is in sync, so it also holds after a restart, as long as the coins issued up to the highest stored block fit 64 bits |
| Runs.InPlaceRefines | crates/ondris-core/src/chain.rs:350-358 | One step of the undo-and-apply rule gives the store, tip, answer and error of the rule that replays the whole path, if the coins issued up to the tip fit 64 bits |
| Runs.SubmitKeepsBest | crates/ondris-core/src/chain.rs:326-365 | A step keeps the tip the heaviest stored block whose whole path replays, although blocks are stored before their transactions are checked |
| Runs.RunIsBest | crates/ondris-core/src/chain.rs:341-364 | The same after every run of the reference rule |
| Runs.SubmitCases | crates/ondris-core/src/chain.rs:337-364 | A step stores at most one block, moves the tip only to a block that replays with strictly more work, and leaves off the tip only a block that fails to replay or is not heavier |
| Balances.MoneyConserved | crates/ondris-core/src/chain.rs:450-497 | After every run from genesis: all balances plus all fees on the canonical chain equal the premine plus the block rewards, and the balances never exceed the supply cap |
| Runs.TipNeverReturns | crates/ondris-core/src/chain.rs:350-352 | If two states of a run have the same tip, so has every state between them |
| Runs.TipOnlyAdvances | crates/ondris-core/src/chain.rs:350-352 | Between any two states of a run the tip is unchanged or its work has strictly grown |
| Runs.DifficultyPositive | crates/ondris-core/src/chain.rs:318-335 | With a positive initial difficulty every stored block has a positive one, and work strictly grows along every branch |
| Branches.BranchRetarget | crates/ondris-core/src/chain.rs:249-268 | On every stored branch a retargeted difficulty is at most the ratio of the smallest clamped timespan (seven times its parent's, four times for a target timespan that is a multiple of four, unless four times the target wraps), and at least a quarter of its parent's if its own ratio fits 64 bits |
| Branches.DifficultyOfBlock | crates/ondris-core/src/chain.rs:249-268 | Every stored block but genesis: within the first window the initial difficulty, after it the retargeted one over the window that ends in its parent, on its own branch |
| Branches.FirstRetarget | crates/ondris-core/src/chain.rs:249-268 | After every run the first retarget of a branch measures from the genesis timestamp of the configuration |
| Branches.FirstRetargetAsked | crates/ondris-core/src/chain.rs:249-268 | The same for what is asked of a block not stored yet |
| Branches.OnTimeBranch | crates/ondris-core/src/difficulty.rs:24-40 | A window that took exactly block time times window keeps the difficulty, on every stored branch |
| Branches.GenesisKept | crates/ondris-core/src/chain.rs:97-109 | After every run from genesis the genesis block is there with height 0, the configured timestamp and difficulty, no transactions, and zeros elsewhere |
| Templates.TemplateIsAccepted | crates/ondris-core/src/chain.rs:275-364 | After every run from genesis, every answer a template on the unchanged tip can get: beyond the first epoch, hash already taken, weak proof of work, bad signature, no work added, or stored; and then it becomes the tip with the balances of the tip plus itself, or fails with the error of its first bad transaction |
| Payments.TemplatePaysIff | crates/ondris-core/src/chain.rs:471-490 | After every run from genesis, a template with nothing wrong in its header is accepted if and only if its payments fit the accounts of the tip: nonces in sequence, and money for each when its turn comes |
| Answers.AnswerMeans | crates/ondris-core/src/chain.rs:275-364 | After every run from genesis, what each of the answers to any block says about its root, work, signatures, parent, difficulty, path and tip; no other answer occurs |
| Answers.ReorgedIff | crates/ondris-core/src/chain.rs:350-358 | The reorged flag of an accepted block is set if and only if the old tip is off the new canonical chain |
| Answers.OrphanIsWorked | crates/ondris-core/src/chain.rs:290-310 | From any state only a block with a matching root, enough work and good signatures is answered Orphan, so nothing else is ever buffered |
| Twins.CopyTakesThePlace | crates/ondris-core/src/block.rs:28-32 | The Merkle weakness carried to the chain, for every number of transactions that is not a power of two: once a good block was submitted with its last 2^k transactions repeated (its count is an odd multiple of 2^k), the copy stays stored under the hash of both in every later state, that hash is never the tip, and the good block is answered AlreadyKnown |
| Twins.PlaceTakenIff | crates/ondris-core/src/chain.rs:283-338 | Exactly when: for a good block whose own hashes do not collide, some other block that collides with nothing can be stored under its hash if and only if the number of its transactions is at least 3 and not a power of two |
| Twins.OnlyItself | crates/ondris-core/src/chain.rs:284-291 | After any run, what is stored under the hash of a block without transactions or with a power of two of them, all of which can be carried out, is that block, unless hashes collide |
| Examples.CopyComesFirst | crates/ondris-core/src/chain.rs:283-352 | A concrete good block of three transactions, free of collisions, whose copy comes first |
| Twins.CopyIsStored | crates/ondris-core/src/chain.rs:283-352 | Submitting that copy first: same hash, stored, answered InvalidTxNonce, more work than the tip, tip unchanged |
| Twins.OnlyAnotherLength | crates/ondris-core/src/chain.rs:284-291 | Whatever their number: unless hashes collide, a block stored under a block's hash with as many transactions is that block |
| Templates.StaleTemplate | crates/ondris-core/src/chain.rs:471-490 | A template that holds a transaction whose nonce is already used is never accepted, wherever in the block it stands, and is stored if nothing else is wrong with it |
| Replayed.StaleFails | crates/ondris-core/src/chain.rs:471-490 | One transaction with a used nonce makes every list that contains it fail, in any order |
| Replayed.NoneTwice | crates/ondris-core/src/chain.rs:471-490 | No list that can be carried out holds a transaction twice |
| Templates.ExtensionUndoesNothing | crates/ondris-core/src/chain.rs:372-425 | Extending the tip undoes nothing and applies exactly the new block |
| Epochs.HeightsStayBelow | crates/ondris-core/src/chain.rs:141-158 | After every run from genesis every stored block is below height 2048 |
| Epochs.SecondEpochRefused | crates/ondris-core/src/chain.rs:283-284 | After every run from genesis a block at height 2048 or above is answered with the missing boundary block, and nothing changes |
| Epochs.NextSeedIff | crates/ondris-core/src/chain.rs:172-184 | After every run from genesis the next block has a dataset if and only if its height is below 2048, and then it is that of the first epoch |
| Epochs.SeedOfEpoch | crates/ondris-core/src/chain.rs:141-166 | The seed rule as it stands, for any chain that has the boundary block: the seed cached for that epoch, else that of the canonical block at its first height |
| Rejected.HeaviestStoredIff | crates/ondris-core/src/chain.rs:326-358 | From a state whose tip is the heaviest of all stored blocks, one step keeps it so if and only if the block is not a challenger whose undo and apply fail |
| Rejected.HeaviestStoredReplayIff | crates/ondris-core/src/chain.rs:326-358 | The same for the reference rule: unless the path of a challenger does not replay |
| Rejected.HeavierMeansRejected | crates/ondris-core/src/chain.rs:337-352 | After every run from genesis, a stored block with more work than the tip is one whose path does not replay |
| Rejected.NeverTheTip | crates/ondris-core/src/chain.rs:337-352 | A stored block whose path does not replay is never replaced, keeps its work and never becomes the tip, whatever is submitted later |
| Examples.UnpaidBlockOutWorks | crates/ondris-core/src/chain.rs:337-352 | A concrete block whose only transaction nobody can pay for: stored, twice the work of the tip, and no tip |
| Examples.FullSupplyLosesSync | crates/ondris-core/src/chain.rs:440-502 | A concrete network with 2^64 - 1 units issued at genesis and three blocks on two branches: the balances moved in place are not the replay of the canonical chain, so the supply bound cannot be dropped |
| Replayed.NothingCarriedOutTwice | crates/ondris-core/src/transaction.rs:10-12 | Replay protection: on every chain that replays, nonces of a sender strictly increase and no two of its transactions are equal |
| Replayed.HistoryNonces | crates/ondris-core/src/state.rs:8-12 | On every chain that replays, an account's nonce counts its transactions, and each transaction carries the number of earlier ones of its sender |
| Replayed.PaymentEffect | crates/ondris-core/src/chain.rs:471-490 | A payment moves the amount, burns the fee, counts one nonce, and changes no other account, also when sender and recipient are the same |
| Payments.PaymentIff | crates/ondris-core/src/chain.rs:471-490 | Over any ledger a payment goes through if and only if it carries the sender's nonce and the sender holds amount and fee (a sum beyond 64 bits counting as the largest balance); otherwise the fault is named, nonce first |
| Payments.PaymentInFull | crates/ondris-core/src/chain.rs:471-490 | What a payment that goes through does over any ledger, in plain numbers: the cost modulo 2^64, the credit up to the largest balance |
| Payments.UndoInFull | crates/ondris-core/src/chain.rs:457-467 | What undoing a payment does over any ledger: first the debit down to zero, then the refund up to the largest balance |
| Payments.ListIff | crates/ondris-core/src/chain.rs:471-490 | A list of payments goes through if and only if each fits when its turn comes, in sums of what was sent and received before it |
| Payments.ListEffect | crates/ondris-core/src/chain.rs:471-490 | What a list that goes through does to every account: balance plus received minus spent, one nonce for each payment |
| Payments.FirstFaultDecides | crates/ondris-core/src/chain.rs:471-484 | The first payment that does not fit decides the fault, whatever follows |
| Payments.BlockIff | crates/ondris-core/src/chain.rs:470-497 | A block goes through if and only if its payments do, before the reward is there to be spent; then the miner has the reward on top |
| Payments.BlockFault | crates/ondris-core/src/chain.rs:471-484 | The error of a block names the block, its height and the fault of its first bad payment |
| Replayed.RunIsVetted | crates/ondris-core/src/chain.rs:284-301 | After any run from genesis every stored block hashes to its key over the first epoch's dataset, its hash times its difficulty is below 2^256, its root matches and its transactions are signed |
| ForkChoice.AdmitCases | crates/ondris-core/src/chain.rs:275-365 | Before any reorganisation, a submission adds at most one block, keeps the tip and the shape of the store, and the added block is a challenger exactly when it out-works the tip |
| ForkChoice.StoredBlock | crates/ondris-core/src/chain.rs:326-338 | Storing a sound block changes no recorded path or work, and its own work is its parent's plus its difficulty |
| ForkChoice.DifficultiesKept | crates/ondris-core/src/chain.rs:318-324 | Every stored block keeps the difficulty its own branch asks for |
| BlockTree.ReorgIsReplay | crates/ondris-core/src/chain.rs:470-511 | Undoing the losing branch and applying the winning one to the ledger of the old tip gives the replay of the new tip: same ledger, same verdict, same error |
| BlockTree.UndoToAncestor | crates/ondris-core/src/chain.rs:450-468 | Undoing blocks tip first from a replayed ledger gives the replay of any ancestor, exactly |
| BlockTree.ReplayFromAncestor | crates/ondris-core/src/chain.rs:470-497 | Replaying to a block is replaying to any ancestor and applying the rest |
| BlockTree.Conservation | crates/ondris-core/src/chain.rs:450-497 | On every path that replays, balances plus burned fees equal premine plus rewards |
| BlockTree.ForkedBranches | crates/ondris-core/src/chain.rs:367-371 | Two paths agree exactly below the fork point and share no block above it |
| BlockTree.PathPrefix | crates/ondris-core/src/chain.rs:235-244 | Walking back along parent links meets one block per height, and every prefix of a path is the path to the block it ends in |
| BlockTree.WorkFits | crates/ondris-core/src/chain.rs:38-40 | Below height 2^64 the summed difficulties fit 128 bits |
| ForkWalk.ForkPaths | crates/ondris-core/src/chain.rs:372-425 | The three walks end without a missing ancestor and return the blocks above the deepest common ancestor, losing side tip first, winning side oldest first |
| ForkWalk.WalkDown | crates/ondris-core/src/chain.rs:391-406 | Collecting blocks down to a height yields exactly the path above it |
| Ledger.ApplyBlockConserves | crates/ondris-core/src/chain.rs:450-497 | With room for the reward, applying a block adds the reward and removes the fees from the total, and undoing it gives the old ledger back |
| Ledger.RoomIsExact | crates/ondris-core/src/chain.rs:450-497 | For a total and a height: every block over every such ledger is undone exactly if and only if the total is below 2^64 - 1 and the reward still fits |
| Ledger.UndoTxInvertsIff | crates/ondris-core/src/chain.rs:457-490 | Undoing an applied transaction restores the ledger if and only if the recipient, after the sender paid, has room for the amount |
| Ledger.CreditInvertsIff | crates/ondris-core/src/state.rs:93-104 | A debit undoes a credit if and only if the credit did not saturate |
| Ledger.SelfPaymentNotUndone | crates/ondris-core/src/chain.rs:457-490 | With 2^64 - 1 units in one account, a payment of all of them to oneself with fee 1 passes the guard, its wrapped cost is nothing, and undoing it empties the account |
| Ledger.ApplyTxConserves | crates/ondris-core/src/chain.rs:471-490 | Below a total of 2^64 - 1 nothing saturates or wraps: only the fee leaves the ledger |
| Emission.EmissionBound | crates/ondris-core/src/chain.rs:124-131 | The rewards of any number of blocks never exceed twice the initial reward times the halving interval |
| Emission.EmissionInvariant | crates/ondris-core/src/chain.rs:124-131 | The bound block by block: within an era it grows by one reward, across a halving the slack pays for the rest |
| Emission.RewardSchedule | crates/ondris-core/src/chain.rs:124-131 | Heights k * interval to (k + 1) * interval - 1 pay the initial reward divided by 2^k for k below 64, and nothing afterwards |
| BlockTree.GenesisBalance | crates/ondris-core/src/chain.rs:110-112 | At genesis an address holds the sum of its own premine entries, at most the largest balance, with nonce 0 |
| Simulation.UndoBranch | crates/ondris-core/src/chain.rs:440-468 | The unwinding loops leave in the overlay exactly the undone ledger |
| Simulation.UndoTransactions | crates/ondris-core/src/chain.rs:457-467 | A block's transactions are undone last first |
| Simulation.ApplyBranch | crates/ondris-core/src/chain.rs:470-497 | The applying loops give the applied ledger, or the error of the first transaction that does not check out |
| Simulation.ApplyTransaction | crates/ondris-core/src/chain.rs:471-490 | One transaction is checked and carried out against the overlay |
| Simulation.DisplacedTransactions | crates/ondris-core/src/chain.rs:513-525 | The transactions of the losing branch that the winning one lacks, in order |
| ChainModule.Chain.SubmitBlock | crates/ondris-core/src/chain.rs:275-365 | From every consistent database: the new state and the answer are those of the working machine, the database stays consistent (height index, tip record, work of every block), the mempool is untouched |
| ChainModule.Chain.ReconsiderTip | crates/ondris-core/src/chain.rs:432-526 | Fails exactly when undo and apply do not go through, and then nothing changes; otherwise accounts, index and tip are those of the new branch and the displaced transactions are returned |
| ChainModule.Chain.StoreAndChoose | crates/ondris-core/src/chain.rs:326-364 | A sound block is stored with its summed work and wins only with strictly more work than the tip |
| ChainModule.Chain.CheckBlock | crates/ondris-core/src/chain.rs:283-324 | The verdict on a block, check by check in the code's order |
| ChainModule.Chain.CommitHeights | crates/ondris-core/src/chain.rs:503-509 | The height index becomes exactly the path of the new tip, also when that branch is shorter |
| ChainModule.Chain.CommitAccounts | crates/ondris-core/src/chain.rs:499-502 | Writing the overlay in any order stores the ledger it stands for |
| ChainModule.Chain.ComputeNextDifficulty | crates/ondris-core/src/chain.rs:207-230 | Through the height index: the difficulty the canonical branch asks for, with no missing-block error up to the tip |
| ChainModule.Chain.ExpectedDifficultyAfter | crates/ondris-core/src/chain.rs:249-268 | Through parent links: the difficulty the block's own branch asks for, never an error |
| ChainModule.Chain.BlockAncestor | crates/ondris-core/src/chain.rs:235-244 | The ancestor a given number of blocks back, on any branch, and none beyond genesis (as long as no block is stored under the zero hash that genesis names as its parent) |
| ChainModule.Chain.DatasetForHeight | crates/ondris-core/src/chain.rs:141-166 | The epoch seed through the cache or the canonical boundary block, and the new cache |
| ChainModule.Chain.WorkTemplate | crates/ondris-core/src/chain.rs:172-202 | Next height, tip as parent, root of the pending transactions, the branch's difficulty, and a matching dataset |
| ChainModule.Chain.Open | crates/ondris-core/src/chain.rs:83-95 | For every database: with a tip record nothing is changed, without one the genesis state is written over whatever is there; fresh ones start at genesis with the premine, consistent ones stay consistent |
| ChainModule.Chain.InitGenesis | crates/ondris-core/src/chain.rs:97-122 | Premine credited on top of the accounts that are there, genesis block, work, height and tip written; over empty trees that is consistent and the start of every run |
| ChainStore.ChainState.CreditAccount | crates/ondris-core/src/state.rs:93-97 | Crediting the store credits the ledger it stands for |
| Mempool.NothingLost | crates/ondris-core/src/chain.rs:513-525 | In any step, an accepted block's transactions are on the new chain, and those of the old chain are on it or handed back |
| Mempool.ForkKeepsTransactions | crates/ondris-core/src/chain.rs:513-525 | Across any fork the old chain's transactions are on the new chain or requeued |
| Mempool.RequeueHashes | crates/ondris-core/src/chain.rs:513-525 | Handed back is exactly what the losing branch had and the winning one lacks |
| Mempool.RequeueInOrder | crates/ondris-core/src/chain.rs:513-525 | Handed back is the losing branch, tip block first and each block in its order, without what the winning branch has: every occurrence of every other transaction and nothing else |
| Mempool.StepOutcome | crates/ondris-core/src/chain.rs:49-70 | What each answer of a submission means for the tip, the store and the missing parent |
| NodeModule.KnownKept | crates/ondris-node/src/main.rs:248-275 | Handling an outcome forgets no transaction that was pending or on the canonical chain |
| NodeModule.Node.AcceptAndBroadcast | crates/ondris-node/src/main.rs:221-246 | The cascade ends; the blocks submitted are the given one and each buffered block that left the buffer, once each; they are submitted parent after parent in the order of acceptance, children in the order of buffering; nothing waits for an accepted hash any more; a block that is neither accepted nor an orphan leaves the buffer as it was; no transaction is lost; balances stay a replay |
| WaitingBlocks.ChildOfSideBranch | crates/ondris-node/src/main.rs:221-246 | A concrete node: a child waits for its parent, the parent arrives and is stored as a side branch, the child stays in the buffer, although it would become the tip |
| NodeModule.Node.Cascade | crates/ondris-node/src/main.rs:225-243 | Every block waiting for an accepted hash is taken out and submitted once, and so on for what that unlocks, first accepted first |
| NodeModule.Node.ProcessChildren | crates/ondris-node/src/main.rs:231-241 | A block buffered under an accepted parent is never buffered again |
| NodeModule.Node.Process | crates/ondris-node/src/main.rs:232-239 | One submission with its handling: chain, buffer, mempool and accepted hashes afterwards |
| NodeModule.Node.HandleOutcome | crates/ondris-node/src/main.rs:248-299 | What each outcome does to the buffer and the mempool |
| NodeModule.Node.UpdateMempool | crates/ondris-node/src/main.rs:265-274 | Mined transactions are removed first, displaced ones inserted afterwards |
| NodeModule.Node.SubmitTx | crates/ondris-node/src/main.rs:394-405 | A signed transaction becomes pending, an unsigned one changes nothing |
| NodeModule.Node.GetWork | crates/ondris-node/src/main.rs:344-373 | A template over exactly the pending transactions, each once, if and only if the next height has a seed, which from genesis means below height 2048; handing it out drains nothing; while a pending transaction has a used nonce, nothing mined from it is accepted |
| ChainStore.ChainState.MempoolAll | crates/ondris-core/src/state.rs:70-79 | The multiset of the pending transactions: one for every entry, in any order |
| Blake3.Hash | crates/ondris-miner-gpu/src/blake3_ref.rs:210-251 | For every input the digest is the root of the left-balanced tree over the chunks, and the compressions made, with all their arguments, are those of the tree in its order |
| Blake3.RootFlagOnce | crates/ondris-miner-gpu/src/blake3_ref.rs:232-249 | For every input and every number of chunks: of all compressions of the tree exactly the last carries the root flag, and the digest is its result |
| Blake3Layout.ParentFields | crates/ondris-miner-gpu/src/blake3_ref.rs:188-194 | In the trace of every subtree of two or more chunks: the last compression starts from the initial words, over the left value followed by the right value, counter 0, length 64, marks 4 and at the root 8; before it all of the left part's compressions, then all of the right one's |
| Blake3Layout.BlockFields | crates/ondris-miner-gpu/src/blake3_ref.rs:156-186 | Compression i of a chunk: continues from the one before, counter of the chunk, length of the block, mark 1 on the first block alone, 2 on the last alone, 8 on the last of a root chunk |
| Blake3Layout.BlockWord | crates/ondris-miner-gpu/src/blake3_ref.rs:171-186 | Word j of a block is its bytes 4j to 4j + 3, lowest first, zero beyond the end |
| Blake3Layout.LeafFields | crates/ondris-miner-gpu/src/blake3_ref.rs:221-245 | Leaf i is the chunk from byte 1024 i on, of 1024 bytes or what is left, under counter i |
| Blake3Layout.TreeFields | crates/ondris-miner-gpu/src/blake3_ref.rs:210-219 | One leaf for every 1024 bytes begun, at least one |
| Blake3Layout.DigestBytes | crates/ondris-miner-gpu/src/blake3_ref.rs:253-259 | The digest is the root value, each word lowest byte first |
| Blake3.SubtreeFlags | crates/ondris-miner-gpu/src/blake3_ref.rs:188-249 | No compression of a subtree carries the root flag unless the subtree is the root, and then only its last one does |
| Blake3.MergeCvStack | crates/ondris-miner-gpu/src/blake3_ref.rs:201-208 | Pushing a chunk keeps one perfect subtree per set bit, and the compressions made so far are exactly those behind the stack; the pop never fails |
| Blake3.FoldStack | crates/ondris-miner-gpu/src/blake3_ref.rs:239-249 | Folding the leftover stack onto the last chunk gives the tree's root and completes its compressions |
| Blake3.HashChunk | crates/ondris-miner-gpu/src/blake3_ref.rs:156-186 | The chunk's chaining value and its compressions block by block, the empty chunk as one empty block |
| Blake3.XofFrom32Bytes | crates/ondris-miner-gpu/src/blake3_ref.rs:136-151 | Byte i is byte i mod 64 of output block i div 64, whatever the length asked for |
| Blake3Layout.KeystreamByte | crates/ondris-miner-gpu/src/blake3_ref.rs:136-151 | Byte i in numbers: word i mod 64 div 4 of the compression of the padded seed from the initial words with counter i div 64, length 32 and marks 1, 2 and 8 |
| Blake3.LastChunk | crates/ondris-miner-gpu/src/blake3_ref.rs:244-245 | What is left after the merged chunks is the last leaf of the tree |
| ChainingTree.LeftLengthIs | crates/ondris-miner-gpu/src/blake3_ref.rs:196-200 | The left subtree length is the power of two strictly below the chunk count |
| ChainingTree.StackDepth | crates/ondris-miner-gpu/src/blake3_ref.rs:196-208 | The stack has one entry per set bit of the number of chunks |
| ChainingTree.MergeStep | crates/ondris-miner-gpu/src/blake3_ref.rs:202-206 | One carry joins the top two subtrees of a level into one of the next |
| ChainingTree.FoldStep | crates/ondris-miner-gpu/src/blake3_ref.rs:246-249 | Joining the top of the stack to an unfinished right part is a left-balanced split |
| ChainingTree.PowerOfTwoCollapses | crates/ondris-miner-gpu/src/blake3_ref.rs:221-230 | Why the last chunk is held back: after a power of two of chunks the stack is one non-root subtree |
| Stream.MessagesSurviveTheWire | crates/ondris-network/src/lib.rs:223-247 | Any sequence of messages within the limit is readable from the wire it was encoded to |
| Stream.Exchange | crates/ondris-network/src/lib.rs:223-247 | End to end: messages within the limit that one end writes one by one are the messages the other end reads one by one |
| Stream.ReceiveAll | crates/ondris-network/src/lib.rs:235-247 | Any number of reads in a row returns the messages of the stream in order and leaves the rest, or fails where the stream does |
| Stream.EncryptedWriter.WriteMessage | crates/ondris-network/src/lib.rs:223-233 | The wire grows by the encrypted length prefix and body |
| Stream.MessageRoundTripIff | crates/ondris-network/src/lib.rs:223-247 | A message is read back intact if and only if it is at most 64 MiB; the writer does not check |
| Stream.WritesAreReadable | crates/ondris-network/src/noise.rs:204-215 | Any sequence of writes is readable as its concatenation, wherever the chunks were cut |
| Stream.EncodedIsReadable | crates/ondris-network/src/noise.rs:204-215 | One write followed by anything reads as its plaintext followed by the rest |
| Stream.FrameRoundTrip | crates/ondris-network/src/noise.rs:101-116 | A frame of at most 65535 bytes parses back to itself and what follows |
| Stream.FrameBytes | crates/ondris-network/src/noise.rs:101-107 | A frame on the wire: two bytes of length, high byte first, then the data |
| Stream.ParsedLength | crates/ondris-network/src/noise.rs:109-116 | The length of a frame is read high byte first |
| Stream.MessageBytes | crates/ondris-network/src/lib.rs:226-231 | A message on the stream: four bytes of length, high byte first, then the body |
| Stream.PiecesOfWrite | crates/ondris-network/src/noise.rs:204-215 | A write is cut into pieces of 65519 bytes, each encrypted under the next message number in a frame of its own |
| Stream.EncryptedWriter.WriteAll | crates/ondris-network/src/noise.rs:204-215 | The wire grows by the encoding of the plaintext, one frame per chunk |
| Stream.FramesFit | crates/ondris-network/src/noise.rs:39-41 | Every ciphertext frame of a write is at most 65535 bytes, so its 16-bit length is exact |
| Stream.EncryptedReader.ReadExact | crates/ondris-network/src/noise.rs:239-250 | Succeeds exactly when n more bytes can be decrypted, and returns the next n bytes of the stream |
| Stream.EncryptedReader.ReadFrame | crates/ondris-network/src/noise.rs:109-116 | One frame, or end of file |
| Stream.EncryptedReader.ReadMessage | crates/ondris-network/src/lib.rs:235-247 | The next message and the stream after it, or the size error |
| Difficulty.DivideBeByU64 | crates/ondris-core/src/difficulty.rs:13-22 | The byte-wise long division is exact; no quotient digit is cut |
| Difficulty.ComputeTarget | crates/ondris-core/src/difficulty.rs:8-11 | The target bytes are floor((2^256 - 1) / max(1, difficulty)), big-endian |
| Difficulty.DivisionRow | crates/ondris-core/src/difficulty.rs:16-20 | Each quotient digit fits a byte and each row keeps dividend = quotient * divisor + remainder |
| Difficulty.TargetAntitone | crates/ondris-core/src/difficulty.rs:50-56 | A higher difficulty never gives a larger target |
| Difficulty.LexIsNumeric | crates/ondris-pow/src/lib.rs:194-198 | Comparing byte arrays of one length is comparing the numbers |
| Difficulty.PowCheckMeaning | crates/ondris-pow/src/lib.rs:194-198 | The check passes exactly when hash times difficulty is below 2^256 |
| Retarget.RetargetExact | crates/ondris-core/src/difficulty.rs:27-40 | With no wrap-around the new difficulty is the clamped ratio |
| Retarget.RetargetInFull | crates/ondris-core/src/difficulty.rs:27-40 | The new difficulty in terms of block time, window and actual timespan: where the product and four times it fit 64 bits, for a product of zero, and for one beyond 64 bits |
| Retarget.OnTimeKeeps | crates/ondris-core/src/difficulty.rs:27-40 | A window that took exactly block time times window keeps every difficulty |
| Retarget.RetargetExactIff | crates/ondris-core/src/difficulty.rs:38-39 | The cast alone: the new difficulty is the clamped ratio if and only if that ratio fits in 64 bits |
| Retarget.FourfoldIff | crates/ondris-core/src/difficulty.rs:24-40 | The documented upper factor of four, wrap-arounds included: it holds for every difficulty and timespan if and only if the target timespan is at most four times the smallest clamped one; unless four times the target wraps, that is if and only if it is below four or a multiple of four |
| Retarget.QuarterIff | crates/ondris-core/src/difficulty.rs:24-40 | The documented lower factor, wrap-arounds included: it holds for every difficulty and timespan if and only if the target timespan is one second |
| Retarget.AtMostSevenfold | crates/ondris-core/src/difficulty.rs:24-40 | Unless four times the target wraps, no difficulty rises more than sevenfold |
| Retarget.SevenfoldExample | crates/ondris-core/src/difficulty.rs:33-39 | The factor seven without any wrap: target timespan 7, none taken, 1000 becomes 7000 |
| Retarget.ClampExactIff | crates/ondris-core/src/difficulty.rs:33-37 | The clamp is the documented one for every timespan if and only if four times the target timespan does not wrap |
| Retarget.NeverRisesIff | crates/ondris-core/src/difficulty.rs:24-40 | For every parent difficulty and every target timespan, wrap-arounds included: slower windows never give a higher difficulty if and only if the cast wraps equally often at the smallest and the largest clamped timespan; unless four times the target wraps, if and only if the largest ratio fits 64 bits |
| Retarget.RetargetAntitone | crates/ondris-core/src/difficulty.rs:58-69 | For two windows: where the cast wraps equally often, in particular not at all, the slower one never gives a higher difficulty |
| Retarget.RetargetBounds | crates/ondris-core/src/difficulty.rs:24-40 | For every window: at most the ratio of the smallest clamped timespan; at least a quarter if the window's own ratio fits 64 bits; unchanged if the window took exactly its target time and the upper clamp did not wrap below it |
| Retarget.RetargetWrapExample | crates/ondris-core/src/difficulty.rs:38-39 | The 64-bit cast turns the order around: at difficulty 2^62 and target timespan 4, the window of 0 seconds drops it to 1 and the window of 4 seconds keeps it |
| Merkle.MerkleRoot | crates/ondris-core/src/block.rs:14-38 | The level loop computes the tree defined from its root downwards |
| MerkleLevels.RootStep | crates/ondris-core/src/block.rs:14-38 | The root step by step: nothing is zero, one hash is itself, neighbours are hashed left then right, a last one left over with itself |
| Merkle.RootFixesList | crates/ondris-core/src/block.rs:12-38 | Unless the pair hash collides inside the two trees, equal roots of equally long lists mean equal lists |
| MerkleLevels.PaddedKeepsRoot | crates/ondris-core/src/block.rs:21-34 | Whatever the hash: for every list of m * 2^k hashes, m odd and at least 3, repeating its last 2^k keeps the root |
| MerkleLevels.LowBitIs | crates/ondris-core/src/block.rs:21-34 | How many are repeated: 2^k for m * 2^k with m odd |
| MerkleLevels.RootFixesPowerOfTwo | crates/ondris-core/src/block.rs:21-34 | The other side: an empty list, or a power of two of different hashes, shares its root with no other list of any length, unless hashes collide in the two trees |
| MerkleLevels.SameDistance | crates/ondris-core/src/block.rs:21-34 | Equal nodes of two trees, also of different depth, are equally far above the leaves, unless hashes collide |
| MerkleLevels.PaddedHashed | crates/ondris-core/src/block.rs:21-34 | Repeating those hashes hashes nothing that was not hashed before |
| Merkle.EqualNodesEqualLeaves | crates/ondris-core/src/block.rs:21-34 | Unless the pair hash collides inside the two trees, equal nodes have equal leaves below them |
| OndrisHash.HashWithAccesses | crates/ondris-pow/src/lib.rs:147-192 | The in-place byte mixing computes the fold over 32 words, for every access count and every dataset with an item |
| OndrisHash.HashRawDataset | crates/ondris-miner-gpu/src/ondris_hash_ref.rs:27-68 | The second copy computes the same fold, so both copies agree |
| OndrisHash.FnvLaw | crates/ondris-pow/src/lib.rs:47-49 | Multiply by 0x01000193 first, then xor |
| OndrisHash.PickLaw | crates/ondris-pow/src/lib.rs:165-168 | The item of an access: seed word xor number of the access, mixed with a word of the mix, modulo the number of items |
| OndrisHash.ItemLaw | crates/ondris-pow/src/lib.rs:132-136 | Items of 128 bytes, words at every fourth byte |
| OndrisHash.MixLaw | crates/ondris-pow/src/lib.rs:165-172 | One access: word i mod 32 of the mix picks the item, and every word is mixed with the item's word in its place |
| OndrisHash.FoldLaw | crates/ondris-pow/src/lib.rs:178-186 | The fold of four words, left to right |
| OndrisHash.FoldedWord | crates/ondris-pow/src/lib.rs:178-186 | The eight folded words in their order, four bytes each |
| OndrisHash.WordLaw | crates/ondris-pow/src/lib.rs:51-53 | Four bytes are one word, lowest byte first |
| OndrisHash.MixItem | crates/ondris-pow/src/lib.rs:169-172 | Overwriting word after word in place combines old words with item words |
| OndrisHash.OverwriteWord | crates/ondris-pow/src/lib.rs:51-57 | A word written at its place reads back and leaves the other words alone |
| OndrisHash.Compress | crates/ondris-pow/src/lib.rs:178-186 | The mix is folded four words at a time |

## Left out

- Balances.BalancesAreReplay: stated under `SupplyFits`, one way. Block by block the condition is an equivalence (`Ledger.RoomIsExact`); over a run it is not, since a loss by saturation can be hidden by a later clamp at zero, and is hidden as long as no block is undone; `Examples.FullSupplyLosesSync` is a run in which it shows.
- NodeModule.Node.AcceptAndBroadcast: outcomes of concurrent calls interleave in the program, because handling runs outside the write lock; the model takes one call as one step.
- ChainModule.Chain.Open: the database is a set of maps; serialisation, flushing and a crash between two writes are not modelled; what a half-written database without a tip record becomes is stated.
- Heights, nonces and summed work are unbounded naturals; `BlockTree.WorkFits` shows that the work fits its 128 bits.
- The genesis hash is a field of the configuration rather than the hash of the network name and timestamp.
- The dataset behind a proof of work is represented by its seed; its generation is not modelled.
- The BLAKE3 rounds, Ed25519, the Noise handshake, ChaCha20-Poly1305 and the wallet keystore are given functions or absent.
- The two walks that level the heights in `fork_paths` are one method here, called twice; the loops of `reconsider_tip` are methods of `Simulation`.
- JSON encoding of messages: a message is its byte string. Errors of the encrypting side are not modelled.
- After a failed read the connection is dropped; nothing is claimed about later reads.
- The OpenCL kernel and host code, the mining loops, the RPC layer, peer management, the website, and hex or address formatting.
