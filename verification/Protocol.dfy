/** Transactions, blocks, the genesis configuration, and what the cryptography
    computes: hashing, signatures and key-to-address derivation are given
    functions, so every theorem holds whatever they return. */
module Protocol {
  import opened Primitives

  datatype Transaction = Transaction(
    from: PublicKey, to: Address, amount: U64, fee: U64, accountNonce: nat, signature: Option<seq<Byte>>)

  datatype Header = Header(
    height: nat, prevHash: Hash256, txRoot: Hash256, timestamp: U64, difficulty: U64, miner: Address, nonce: U64)

  datatype Block = Block(header: Header, transactions: seq<Transaction>)

  /** A block together with the hash it is stored under. */
  datatype Entry = Entry(hash: Hash256, block: Block)

  datatype Genesis = Genesis(
    hash: Hash256, timestamp: U64, initialDifficulty: U64, initialReward: U64, halvingInterval: U64,
    targetBlockTime: U64, retargetWindow: U64, premine: seq<(Address, U64)>)

  datatype Params = Params(
    genesis: Genesis,
    addressOf: PublicKey -> Address,
    txHash: Transaction -> Hash256,
    signatureValid: Transaction -> bool,
    pairHash: (Hash256, Hash256) -> Hash256,
    epochSeed: Option<Hash256> -> Hash256,
    powHash: (Header, Hash256) -> Hash256)
  {
    function HalvingInterval(): (n: nat)
      ensures n >= 1
    {
      Max(genesis.halvingInterval, 1)
    }

    function RetargetWindow(): (w: U64)
      ensures w >= 1
    {
      Max(genesis.retargetWindow, 1)
    }

    function TxHashes(txs: seq<Transaction>): seq<Hash256> {
      seq(|txs|, i requires 0 <= i < |txs| => txHash(txs[i]))
    }

    function BlockReward(height: nat): U64 {
      RewardOfEra(height / HalvingInterval())
    }

    function RewardOfEra(halvings: nat): U64 {
      if halvings >= 64 then 0 else ShiftRight(genesis.initialReward, halvings)
    }
  }

  datatype ChainError =
    | SecondGenesis
    | EpochBoundaryNotFound(height: nat)
    | InvalidTxRoot
    | ProofOfWorkTooWeak
    | InvalidSignature
    | WrongHeight
    | WrongDifficulty(got: U64, expected: U64)
    | NotEnoughAncestors
    | NotInitialized
    | MissingChainwork(hash: Hash256)
    | MissingBlock(hash: Hash256)
    | MissingHeight(wanted: int)
    | InvalidTxNonce(hash: Hash256, height: nat)
    | InsufficientBalance(hash: Hash256, height: nat)

  datatype SubmitOutcome =
    | Accepted(hash: Hash256, height: nat, reorged: bool, requeue: seq<Transaction>)
    | SideBranch(hash: Hash256, height: nat)
    | AlreadyKnown
    | Orphan(missingParent: Hash256)
}
