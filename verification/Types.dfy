/** Blocks, transactions, consensus parameters, and the functions this model leaves uninterpreted. */
module Types {
  import opened Prelude

  /** A 256-bit digest, read as a number. */
  type Hash256 = nat
  const ZERO: Hash256 := 0

  /** A block hash; no header is assumed to hash to the zero digest. */
  type BlockId = h: Hash256 | h != ZERO witness 1

  type Bytes = seq<u8>
  type Script = Bytes

  datatype OutPoint = OutPoint(txid: Hash256, index: nat)

  datatype TxInput = TxInput(prev: OutPoint, sigScript: Script)

  datatype TxOutput = TxOutput(value: u64, script: Script)

  datatype Transaction = Transaction(id: Hash256, inputs: seq<TxInput>, outputs: seq<TxOutput>, payload: Bytes) {
    predicate IsCoinbase() { inputs == [] && COINBASE_TAG <= payload }
  }

  datatype BlockHeader = BlockHeader(version: nat, chainId: string, height: nat, prev: Hash256,
                                     merkleRoot: Hash256, timestamp: nat, bits: u8, nonce: nat)

  datatype Block = Block(header: BlockHeader, txs: seq<Transaction>)

  /** Blocks from genesis on. */
  type Chain = seq<Block>

  /** The bytes of "coinbase:". */
  const COINBASE_TAG: Bytes := [99, 111, 105, 110, 98, 97, 115, 101, 58]
  const OP_RETURN: u8 := 0x6a

  predicate IsOpReturn(s: Script) { s != [] && s[0] == OP_RETURN }

  function OutputSum(outs: seq<TxOutput>): u64
  {
    if outs == [] then 0 else SatAdd(OutputSum(outs[..|outs| - 1]), outs[|outs| - 1].value)
  }

  /** Functions the model does not interpret: hashing, proof of work, script execution,
      the printed coinbase note, addresses, and text repair. */
  datatype World = World(
    headerHash: BlockHeader -> BlockId,
    merkleOfIds: seq<Hash256> -> Hash256,
    txHash: (seq<TxInput>, seq<TxOutput>, Bytes) -> Hash256,
    meetsWork: (BlockHeader, Hash256) -> bool,
    execute: (Script, Script, Hash256, nat) -> bool,
    coinbaseNote: (nat, u64, string) -> Bytes,
    p2pkh: string -> Option<Script>,
    extractAddress: Script -> Option<string>,
    utf8Lossy: Bytes -> Bytes)
  {
    function BlockHash(b: Block): BlockId { headerHash(b.header) }

    function SignatureHash(tx: Transaction): Hash256 {
      txHash(seq(|tx.inputs|, i requires 0 <= i < |tx.inputs| => TxInput(tx.inputs[i].prev, [])), tx.outputs,
             tx.payload)
    }

    function MerkleRoot(txs: seq<Transaction>): Hash256 {
      if txs == [] then ZERO
      else merkleOfIds(seq(|txs|, i requires 0 <= i < |txs| => txs[i].id))
    }

    /** Pay-to-address scripts are never data carriers. */
    ghost predicate PayScriptsCarryNoData() {
      forall a :: p2pkh(a).Some? ==> !IsOpReturn(p2pkh(a).value)
    }

    /** The address can be paid, and its script reads back as it. */
    predicate Payable(addr: string) {
      p2pkh(addr).Some? && extractAddress(p2pkh(addr).value) == Some(addr)
    }

    /** A script accepted at one height stays accepted at every later one. */
    ghost predicate ScriptsMonotone() {
      forall sig, spk, h, a: nat, b: nat :: a <= b && execute(sig, spk, h, a) ==> execute(sig, spk, h, b)
    }
  }

  datatype Params = Params(
    chainId: string,
    targetBlockSeconds: nat,
    halvingInterval: pos,
    maxEras: nat,
    miningAllocation: u64,
    founderAllocation: u64,
    genesisAllocations: seq<(string, u64)>,
    founderAddress: string,
    initialReward: u64,
    initialBits: u8,
    minBits: u8,
    maxBits: u8,
    window: nat,
    activation: u64,
    maturity: nat,
    maxFuture: nat)
  {
    /** What the source's arithmetic needs: shifts within the word and an ordered clamp range. */
    predicate WellFormed() {
      && maxEras <= 64
      && minBits <= initialBits <= maxBits < 128
      && AllocationSum(genesisAllocations) <= U64_MAX
    }

    function Premint(): nat {
      if genesisAllocations != [] then AllocationSum(genesisAllocations) else founderAllocation
    }

    predicate HasPremint() { genesisAllocations != [] || founderAddress != "" }
  }

  function AllocationSum(allocs: seq<(string, u64)>): nat {
    if allocs == [] then 0 else AllocationSum(allocs[..|allocs| - 1]) + allocs[|allocs| - 1].1
  }

  const COIN: u64 := 100_000_000

  const MAINNET: Params := Params(
    "tensorium-mainnet", 60, 2_102_400, 10, 33_000_000 * COIN, 0, [], "",
    785_584_523, 42, 34, 58, 60, 2, 10, 7_200)

  const TESTNET: Params := Params(
    "tensorium-testnet-0", 60, 1_051_200, 10, 32_000_000 * COIN, 1_000_000 * COIN, [], "",
    1_523_557_865, 20, 8, 36, 60, U64_MAX, 10, 7_200)
}
