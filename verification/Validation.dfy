/** Header and coinbase-shape rules, and the assembly of candidate blocks that meet them. */
module Validation {
  import opened Prelude
  import opened Types
  import opened Emission
  import opened Utxo

  datatype ValidationError =
    | WrongChainId
    | WrongHeight
    | WrongPreviousHash
    | FutureTimestamp
    | InvalidMerkleRoot
    | InvalidProofOfWork
    | UnexpectedDifficulty
    | MissingCoinbaseTx
    | FirstTransactionNotCoinbase

  /** The first rule `b` breaks as a child of `parent`, if any. */
  function ValidateBlock(w: World, p: Params, parent: Option<Block>, b: Block, now: nat, bits: u8, seed: Hash256)
    : Option<ValidationError>
  {
    var h := b.header;
    if h.chainId != p.chainId then Some(WrongChainId)
    else if h.height != (if parent.Some? then parent.value.header.height + 1 else 0) then Some(WrongHeight)
    else if parent.Some? && h.prev != w.BlockHash(parent.value) then Some(WrongPreviousHash)
    else if h.timestamp > now + p.maxFuture then Some(FutureTimestamp)
    else if h.merkleRoot != w.MerkleRoot(b.txs) then Some(InvalidMerkleRoot)
    else if h.bits != bits then Some(UnexpectedDifficulty)
    else if !w.meetsWork(h, seed) then Some(InvalidProofOfWork)
    else if b.txs == [] then Some(MissingCoinbaseTx)
    else if !b.txs[0].IsCoinbase() then Some(FirstTransactionNotCoinbase)
    else None
  }

  // ---- Candidate blocks -----------------------------------------------------

  function AddressScript(w: World, addr: string): Script {
    match w.p2pkh(addr) case Some(s) => s case None => []
  }

  function CoinbasePayload(w: World, height: nat, reward: u64, miner: string): Bytes {
    COINBASE_TAG + w.coinbaseNote(height, reward, miner)
  }

  function NewTransaction(w: World, inputs: seq<TxInput>, outputs: seq<TxOutput>, payload: Bytes): Transaction {
    Transaction(w.txHash(inputs, outputs, payload), inputs, outputs, payload)
  }

  function PayTo(w: World, atoms: u64, addr: string): seq<TxOutput> {
    if atoms == 0 then [] else [TxOutput(atoms, AddressScript(w, addr))]
  }

  function CoinbaseTx(w: World, height: nat, reward: u64, miner: string): Transaction {
    NewTransaction(w, [], PayTo(w, reward, miner), CoinbasePayload(w, height, reward, miner))
  }

  function AllocationOutputs(w: World, allocs: seq<(string, u64)>): seq<TxOutput> {
    if allocs == [] then []
    else
      var (addr, atoms) := allocs[|allocs| - 1];
      AllocationOutputs(w, allocs[..|allocs| - 1]) + PayTo(w, atoms, addr)
  }

  function PremintOutputs(w: World, p: Params): seq<TxOutput> {
    if p.genesisAllocations != [] then AllocationOutputs(w, p.genesisAllocations)
    else if p.founderAddress != "" then PayTo(w, p.founderAllocation, p.founderAddress)
    else []
  }

  function GenesisCoinbaseTx(w: World, p: Params, reward: u64, miner: string): Transaction {
    NewTransaction(w, [], PayTo(w, reward, miner) + PremintOutputs(w, p), CoinbasePayload(w, 0, reward, miner))
  }

  /** A block on top of `parent` that credits the subsidy and `fees` to `miner`. */
  function Candidate(w: World, p: Params, parent: Option<Block>, timestamp: nat, miner: string,
                     extra: seq<Transaction>, fees: u64): Block
  {
    var height := if parent.Some? then parent.value.header.height + 1 else 0;
    var prev := if parent.Some? then w.BlockHash(parent.value) else ZERO;
    var reward := SatAdd(Reward(p, height), fees);
    var coinbase :=
      if height == 0 && p.HasPremint() then GenesisCoinbaseTx(w, p, reward, miner)
      else CoinbaseTx(w, height, reward, miner);
    var txs := [coinbase] + extra;
    Block(BlockHeader(1, p.chainId, height, prev, w.MerkleRoot(txs), timestamp, p.initialBits, 0), txs)
  }

  lemma {:induction false} OutputSumConcat(a: seq<TxOutput>, b: seq<TxOutput>)
    ensures OutputSum(a + b) == SatAdd(OutputSum(a), OutputSum(b))
  {
    if b == [] {
      assert a + b == a;
    } else {
      OutputSumConcat(a, b[..|b| - 1]);
      assert (a + b)[..|a + b| - 1] == a + b[..|b| - 1];
    }
  }

  lemma {:induction false} AllocationOutputsSum(w: World, allocs: seq<(string, u64)>)
    ensures OutputSum(AllocationOutputs(w, allocs)) == Min(AllocationSum(allocs), U64_MAX)
  {
    if allocs != [] {
      var n := |allocs| - 1;
      AllocationOutputsSum(w, allocs[..n]);
      OutputSumConcat(AllocationOutputs(w, allocs[..n]), PayTo(w, allocs[n].1, allocs[n].0));
    }
  }

  lemma GenesisCoinbaseSum(w: World, p: Params, reward: u64, miner: string)
    requires p.WellFormed()
    ensures OutputSum(GenesisCoinbaseTx(w, p, reward, miner).outputs) <= SatAdd(reward, p.Premint())
  {
    AllocationOutputsSum(w, p.genesisAllocations);
    assert OutputSum(PremintOutputs(w, p)) <= p.Premint();
    assert OutputSum(PayTo(w, reward, miner)) == reward;
    OutputSumConcat(PayTo(w, reward, miner), PremintOutputs(w, p));
  }

  lemma CandidateCoinbase(w: World, p: Params, parent: Option<Block>, timestamp: nat, miner: string,
                          extra: seq<Transaction>, fees: u64)
    requires p.WellFormed()
    ensures var b := Candidate(w, p, parent, timestamp, miner, extra, fees);
            b.txs[0].IsCoinbase() && OutputSum(b.txs[0].outputs) <= MaxCoinbase(p, b.header.height, fees)
  {
    var height := if parent.Some? then parent.value.header.height + 1 else 0;
    var reward := SatAdd(Reward(p, height), fees);
    if height == 0 && p.HasPremint() {
      GenesisCoinbaseSum(w, p, reward, miner);
    } else {
      assert OutputSum(CoinbaseTx(w, height, reward, miner).outputs) == reward;
    }
  }

  /** A candidate whose extra transactions check with exactly the credited fees is accepted by block application. */
  lemma CandidateApplies(w: World, p: Params, m: UtxoMap, parent: Option<Block>, timestamp: nat, miner: string,
                         extra: seq<Transaction>, fees: u64)
    requires p.WellFormed()
    requires var b := Candidate(w, p, parent, timestamp, miner, extra, fees);
             var c := CheckTxs(w, p, m, extra, b.header.height, Claim({}, 0));
             c.Ok? && c.value.sum == fees
    ensures ApplyBlock(w, p, m, Candidate(w, p, parent, timestamp, miner, extra, fees)).Ok?
  {
    var b := Candidate(w, p, parent, timestamp, miner, extra, fees);
    assert b.txs[1..] == extra;
    CandidateCoinbase(w, p, parent, timestamp, miner, extra, fees);
  }

  // ---- What a candidate pays ------------------------------------------------

  /** The script an address is paid by: empty when it cannot be decoded. */
  predicate PaysTo(w: World, o: TxOutput, atoms: u64, addr: string) {
    o.value == atoms && o.script == (match w.p2pkh(addr) case Some(s) => s case None => [])
  }

  /** The outputs pay the whole amount to the address, in one output, or nothing when there is nothing to pay. */
  predicate PaysAll(w: World, outs: seq<TxOutput>, atoms: u64, addr: string) {
    if atoms == 0 then outs == [] else |outs| == 1 && PaysTo(w, outs[0], atoms, addr)
  }

  /** The outputs pay exactly the allocations that are not zero, in order. */
  predicate PaysAllocations(w: World, outs: seq<TxOutput>, allocs: seq<(string, u64)>) {
    if allocs == [] then outs == []
    else if allocs[0].1 == 0 then PaysAllocations(w, outs, allocs[1..])
    else outs != [] && PaysTo(w, outs[0], allocs[0].1, allocs[0].0) && PaysAllocations(w, outs[1..], allocs[1..])
  }

  /** The fields of a block on `parent` that hold the given transactions behind a coinbase. */
  ghost predicate Frames(w: World, p: Params, b: Block, parent: Option<Block>, timestamp: nat, extra: seq<Transaction>)
  {
    && b.header.version == 1 && b.header.chainId == p.chainId && b.header.timestamp == timestamp
    && b.header.height == (if parent.Some? then parent.value.header.height + 1 else 0)
    && b.header.prev == (if parent.Some? then w.BlockHash(parent.value) else ZERO)
    && b.header.merkleRoot == w.MerkleRoot(b.txs)
    && b.txs != [] && b.txs[0].IsCoinbase() && b.txs[1..] == extra
    && b.txs[0].id == w.txHash([], b.txs[0].outputs, b.txs[0].payload)
  }

  /** Above genesis a candidate pays subsidy and fees, all of them and nothing else, to its miner. */
  lemma CandidatePays(w: World, p: Params, parent: Option<Block>, timestamp: nat, miner: string,
                      extra: seq<Transaction>, fees: u64)
    ensures var b := Candidate(w, p, parent, timestamp, miner, extra, fees);
            && Frames(w, p, b, parent, timestamp, extra)
            && b.txs[0].payload
            == COINBASE_TAG + w.coinbaseNote(b.header.height, SatAdd(Reward(p, b.header.height), fees), miner)
            && (b.header.height > 0 || !p.HasPremint() ==>
                  PaysAll(w, b.txs[0].outputs, SatAdd(Reward(p, b.header.height), fees), miner))
  {
    hide Reward, SatAdd;
  }

  /** At genesis with a premint it pays the miner, and then exactly the allocations, or else the founder. */
  lemma GenesisPays(w: World, p: Params, timestamp: nat, miner: string, extra: seq<Transaction>, fees: u64)
    requires p.HasPremint()
    ensures var b := Candidate(w, p, None, timestamp, miner, extra, fees);
            var reward := SatAdd(Reward(p, 0), fees);
            var n := if reward == 0 then 0 else 1;
            && b.txs != [] && n <= |b.txs[0].outputs|
            && var outs := b.txs[0].outputs;
               && PaysAll(w, outs[..n], reward, miner)
               && if p.genesisAllocations != [] then PaysAllocations(w, outs[n..], p.genesisAllocations)
                  else PaysAll(w, outs[n..], p.founderAllocation, p.founderAddress)
  {
    AllocationsPaid(w, p.genesisAllocations);
    hide Reward, SatAdd, AllocationOutputs, PaysAllocations;
    var b := Candidate(w, p, None, timestamp, miner, extra, fees);
    var first := PayTo(w, SatAdd(Reward(p, 0), fees), miner);
    assert b.txs[0].outputs == first + PremintOutputs(w, p);
  }

  lemma {:induction false} NextAllocation(w: World, outs: seq<TxOutput>, allocs: seq<(string, u64)>,
                                          last: (string, u64))
    requires PaysAllocations(w, outs, allocs)
    ensures PaysAllocations(w, outs + PayTo(w, last.1, last.0), allocs + [last])
    decreases |allocs|
  {
    var paid := PayTo(w, last.1, last.0);
    if allocs == [] {
      assert outs + paid == paid && allocs + [last] == [last] && [last][1..] == [];
      assert paid != [] ==> paid[1..] == [];
    } else {
      assert (allocs + [last])[0] == allocs[0] && (allocs + [last])[1..] == allocs[1..] + [last];
      if allocs[0].1 == 0 {
        NextAllocation(w, outs, allocs[1..], last);
      } else {
        assert (outs + paid)[1..] == outs[1..] + paid;
        NextAllocation(w, outs[1..], allocs[1..], last);
      }
    }
  }

  lemma {:induction false} AllocationsPaid(w: World, allocs: seq<(string, u64)>)
    ensures PaysAllocations(w, AllocationOutputs(w, allocs), allocs)
  {
    if allocs != [] {
      var n := |allocs| - 1;
      AllocationsPaid(w, allocs[..n]);
      NextAllocation(w, AllocationOutputs(w, allocs[..n]), allocs[..n], allocs[n]);
      assert allocs[..n] + [allocs[n]] == allocs;
    }
  }
}
