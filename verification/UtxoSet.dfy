/** The mutable UTXO set, proved against the specification in `Utxo`. */
module UtxoSets {
  import opened Prelude
  import opened Types
  import opened Utxo

  class UtxoSet {
    var entries: UtxoMap

    constructor ()
      ensures entries == map[]
    {
      entries := map[];
    }

    /** Checks one transaction against the set and returns its fee, without changing anything. */
    method ValidateTransaction(w: World, p: Params, tx: Transaction, tipHeight: nat) returns (r: Result<u64, UtxoError>)
      ensures r == ValidateTx(w, p, entries, tx, tipHeight)
    {
      var seen: set<OutPoint> := {};
      var inputSum: u64 := 0;
      var sigHash := w.SignatureHash(tx);
      var k := 0;
      while k < |tx.inputs|
        invariant 0 <= k <= |tx.inputs|
        invariant CheckInputs(w, p, entries, tx.inputs[k..], sigHash, tipHeight, Claim(seen, inputSum))
               == CheckInputs(w, p, entries, tx.inputs, sigHash, tipHeight, Claim({}, 0))
      {
        var input := tx.inputs[k];
        if input.prev in seen { return Err(DuplicateInput); }
        seen := seen + {input.prev};
        if input.prev !in entries { return Err(MissingInput); }
        var entry := entries[input.prev];
        if entry.coinbase && tipHeight < SatAdd(entry.createdHeight, p.maturity) { return Err(ImmatureCoinbaseSpend); }
        if !w.execute(input.sigScript, entry.output.script, sigHash, tipHeight) { return Err(InvalidSignature); }
        inputSum := SatAdd(inputSum, entry.output.value);
        k := k + 1;
      }
      var outputSum := OutputSum(tx.outputs);
      if outputSum > inputSum { return Err(OutputExceedsInput); }
      return Ok(inputSum - outputSum);
    }

    /** Claims one block transaction's inputs on top of those the block has spent so far. */
    method ClaimInputs(w: World, p: Params, tx: Transaction, height: nat, spent: set<OutPoint>)
      returns (r: Result<Claim, UtxoError>)
      ensures r == CheckInputs(w, p, entries, tx.inputs, w.SignatureHash(tx), height, Claim(spent, 0))
    {
      var sigHash := w.SignatureHash(tx);
      var seen := spent;
      var inputSum: u64 := 0;
      var k := 0;
      while k < |tx.inputs|
        invariant 0 <= k <= |tx.inputs|
        invariant CheckInputs(w, p, entries, tx.inputs[k..], sigHash, height, Claim(seen, inputSum))
               == CheckInputs(w, p, entries, tx.inputs, sigHash, height, Claim(spent, 0))
      {
        var input := tx.inputs[k];
        assert tx.inputs[k..][0] == input && tx.inputs[k..][1..] == tx.inputs[k + 1..];
        if input.prev in seen { return Err(DuplicateInput); }
        if input.prev !in entries { return Err(MissingInput); }
        var entry := entries[input.prev];
        if entry.coinbase && height < SatAdd(entry.createdHeight, p.maturity) { return Err(ImmatureCoinbaseSpend); }
        if !w.execute(input.sigScript, entry.output.script, sigHash, height) { return Err(InvalidSignature); }
        seen := seen + {input.prev};
        inputSum := SatAdd(inputSum, entry.output.value);
        k := k + 1;
      }
      return Ok(Claim(seen, inputSum));
    }

    /** Phase 1: every non-coinbase transaction, with one `seen` set for the whole block. */
    method CheckTransactions(w: World, p: Params, b: Block) returns (r: Result<u64, UtxoError>)
      requires b.txs != []
      ensures var c := CheckTxs(w, p, entries, b.txs[1..], b.header.height, Claim({}, 0));
              if c.Ok? then r == Ok(c.value.sum) else r == Err(c.error)
    {
      hide CheckInputs;
      var height := b.header.height;
      var seen: set<OutPoint> := {};
      var totalFees: u64 := 0;
      ghost var goal := CheckTxs(w, p, entries, b.txs[1..], height, Claim({}, 0));
      var n := 1;
      while n < |b.txs|
        invariant 1 <= n <= |b.txs|
        invariant CheckTxs(w, p, entries, b.txs[n..], height, Claim(seen, totalFees)) == goal
      {
        var tx := b.txs[n];
        assert b.txs[n..][0] == tx && b.txs[n..][1..] == b.txs[n + 1..];
        var claimed := ClaimInputs(w, p, tx, height, seen);
        if claimed.Err? { return Err(claimed.error); }
        var outputSum := OutputSum(tx.outputs);
        if outputSum > claimed.value.sum { return Err(OutputExceedsInput); }
        seen := claimed.value.seen;
        totalFees := SatAdd(totalFees, claimed.value.sum - outputSum);
        n := n + 1;
      }
      return Ok(totalFees);
    }

    /** Phase 3, spending: removes every outpoint claimed by a non-coinbase transaction. */
    method SpendInputs(b: Block)
      requires b.txs != []
      modifies this
      ensures entries == old(entries) - SpentBy(b.txs[1..])
    {
      var n := 1;
      while n < |b.txs|
        invariant 1 <= n <= |b.txs|
        invariant entries == old(entries) - SpentBy(b.txs[1..n])
      {
        var tx := b.txs[n];
        ghost var before := entries;
        var k := 0;
        while k < |tx.inputs|
          invariant 0 <= k <= |tx.inputs|
          invariant entries == before - InputSet(tx.inputs[..k])
        {
          InputSetSnoc(tx.inputs[..k], tx.inputs[k]);
          assert tx.inputs[..k + 1] == tx.inputs[..k] + [tx.inputs[k]];
          entries := entries - {tx.inputs[k].prev};
          k := k + 1;
        }
        assert tx.inputs[..k] == tx.inputs;
        SpentBySnoc(b.txs[1..n], tx);
        assert b.txs[1..n + 1] == b.txs[1..n] + [tx];
        n := n + 1;
      }
      assert b.txs[1..n] == b.txs[1..];
    }

    /** Phase 3, creating: inserts every output that is not an OP_RETURN data carrier. */
    method CreateOutputs(b: Block)
      modifies this
      ensures entries == AddTxs(old(entries), b.txs, b.header.height)
    {
      var n := 0;
      while n < |b.txs|
        invariant 0 <= n <= |b.txs|
        invariant entries == AddTxs(old(entries), b.txs[..n], b.header.height)
      {
        var tx := b.txs[n];
        ghost var before := entries;
        var index := 0;
        while index < |tx.outputs|
          invariant 0 <= index <= |tx.outputs|
          invariant entries == AddOutputs(before, tx, b.header.height, index)
        {
          var output := tx.outputs[index];
          if !IsOpReturn(output.script) {
            entries := entries[OutPoint(tx.id, index) := UtxoEntry(output, b.header.height, tx.IsCoinbase())];
          }
          index := index + 1;
        }
        assert b.txs[..n + 1][..n] == b.txs[..n];
        n := n + 1;
      }
      assert b.txs[..n] == b.txs;
    }

    /** Applies a block to the set, or reports the first error and changes nothing. */
    method ApplyBlock(w: World, p: Params, b: Block) returns (r: Result<(), UtxoError>)
      modifies this
      ensures var spec := Utxo.ApplyBlock(w, p, old(entries), b);
              if spec.Ok? then r == Ok(()) && entries == spec.value else r == Err(spec.error) && entries == old(entries)
    {
      if b.txs == [] { return Err(MissingCoinbase); }
      var checked := CheckTransactions(w, p, b);
      match checked {
        case Err(e) => return Err(e);
        case Ok(totalFees) =>
          if OutputSum(b.txs[0].outputs) > MaxCoinbase(p, b.header.height, totalFees) {
            return Err(CoinbaseOutputTooHigh);
          }
          SpendInputs(b);
          CreateOutputs(b);
          return Ok(());
      }
    }
  }
}
