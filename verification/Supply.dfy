/** Conservation of value: the unspent total never exceeds what the schedule and the premint issued,
    and therefore no saturating addition of block application ever saturates. */
module Supply {
  import opened Prelude
  import opened Types
  import opened Emission
  import opened Utxo

  // ---- The unspent total ----------------------------------------------------

  ghost function Total(m: UtxoMap): nat
  {
    if m == map[] then 0 else var k :| k in m; m[k].output.value + Total(m - {k})
  }

  lemma {:induction false} TotalPick(m: UtxoMap, k: OutPoint)
    requires k in m
    ensures Total(m) == m[k].output.value + Total(m - {k})
    decreases |m|
  {
    var j :| j in m && Total(m) == m[j].output.value + Total(m - {j});
    if j != k {
      SizeLess(m, j);
      SizeLess(m, k);
      TotalPick(m - {j}, k);
      TotalPick(m - {k}, j);
      assert m - {j} - {k} == m - {k} - {j};
    }
  }

  lemma SizeLess(m: UtxoMap, k: OutPoint)
    requires k in m
    ensures |m - {k}| < |m|
  {
    assert m == (m - {k})[k := m[k]];
  }

  lemma TotalPut(m: UtxoMap, k: OutPoint, e: UtxoEntry)
    ensures Total(m[k := e]) + (if k in m then m[k].output.value else 0) == Total(m) + e.output.value
  {
    TotalPick(m[k := e], k);
    assert m[k := e] - {k} == m - {k};
    if k in m { TotalPick(m, k); } else { assert m - {k} == m; }
  }

  // ---- Block application in unbounded arithmetic ----------------------------

  datatype ExactClaim = ExactClaim(seen: set<OutPoint>, sum: nat)

  function ExactOutputSum(outs: seq<TxOutput>): nat
  {
    if outs == [] then 0 else ExactOutputSum(outs[..|outs| - 1]) + outs[|outs| - 1].value
  }

  function ExactInputs(w: World, p: Params, m: UtxoMap, inputs: seq<TxInput>, sigHash: Hash256, height: nat,
                       acc: ExactClaim)
    : Result<ExactClaim, UtxoError>
  {
    if inputs == [] then Ok(acc)
    else
      match CheckInput(w, p, m, inputs[0], sigHash, height, acc.seen)
      case Some(e) => Err(e)
      case None =>
        ExactInputs(w, p, m, inputs[1..], sigHash, height,
                    ExactClaim(acc.seen + {inputs[0].prev}, acc.sum + m[inputs[0].prev].output.value))
  }

  function ExactTx(w: World, p: Params, m: UtxoMap, tx: Transaction, height: nat, seen: set<OutPoint>)
    : Result<ExactClaim, UtxoError>
  {
    match ExactInputs(w, p, m, tx.inputs, w.SignatureHash(tx), height, ExactClaim(seen, 0))
    case Err(e) => Err(e)
    case Ok(c) =>
      if ExactOutputSum(tx.outputs) > c.sum then Err(OutputExceedsInput)
      else Ok(ExactClaim(c.seen, c.sum - ExactOutputSum(tx.outputs)))
  }

  function ExactTxs(w: World, p: Params, m: UtxoMap, txs: seq<Transaction>, height: nat, acc: ExactClaim)
    : Result<ExactClaim, UtxoError>
  {
    if txs == [] then Ok(acc)
    else
      match ExactTx(w, p, m, txs[0], height, acc.seen)
      case Err(e) => Err(e)
      case Ok(c) => ExactTxs(w, p, m, txs[1..], height, ExactClaim(c.seen, acc.sum + c.sum))
  }

  /** What height `h` may issue: its subsidy, and at height 0 the premint. */
  function Issued(p: Params, h: nat): nat { Reward(p, h) + if h == 0 && p.HasPremint() then p.Premint() else 0 }

  function ExactApply(w: World, p: Params, m: UtxoMap, b: Block): Result<UtxoMap, UtxoError>
  {
    if b.txs == [] then Err(MissingCoinbase)
    else
      match ExactTxs(w, p, m, b.txs[1..], b.header.height, ExactClaim({}, 0))
      case Err(e) => Err(e)
      case Ok(c) =>
        if ExactOutputSum(b.txs[0].outputs) > Issued(p, b.header.height) + c.sum then Err(CoinbaseOutputTooHigh)
        else Ok(Effect(m, b))
  }

  function ExactReplay(w: World, p: Params, chain: Chain): Result<UtxoMap, UtxoError>
  {
    if chain == [] then Ok(map[])
    else
      match ExactReplay(w, p, chain[..|chain| - 1])
      case Err(e) => Err(e)
      case Ok(m) => ExactApply(w, p, m, chain[|chain| - 1])
  }

  // ---- Conservation through one block ---------------------------------------

  lemma {:induction false} SaturatedOutputSum(outs: seq<TxOutput>)
    ensures OutputSum(outs) == Min(ExactOutputSum(outs), U64_MAX)
  {
    if outs != [] { SaturatedOutputSum(outs[..|outs| - 1]); }
  }

  /** Claimed value plus unclaimed value is constant, and the saturating sum is exact. */
  lemma {:induction false} InputsConserve(w: World, p: Params, m: UtxoMap, inputs: seq<TxInput>, sigHash: Hash256,
                                          height: nat, acc: Claim)
    requires acc.sum + Total(m - acc.seen) <= U64_MAX
    ensures var x := ExactInputs(w, p, m, inputs, sigHash, height, ExactClaim(acc.seen, acc.sum));
            var c := CheckInputs(w, p, m, inputs, sigHash, height, acc);
            if x.Err? then c == Err(x.error)
            else x.value.sum <= U64_MAX && c == Ok(Claim(x.value.seen, x.value.sum))
                 && x.value.sum + Total(m - x.value.seen) == acc.sum + Total(m - acc.seen)
    decreases |inputs|
  {
    if inputs != [] && CheckInput(w, p, m, inputs[0], sigHash, height, acc.seen).None? {
      var op := inputs[0].prev;
      TotalPick(m - acc.seen, op);
      assert m - acc.seen - {op} == m - (acc.seen + {op});
      InputsConserve(w, p, m, inputs[1..], sigHash, height,
                     Claim(acc.seen + {op}, SatAdd(acc.sum, m[op].output.value)));
    }
  }

  lemma TxConserve(w: World, p: Params, m: UtxoMap, tx: Transaction, height: nat, seen: set<OutPoint>)
    requires Total(m - seen) < U64_MAX
    ensures var x := ExactTx(w, p, m, tx, height, seen);
            var c := CheckTx(w, p, m, tx, height, seen);
            if x.Err? then c == Err(x.error)
            else x.value.sum <= U64_MAX && c == Ok(Claim(x.value.seen, x.value.sum))
                 && x.value.sum + ExactOutputSum(tx.outputs) + Total(m - x.value.seen) == Total(m - seen)
  {
    InputsConserve(w, p, m, tx.inputs, w.SignatureHash(tx), height, Claim(seen, 0));
    SaturatedOutputSum(tx.outputs);
  }

  function OutTotal(txs: seq<Transaction>): nat
  {
    if txs == [] then 0 else ExactOutputSum(txs[0].outputs) + OutTotal(txs[1..])
  }

  lemma {:induction false} TxsConserve(w: World, p: Params, m: UtxoMap, txs: seq<Transaction>, height: nat, acc: Claim)
    requires acc.sum + Total(m - acc.seen) < U64_MAX
    ensures var x := ExactTxs(w, p, m, txs, height, ExactClaim(acc.seen, acc.sum));
            var c := CheckTxs(w, p, m, txs, height, acc);
            if x.Err? then c == Err(x.error)
            else x.value.sum <= U64_MAX && c == Ok(Claim(x.value.seen, x.value.sum))
                 && x.value.sum + OutTotal(txs) + Total(m - x.value.seen) == acc.sum + Total(m - acc.seen)
    decreases |txs|
  {
    if txs != [] {
      TxConserve(w, p, m, txs[0], height, acc.seen);
      match CheckTx(w, p, m, txs[0], height, acc.seen)
      case Err(_) =>
      case Ok(c) => TxsConserve(w, p, m, txs[1..], height, Claim(c.seen, SatAdd(acc.sum, c.sum)));
    }
  }

  /** Atoms that creating the first `n` outputs puts out of reach: data outputs keep none, and an output written over an
      existing entry destroys what that held. */
  function Lost(m: UtxoMap, tx: Transaction, height: nat, n: nat): nat
    requires n <= |tx.outputs|
  {
    if n == 0 then 0
    else
      var out, at, before := tx.outputs[n - 1], OutPoint(tx.id, n - 1), AddOutputs(m, tx, height, n - 1);
      Lost(m, tx, height, n - 1)
      + if IsOpReturn(out.script) then out.value else if at in before then before[at].output.value else 0
  }

  function LostBy(m: UtxoMap, txs: seq<Transaction>, height: nat): nat {
    if txs == [] then 0
    else
      var tx := txs[|txs| - 1];
      LostBy(m, txs[..|txs| - 1], height) + Lost(AddTxs(m, txs[..|txs| - 1], height), tx, height, |tx.outputs|)
  }

  lemma {:induction false} AddOutputsTotal(m: UtxoMap, tx: Transaction, height: nat, n: nat)
    requires n <= |tx.outputs|
    ensures Total(AddOutputs(m, tx, height, n)) + Lost(m, tx, height, n) == Total(m) + ExactOutputSum(tx.outputs[..n])
  {
    if n > 0 {
      AddOutputsTotal(m, tx, height, n - 1);
      assert tx.outputs[..n][..n - 1] == tx.outputs[..n - 1];
      var out, before := tx.outputs[n - 1], AddOutputs(m, tx, height, n - 1);
      assert ExactOutputSum(tx.outputs[..n]) == ExactOutputSum(tx.outputs[..n - 1]) + out.value;
      TotalPut(before, OutPoint(tx.id, n - 1), UtxoEntry(out, height, tx.IsCoinbase()));
    }
  }

  lemma {:induction false} OutTotalSnoc(txs: seq<Transaction>)
    requires txs != []
    ensures OutTotal(txs) == OutTotal(txs[..|txs| - 1]) + ExactOutputSum(txs[|txs| - 1].outputs)
  {
    if |txs| > 1 {
      OutTotalSnoc(txs[1..]);
      assert txs[1..][..|txs| - 2] == txs[..|txs| - 1][1..];
    }
  }

  lemma {:induction false} AddTxsTotal(m: UtxoMap, txs: seq<Transaction>, height: nat)
    ensures Total(AddTxs(m, txs, height)) + LostBy(m, txs, height) == Total(m) + OutTotal(txs)
  {
    if txs != [] {
      var tx := txs[|txs| - 1];
      AddTxsTotal(m, txs[..|txs| - 1], height);
      AddOutputsTotal(AddTxs(m, txs[..|txs| - 1], height), tx, height, |tx.outputs|);
      assert tx.outputs[..|tx.outputs|] == tx.outputs;
      OutTotalSnoc(txs);
    }
  }

  /** What an accepted block's coinbase leaves unclaimed of its subsidy, premint and fees. */
  function Unclaimed(w: World, p: Params, m: UtxoMap, b: Block): nat
    requires ExactApply(w, p, m, b).Ok?
  {
    var fees := ExactTxs(w, p, m, b.txs[1..], b.header.height, ExactClaim({}, 0)).value.sum;
    Issued(p, b.header.height) + fees - ExactOutputSum(b.txs[0].outputs)
  }

  /** One block: the saturating verdict equals the unbounded one; and what an accepted block issues goes to the unspent
      total, into outputs out of reach, or unclaimed. So the total grows by exactly what is issued just when nothing is
      lost or unclaimed. */
  lemma BlockConserves(w: World, p: Params, m: UtxoMap, b: Block)
    requires Total(m) + Issued(p, b.header.height) < U64_MAX
    ensures ApplyBlock(w, p, m, b) == ExactApply(w, p, m, b)
    ensures ApplyBlock(w, p, m, b).Ok? ==>
              Total(ApplyBlock(w, p, m, b).value) + LostBy(m - SpentBy(b.txs[1..]), b.txs, b.header.height)
                + Unclaimed(w, p, m, b)
                == Total(m) + Issued(p, b.header.height)
  {
    if b.txs != [] {
      var rest := b.txs[1..];
      assert m - {} == m;
      TxsConserve(w, p, m, rest, b.header.height, Claim({}, 0));
      SaturatedOutputSum(b.txs[0].outputs);
      var x := ExactTxs(w, p, m, rest, b.header.height, ExactClaim({}, 0));
      if x.Ok? && ApplyBlock(w, p, m, b).Ok? {
        CheckTxsClaims(w, p, m, rest, b.header.height, Claim({}, 0));
        assert x.value.seen == SpentBy(rest);
        AddTxsTotal(m - SpentBy(rest), b.txs, b.header.height);
      }
    }
  }

  // ---- Conservation along a chain -------------------------------------------

  /** Everything issued below height `n`. */
  function SupplyBound(p: Params, n: nat): nat
  {
    RewardSum(p, n) + if n > 0 && p.HasPremint() then p.Premint() else 0
  }

  predicate HeightsAreIndices(chain: Chain) {
    forall i :: 0 <= i < |chain| ==> chain[i].header.height == i
  }

  /** What a replayable chain has lost to overwritten entries and data outputs, or left unclaimed. */
  function Gone(w: World, p: Params, chain: Chain): nat
  {
    if chain == [] then 0
    else
      var past, b := chain[..|chain| - 1], chain[|chain| - 1];
      match ExactReplay(w, p, past)
      case Err(_) => 0
      case Ok(m) =>
        if ExactApply(w, p, m, b).Err? then 0
        else Gone(w, p, past) + LostBy(m - SpentBy(b.txs[1..]), b.txs, b.header.height) + Unclaimed(w, p, m, b)
  }

  /** On every chain that replays, the unspent total and what is gone make up the issued supply: so the total stays
      within it, and equals it exactly when nothing was lost or left unclaimed. And replay in saturating 64-bit
      arithmetic gives the verdict, error and set of replay in unbounded arithmetic. */
  lemma {:induction false} SupplyTheorem(w: World, p: Params, chain: Chain)
    requires HeightsAreIndices(chain) && SupplyBound(p, |chain|) < U64_MAX
    ensures Replay(w, p, chain) == ExactReplay(w, p, chain)
    ensures Replay(w, p, chain).Ok? ==>
              Total(Replay(w, p, chain).value) + Gone(w, p, chain) == SupplyBound(p, |chain|)
  {
    if chain != [] {
      var n := |chain| - 1;
      SupplyTheorem(w, p, chain[..n]);
      if Replay(w, p, chain[..n]).Ok? {
        BlockConserves(w, p, Replay(w, p, chain[..n]).value, chain[n]);
      }
    }
  }

  /** MAINNET: no replayable chain ever holds more unspent atoms than the emission test vector. */
  lemma MainnetSupply(w: World, chain: Chain)
    requires HeightsAreIndices(chain) && BeforeEraWrap(MAINNET, |chain|)
    ensures Replay(w, MAINNET, chain).Ok? ==> Total(Replay(w, MAINNET, chain).value) <= MAINNET_SUPPLY
  {
    MainnetSupplyCap(|chain|);
    SupplyTheorem(w, MAINNET, chain);
  }
}
