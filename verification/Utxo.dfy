/** The UTXO set: transaction checks, the three phases of block application, and what they depend on. */
module Utxo {
  import opened Prelude
  import opened Types
  import opened Emission

  datatype UtxoEntry = UtxoEntry(output: TxOutput, createdHeight: nat, coinbase: bool)

  type UtxoMap = map<OutPoint, UtxoEntry>

  datatype UtxoError =
    | MissingInput
    | DuplicateInput
    | MissingCoinbase
    | CoinbaseOutputTooHigh
    | InvalidSignature
    | ImmatureCoinbaseSpend
    | OutputExceedsInput

  /** Outpoints claimed so far, with an accumulated amount. */
  datatype Claim = Claim(seen: set<OutPoint>, sum: u64)

  // ---- Specification -------------------------------------------------------

  function CheckInput(w: World, p: Params, m: UtxoMap, input: TxInput, sigHash: Hash256, height: nat,
                      seen: set<OutPoint>)
    : Option<UtxoError>
  {
    if input.prev in seen then Some(DuplicateInput)
    else if input.prev !in m then Some(MissingInput)
    else
      var entry := m[input.prev];
      if entry.coinbase && height < SatAdd(entry.createdHeight, p.maturity) then Some(ImmatureCoinbaseSpend)
      else if !w.execute(input.sigScript, entry.output.script, sigHash, height) then Some(InvalidSignature)
      else None
  }

  function CheckInputs(w: World, p: Params, m: UtxoMap, inputs: seq<TxInput>, sigHash: Hash256, height: nat, acc: Claim)
    : Result<Claim, UtxoError>
  {
    if inputs == [] then Ok(acc)
    else
      var input := inputs[0];
      match CheckInput(w, p, m, input, sigHash, height, acc.seen)
      case Some(e) => Err(e)
      case None =>
        CheckInputs(w, p, m, inputs[1..], sigHash, height,
                    Claim(acc.seen + {input.prev}, SatAdd(acc.sum, m[input.prev].output.value)))
  }

  /** Checks one transaction; the claim returned carries its fee. */
  function CheckTx(w: World, p: Params, m: UtxoMap, tx: Transaction, height: nat, seen: set<OutPoint>)
    : Result<Claim, UtxoError>
  {
    match CheckInputs(w, p, m, tx.inputs, w.SignatureHash(tx), height, Claim(seen, 0))
    case Err(e) => Err(e)
    case Ok(c) =>
      if OutputSum(tx.outputs) > c.sum then Err(OutputExceedsInput)
      else Ok(Claim(c.seen, c.sum - OutputSum(tx.outputs)))
  }

  function CheckTxs(w: World, p: Params, m: UtxoMap, txs: seq<Transaction>, height: nat, acc: Claim)
    : Result<Claim, UtxoError>
  {
    if txs == [] then Ok(acc)
    else
      match CheckTx(w, p, m, txs[0], height, acc.seen)
      case Err(e) => Err(e)
      case Ok(c) => CheckTxs(w, p, m, txs[1..], height, Claim(c.seen, SatAdd(acc.sum, c.sum)))
  }

  function ValidateTx(w: World, p: Params, m: UtxoMap, tx: Transaction, tipHeight: nat): Result<u64, UtxoError>
  {
    match CheckTx(w, p, m, tx, tipHeight, {})
    case Err(e) => Err(e)
    case Ok(c) => Ok(c.sum)
  }

  function MaxCoinbase(p: Params, height: nat, fees: u64): u64
  {
    if height == 0 && p.HasPremint() then SatAdd(SatAdd(Reward(p, 0), p.Premint()), fees)
    else SatAdd(Reward(p, height), fees)
  }

  function InputSet(inputs: seq<TxInput>): set<OutPoint> { set i | i in inputs :: i.prev }

  function SpentBy(txs: seq<Transaction>): set<OutPoint> {
    set tx, i | tx in txs && i in tx.inputs :: i.prev
  }

  function AddOutputs(m: UtxoMap, tx: Transaction, height: nat, n: nat): UtxoMap
    requires n <= |tx.outputs|
  {
    if n == 0 then m
    else
      var out := tx.outputs[n - 1];
      var m' := AddOutputs(m, tx, height, n - 1);
      if IsOpReturn(out.script) then m'
      else m'[OutPoint(tx.id, n - 1) := UtxoEntry(out, height, tx.IsCoinbase())]
  }

  function AddTxs(m: UtxoMap, txs: seq<Transaction>, height: nat): UtxoMap
  {
    if txs == [] then m
    else
      var tx := txs[|txs| - 1];
      AddOutputs(AddTxs(m, txs[..|txs| - 1], height), tx, height, |tx.outputs|)
  }

  /** The block's effect: spend every non-coinbase input, then create every output. */
  function Effect(m: UtxoMap, b: Block): UtxoMap
    requires b.txs != []
  {
    AddTxs(m - SpentBy(b.txs[1..]), b.txs, b.header.height)
  }

  /** The verdict on a block, with its total fees. */
  function CheckBlock(w: World, p: Params, m: UtxoMap, b: Block): Result<u64, UtxoError>
  {
    if b.txs == [] then Err(MissingCoinbase)
    else
      match CheckTxs(w, p, m, b.txs[1..], b.header.height, Claim({}, 0))
      case Err(e) => Err(e)
      case Ok(c) =>
        if OutputSum(b.txs[0].outputs) > MaxCoinbase(p, b.header.height, c.sum) then Err(CoinbaseOutputTooHigh)
        else Ok(c.sum)
  }

  function ApplyBlock(w: World, p: Params, m: UtxoMap, b: Block): Result<UtxoMap, UtxoError>
  {
    match CheckBlock(w, p, m, b)
    case Err(e) => Err(e)
    case Ok(_) => Ok(Effect(m, b))
  }

  /** Replays a genesis-first chain into an empty set. */
  function Replay(w: World, p: Params, chain: seq<Block>): Result<UtxoMap, UtxoError>
  {
    if chain == [] then Ok(map[])
    else
      match Replay(w, p, chain[..|chain| - 1])
      case Err(e) => Err(e)
      case Ok(m) => ApplyBlock(w, p, m, chain[|chain| - 1])
  }

  // ---- Locality: the verdict reads only the outpoints a block spends --------

  ghost predicate AgreeOn(m: UtxoMap, m': UtxoMap, s: set<OutPoint>) {
    forall op :: op in s ==> (op in m <==> op in m') && (op in m ==> m[op] == m'[op])
  }

  lemma {:induction false} CheckInputsLocal(w: World, p: Params, m: UtxoMap, m': UtxoMap, inputs: seq<TxInput>,
                                            sigHash: Hash256, height: nat, acc: Claim)
    requires AgreeOn(m, m', InputSet(inputs))
    ensures CheckInputs(w, p, m, inputs, sigHash, height, acc) == CheckInputs(w, p, m', inputs, sigHash, height, acc)
    decreases |inputs|
  {
    if inputs != [] {
      var input := inputs[0];
      assert input in inputs && input.prev in InputSet(inputs);
      assert InputSet(inputs[1..]) <= InputSet(inputs);
      if CheckInput(w, p, m, input, sigHash, height, acc.seen).None? {
        CheckInputsLocal(w, p, m, m', inputs[1..], sigHash, height,
                         Claim(acc.seen + {input.prev}, SatAdd(acc.sum, m[input.prev].output.value)));
      }
    }
  }

  lemma CheckTxLocal(w: World, p: Params, m: UtxoMap, m': UtxoMap, tx: Transaction, height: nat, seen: set<OutPoint>)
    requires AgreeOn(m, m', InputSet(tx.inputs))
    ensures CheckTx(w, p, m, tx, height, seen) == CheckTx(w, p, m', tx, height, seen)
  {
    CheckInputsLocal(w, p, m, m', tx.inputs, w.SignatureHash(tx), height, Claim(seen, 0));
    hide CheckInputs, InputSet, AgreeOn;
  }

  lemma AgreeOnFirst(m: UtxoMap, m': UtxoMap, txs: seq<Transaction>)
    requires txs != [] && AgreeOn(m, m', SpentBy(txs))
    ensures AgreeOn(m, m', InputSet(txs[0].inputs)) && AgreeOn(m, m', SpentBy(txs[1..]))
  {
    assert InputSet(txs[0].inputs) <= SpentBy(txs) by { assert txs[0] in txs; }
    assert SpentBy(txs[1..]) <= SpentBy(txs);
  }

  lemma {:induction false} CheckTxsLocal(w: World, p: Params, m: UtxoMap, m': UtxoMap, txs: seq<Transaction>,
                                         height: nat, acc: Claim)
    requires AgreeOn(m, m', SpentBy(txs))
    ensures CheckTxs(w, p, m, txs, height, acc) == CheckTxs(w, p, m', txs, height, acc)
    decreases |txs|
  {
    hide CheckTx, AgreeOn, SpentBy, InputSet;
    if txs != [] {
      AgreeOnFirst(m, m', txs);
      CheckTxLocal(w, p, m, m', txs[0], height, acc.seen);
      match CheckTx(w, p, m, txs[0], height, acc.seen)
      case Err(_) =>
      case Ok(c) => CheckTxsLocal(w, p, m, m', txs[1..], height, Claim(c.seen, SatAdd(acc.sum, c.sum)));
    }
  }

  /** The part of a map under some keys. */
  function Picked(m: UtxoMap, keys: set<OutPoint>): UtxoMap {
    map op | op in m && op in keys :: m[op]
  }

  lemma PickedAdd(m: UtxoMap, keys: set<OutPoint>, op: OutPoint)
    ensures Picked(m, keys + {op}) == if op in m then Picked(m, keys)[op := m[op]] else Picked(m, keys)
  {
  }

  /** The part of `m` a list of transactions can read. */
  function Seed(m: UtxoMap, txs: seq<Transaction>): UtxoMap { Picked(m, SpentBy(txs)) }

  /** A block is accepted on the seeded subset exactly when it is on the full set, with the same fees or error. */
  lemma SeededVerdict(w: World, p: Params, m: UtxoMap, b: Block)
    requires b.txs != []
    ensures CheckBlock(w, p, Seed(m, b.txs[1..]), b) == CheckBlock(w, p, m, b)
  {
    CheckTxsLocal(w, p, Seed(m, b.txs[1..]), m, b.txs[1..], b.header.height, Claim({}, 0));
  }

  lemma SeededTx(w: World, p: Params, m: UtxoMap, tx: Transaction, height: nat)
    ensures ValidateTx(w, p, Seed(m, [tx]), tx, height) == ValidateTx(w, p, m, tx, height)
  {
    assert InputSet(tx.inputs) <= SpentBy([tx]) by { assert tx in [tx]; }
    CheckInputsLocal(w, p, Seed(m, [tx]), m, tx.inputs, w.SignatureHash(tx), height, Claim({}, 0));
  }

  // ---- What an accepted input list has claimed ------------------------------

  lemma {:induction false} CheckInputsClaims(w: World, p: Params, m: UtxoMap, inputs: seq<TxInput>,
                                             sigHash: Hash256, height: nat, acc: Claim)
    requires CheckInputs(w, p, m, inputs, sigHash, height, acc).Ok?
    ensures CheckInputs(w, p, m, inputs, sigHash, height, acc).value.seen == acc.seen + InputSet(inputs)
    ensures InputSet(inputs) <= m.Keys && InputSet(inputs) !! acc.seen
    ensures forall i, j :: 0 <= i < j < |inputs| ==> inputs[i].prev != inputs[j].prev
    decreases |inputs|
  {
    if inputs != [] {
      var input := inputs[0];
      var acc' := Claim(acc.seen + {input.prev}, SatAdd(acc.sum, m[input.prev].output.value));
      CheckInputsClaims(w, p, m, inputs[1..], sigHash, height, acc');
      assert inputs == [input] + inputs[1..];
      assert InputSet(inputs) == {input.prev} + InputSet(inputs[1..]);
      forall j | 1 <= j < |inputs| ensures inputs[j].prev != input.prev {
        assert inputs[1..][j - 1] in inputs[1..];
        assert inputs[j].prev in InputSet(inputs[1..]);
      }
      forall i, j | 1 <= i < j < |inputs| ensures inputs[i].prev != inputs[j].prev {
        assert inputs[1..][i - 1].prev != inputs[1..][j - 1].prev;
      }
    }
  }

  lemma {:induction false} CheckTxsClaims(w: World, p: Params, m: UtxoMap, txs: seq<Transaction>, height: nat,
                                          acc: Claim)
    requires CheckTxs(w, p, m, txs, height, acc).Ok?
    ensures CheckTxs(w, p, m, txs, height, acc).value.seen == acc.seen + SpentBy(txs)
    ensures SpentBy(txs) <= m.Keys && SpentBy(txs) !! acc.seen
    decreases |txs|
  {
    if txs != [] {
      var tx := txs[0];
      var c := CheckTx(w, p, m, tx, height, acc.seen).value;
      CheckInputsClaims(w, p, m, tx.inputs, w.SignatureHash(tx), height, Claim(acc.seen, 0));
      CheckTxsClaims(w, p, m, txs[1..], height, Claim(c.seen, SatAdd(acc.sum, c.sum)));
      SpentByHead(txs);
    }
  }

  lemma SpentByHead(txs: seq<Transaction>)
    requires txs != []
    ensures SpentBy(txs) == InputSet(txs[0].inputs) + SpentBy(txs[1..])
  {
    assert txs == [txs[0]] + txs[1..];
  }

  lemma SpentBySnoc(txs: seq<Transaction>, tx: Transaction)
    ensures SpentBy(txs + [tx]) == SpentBy(txs) + InputSet(tx.inputs)
  {
  }

  lemma InputSetSnoc(inputs: seq<TxInput>, i: TxInput)
    ensures InputSet(inputs + [i]) == InputSet(inputs) + {i.prev}
  {
  }
}
