/** The spending rules in their own words: exactly which payments and blocks are accepted, with which error the others
    are refused, and what an accepted block leaves. */
module UtxoRules {
  import opened Prelude
  import opened Types
  import opened Emission
  import opened Utxo
  import Supply

  // ---- One payment ----------------------------------------------------------

  /** The spent output exists, its script accepts the unlocking one, and a coinbase's has matured. */
  predicate Spendable(w: World, p: Params, m: UtxoMap, input: TxInput, sigHash: Hash256, height: nat) {
    && input.prev in m
    && w.execute(input.sigScript, m[input.prev].output.script, sigHash, height)
    && (m[input.prev].coinbase ==> height >= SatAdd(m[input.prev].createdHeight, p.maturity))
  }

  ghost predicate AllSpendable(w: World, p: Params, m: UtxoMap, inputs: seq<TxInput>, sigHash: Hash256, height: nat) {
    forall i :: 0 <= i < |inputs| ==> Spendable(w, p, m, inputs[i], sigHash, height)
  }

  /** No outpoint is claimed twice, nor one claimed before. */
  ghost predicate Fresh(inputs: seq<TxInput>, seen: set<OutPoint>) {
    && (forall i :: 0 <= i < |inputs| ==> inputs[i].prev !in seen)
    && (forall i, j :: 0 <= i < j < |inputs| ==> inputs[i].prev != inputs[j].prev)
  }

  /** What the spent outputs hold together. */
  function InTotal(m: UtxoMap, inputs: seq<TxInput>): nat {
    if inputs == [] then 0
    else (if inputs[0].prev in m then m[inputs[0].prev].output.value else 0) + InTotal(m, inputs[1..])
  }

  lemma FreshHead(inputs: seq<TxInput>, seen: set<OutPoint>)
    requires inputs != []
    ensures Fresh(inputs, seen) <==> inputs[0].prev !in seen && Fresh(inputs[1..], seen + {inputs[0].prev})
  {
    var rest := inputs[1..];
    if Fresh(inputs, seen) {
      forall i | 0 <= i < |rest| ensures rest[i].prev !in seen + {inputs[0].prev} { assert rest[i] == inputs[i + 1]; }
    }
    if inputs[0].prev !in seen && Fresh(rest, seen + {inputs[0].prev}) {
      forall i | 0 <= i < |inputs| ensures inputs[i].prev !in seen { if i > 0 { assert rest[i - 1] == inputs[i]; } }
      forall i, j | 0 <= i < j < |inputs| ensures inputs[i].prev != inputs[j].prev {
        assert rest[j - 1] == inputs[j];
        if i > 0 { assert rest[i - 1] == inputs[i]; }
      }
    }
  }

  lemma SpendableHead(w: World, p: Params, m: UtxoMap, inputs: seq<TxInput>, sigHash: Hash256, height: nat)
    requires inputs != []
    ensures AllSpendable(w, p, m, inputs, sigHash, height) <==>
              && Spendable(w, p, m, inputs[0], sigHash, height)
              && AllSpendable(w, p, m, inputs[1..], sigHash, height)
  {
    hide Spendable;
    if AllSpendable(w, p, m, inputs[1..], sigHash, height) && Spendable(w, p, m, inputs[0], sigHash, height) {
      forall i | 0 <= i < |inputs| ensures Spendable(w, p, m, inputs[i], sigHash, height) {
        if i > 0 { assert inputs[1..][i - 1] == inputs[i]; }
      }
    }
  }

  lemma InputSetHead(inputs: seq<TxInput>)
    requires inputs != []
    ensures InputSet(inputs) == {inputs[0].prev} + InputSet(inputs[1..])
  {
    assert inputs == [inputs[0]] + inputs[1..];
  }

  /** Inputs are accepted exactly when each is spendable and none is claimed twice; the sum saturates. */
  lemma {:induction false} InputsExactly(w: World, p: Params, m: UtxoMap, inputs: seq<TxInput>, sigHash: Hash256,
                                         height: nat, acc: Claim)
    ensures var r := CheckInputs(w, p, m, inputs, sigHash, height, acc);
            && (r.Ok? <==> AllSpendable(w, p, m, inputs, sigHash, height) && Fresh(inputs, acc.seen))
            && (r.Ok? ==>
                  r.value == Claim(acc.seen + InputSet(inputs), Min(acc.sum + InTotal(m, inputs), U64_MAX)))
    decreases |inputs|
  {
    if inputs == [] {
      assert InputSet(inputs) == {};
    } else {
      var input := inputs[0];
      SpendableHead(w, p, m, inputs, sigHash, height);
      FreshHead(inputs, acc.seen);
      InputSetHead(inputs);
      hide AllSpendable, Fresh, InputSet;
      if CheckInput(w, p, m, input, sigHash, height, acc.seen).None? {
        var acc' := Claim(acc.seen + {input.prev}, SatAdd(acc.sum, m[input.prev].output.value));
        InputsExactly(w, p, m, inputs[1..], sigHash, height, acc');
        assert acc.seen + {input.prev} + InputSet(inputs[1..]) == acc.seen + InputSet(inputs);
      }
    }
  }

  /** Why an input is refused: claimed before, not there, not mature, or else not unlocked. */
  function Fault(p: Params, m: UtxoMap, op: OutPoint, height: nat, seen: set<OutPoint>): UtxoError {
    if op in seen then DuplicateInput
    else if op !in m then MissingInput
    else if m[op].coinbase && height < SatAdd(m[op].createdHeight, p.maturity) then ImmatureCoinbaseSpend
    else InvalidSignature
  }

  /** All before input `i` are in order, and it is not. */
  ghost predicate FirstFault(w: World, p: Params, m: UtxoMap, inputs: seq<TxInput>, sigHash: Hash256, height: nat,
                             seen: set<OutPoint>, i: nat)
  {
    && i < |inputs|
    && AllSpendable(w, p, m, inputs[..i], sigHash, height) && Fresh(inputs[..i], seen)
    && !(Spendable(w, p, m, inputs[i], sigHash, height) && inputs[i].prev !in seen + InputSet(inputs[..i]))
  }

  /** The first input out of order decides the error. */
  lemma {:induction false} InputsFault(w: World, p: Params, m: UtxoMap, inputs: seq<TxInput>, sigHash: Hash256,
                                       height: nat, acc: Claim, i: nat)
    requires FirstFault(w, p, m, inputs, sigHash, height, acc.seen, i)
    ensures CheckInputs(w, p, m, inputs, sigHash, height, acc)
         == Err(Fault(p, m, inputs[i].prev, height, acc.seen + InputSet(inputs[..i])))
    decreases |inputs|
  {
    if i == 0 {
      assert inputs[..0] == [] && InputSet(inputs[..0]) == {};
    } else {
      var input, first := inputs[0], inputs[..i];
      assert first[0] == input && first[1..] == inputs[1..][..i - 1];
      SpendableHead(w, p, m, first, sigHash, height);
      FreshHead(first, acc.seen);
      InputSetHead(first);
      hide AllSpendable, Fresh, InputSet;
      var acc' := Claim(acc.seen + {input.prev}, SatAdd(acc.sum, m[input.prev].output.value));
      assert acc.seen + {input.prev} + InputSet(first[1..]) == acc.seen + InputSet(first);
      InputsFault(w, p, m, inputs[1..], sigHash, height, acc', i - 1);
    }
  }

  lemma {:induction false} OutputSumIs(outs: seq<TxOutput>)
    ensures OutputSum(outs) == Min(Supply.ExactOutputSum(outs), U64_MAX)
  {
    if outs != [] { OutputSumIs(outs[..|outs| - 1]); }
  }

  /** The payment's inputs are spendable and distinct, and cover its outputs in 64-bit sums. */
  ghost predicate Pays(w: World, p: Params, m: UtxoMap, tx: Transaction, height: nat) {
    && AllSpendable(w, p, m, tx.inputs, w.SignatureHash(tx), height) && Fresh(tx.inputs, {}) && Covers(m, tx)
  }

  predicate Covers(m: UtxoMap, tx: Transaction) {
    Min(Supply.ExactOutputSum(tx.outputs), U64_MAX) <= Min(InTotal(m, tx.inputs), U64_MAX)
  }

  function FeeOf(m: UtxoMap, tx: Transaction): nat {
    SatSub(Min(InTotal(m, tx.inputs), U64_MAX), Min(Supply.ExactOutputSum(tx.outputs), U64_MAX))
  }

  lemma FreshSplits(inputs: seq<TxInput>, seen: set<OutPoint>)
    ensures Fresh(inputs, seen) <==> Fresh(inputs, {}) && InputSet(inputs) !! seen
  {
  }

  lemma TxExactly(w: World, p: Params, m: UtxoMap, tx: Transaction, height: nat, seen: set<OutPoint>)
    ensures var r := CheckTx(w, p, m, tx, height, seen);
            && (r.Ok? <==> Pays(w, p, m, tx, height) && InputSet(tx.inputs) !! seen)
            && (r.Ok? ==> r.value == Claim(seen + InputSet(tx.inputs), FeeOf(m, tx)))
  {
    InputsExactly(w, p, m, tx.inputs, w.SignatureHash(tx), height, Claim(seen, 0));
    OutputSumIs(tx.outputs);
    FreshSplits(tx.inputs, seen);
    hide CheckInputs, AllSpendable, Fresh, InputSet, InTotal, OutputSum;
  }

  /** A payment is valid exactly when it pays, and its fee is what its inputs leave over. */
  lemma ValidExactly(w: World, p: Params, m: UtxoMap, tx: Transaction, height: nat)
    ensures ValidateTx(w, p, m, tx, height).Ok? <==> Pays(w, p, m, tx, height)
    ensures Pays(w, p, m, tx, height) ==> ValidateTx(w, p, m, tx, height) == Ok(FeeOf(m, tx))
  {
    TxExactly(w, p, m, tx, height, {});
    hide CheckTx, Pays, FeeOf;
  }

  /** Refused, its first input out of order decides the error, and with none its outputs exceed its inputs. */
  lemma ValidFault(w: World, p: Params, m: UtxoMap, tx: Transaction, height: nat, i: nat)
    ensures FirstFault(w, p, m, tx.inputs, w.SignatureHash(tx), height, {}, i) ==>
              ValidateTx(w, p, m, tx, height)
                == Err(Fault(p, m, tx.inputs[i].prev, height, InputSet(tx.inputs[..i])))
    ensures AllSpendable(w, p, m, tx.inputs, w.SignatureHash(tx), height) && Fresh(tx.inputs, {}) && !Covers(m, tx) ==>
              ValidateTx(w, p, m, tx, height) == Err(OutputExceedsInput)
  {
    TxFault(w, p, m, tx, height, {}, i);
    if i < |tx.inputs| { assert {} + InputSet(tx.inputs[..i]) == InputSet(tx.inputs[..i]); }
    hide CheckTx, FirstFault, Fresh, AllSpendable, Covers;
  }

  lemma TxFault(w: World, p: Params, m: UtxoMap, tx: Transaction, height: nat, seen: set<OutPoint>, i: nat)
    ensures FirstFault(w, p, m, tx.inputs, w.SignatureHash(tx), height, seen, i) ==>
              CheckTx(w, p, m, tx, height, seen)
                == Err(Fault(p, m, tx.inputs[i].prev, height, seen + InputSet(tx.inputs[..i])))
    ensures AllSpendable(w, p, m, tx.inputs, w.SignatureHash(tx), height) && Fresh(tx.inputs, seen)
            && !Covers(m, tx) ==>
              CheckTx(w, p, m, tx, height, seen) == Err(OutputExceedsInput)
  {
    InputsExactly(w, p, m, tx.inputs, w.SignatureHash(tx), height, Claim(seen, 0));
    OutputSumIs(tx.outputs);
    hide CheckInputs, AllSpendable, Fresh, InTotal, OutputSum, FirstFault;
    if FirstFault(w, p, m, tx.inputs, w.SignatureHash(tx), height, seen, i) {
      InputsFault(w, p, m, tx.inputs, w.SignatureHash(tx), height, Claim(seen, 0), i);
    }
  }

  // ---- One block ------------------------------------------------------------

  /** Every payment pays, and no two spend the same output. */
  ghost predicate AllPay(w: World, p: Params, m: UtxoMap, txs: seq<Transaction>, height: nat) {
    && (forall t :: 0 <= t < |txs| ==> Pays(w, p, m, txs[t], height))
    && (forall t, u :: 0 <= t < u < |txs| ==> InputSet(txs[t].inputs) !! InputSet(txs[u].inputs))
  }

  function FeesOf(m: UtxoMap, txs: seq<Transaction>): nat {
    if txs == [] then 0 else FeeOf(m, txs[0]) + FeesOf(m, txs[1..])
  }

  lemma AllPayHead(w: World, p: Params, m: UtxoMap, txs: seq<Transaction>, height: nat)
    requires txs != []
    ensures AllPay(w, p, m, txs, height) <==>
              && Pays(w, p, m, txs[0], height) && AllPay(w, p, m, txs[1..], height)
              && InputSet(txs[0].inputs) !! SpentBy(txs[1..])
  {
    hide Pays;
    var rest := txs[1..];
    if AllPay(w, p, m, txs, height) {
      forall op | op in SpentBy(rest) ensures op !in InputSet(txs[0].inputs) {
        var tx, i :| tx in rest && i in tx.inputs && i.prev == op;
        var u :| 0 <= u < |rest| && rest[u] == tx;
        assert txs[u + 1] == tx;
      }
    }
    if Pays(w, p, m, txs[0], height) && AllPay(w, p, m, rest, height) && InputSet(txs[0].inputs) !! SpentBy(rest) {
      forall t | 0 <= t < |txs| ensures Pays(w, p, m, txs[t], height) { if t > 0 { assert rest[t - 1] == txs[t]; } }
      forall t, u | 0 <= t < u < |txs| ensures InputSet(txs[t].inputs) !! InputSet(txs[u].inputs) {
        assert rest[u - 1] == txs[u];
        if t > 0 {
          assert rest[t - 1] == txs[t];
        } else {
          assert InputSet(txs[u].inputs) <= SpentBy(rest);
        }
      }
    }
  }

  lemma {:induction false} TxsExactly(w: World, p: Params, m: UtxoMap, txs: seq<Transaction>, height: nat, acc: Claim)
    ensures var r := CheckTxs(w, p, m, txs, height, acc);
            && (r.Ok? <==> AllPay(w, p, m, txs, height) && SpentBy(txs) !! acc.seen)
            && (r.Ok? ==> r.value == Claim(acc.seen + SpentBy(txs), Min(acc.sum + FeesOf(m, txs), U64_MAX)))
    decreases |txs|
  {
    hide *;
    if txs == [] {
      NoTxs(w, p, m, height, acc);
    } else {
      var tx, rest := txs[0], txs[1..];
      TxExactly(w, p, m, tx, height, acc.seen);
      AllPayHead(w, p, m, txs, height);
      SpentByHead(txs);
      TxsHead(w, p, m, txs, height, acc);
      ClaimsSplit(InputSet(tx.inputs), SpentBy(rest), acc.seen);
      if CheckTx(w, p, m, tx, height, acc.seen).Ok? {
        SumsSplit(acc.sum, FeeOf(m, tx), FeesOf(m, rest));
        TxsExactly(w, p, m, rest, height, Claim(acc.seen + InputSet(tx.inputs), SatAdd(acc.sum, FeeOf(m, tx))));
      }
    }
  }

  lemma NoTxs(w: World, p: Params, m: UtxoMap, height: nat, acc: Claim)
    ensures CheckTxs(w, p, m, [], height, acc) == Ok(acc) && AllPay(w, p, m, [], height)
    ensures SpentBy([]) == {} && acc.seen + SpentBy([]) == acc.seen && Min(acc.sum + FeesOf(m, []), U64_MAX) == acc.sum
  {
  }

  lemma TxsHead(w: World, p: Params, m: UtxoMap, txs: seq<Transaction>, height: nat, acc: Claim)
    requires txs != []
    ensures FeesOf(m, txs) == FeeOf(m, txs[0]) + FeesOf(m, txs[1..])
    ensures var c := CheckTx(w, p, m, txs[0], height, acc.seen);
            CheckTxs(w, p, m, txs, height, acc) ==
              if c.Err? then Err(c.error)
              else CheckTxs(w, p, m, txs[1..], height, Claim(c.value.seen, SatAdd(acc.sum, c.value.sum)))
  {
    hide CheckTx, FeeOf, SatAdd;
  }

  lemma ClaimsSplit(a: set<OutPoint>, b: set<OutPoint>, seen: set<OutPoint>)
    ensures seen + a + b == seen + (a + b)
    ensures a + b !! seen && a !! b <==> a !! seen && b !! seen + a
  {
  }

  lemma SumsSplit(a: nat, b: nat, c: nat)
    ensures Min(SatAdd(a, b) + c, U64_MAX) == Min(a + (b + c), U64_MAX)
  {
  }

  /** The most a coinbase may pay: the subsidy, the premint at genesis, and the fees. */
  function CoinbaseLimit(p: Params, height: nat, fees: nat): nat {
    Min(Reward(p, height) + (if height == 0 && p.HasPremint() then p.Premint() else 0) + Min(fees, U64_MAX), U64_MAX)
  }

  /** The block has a coinbase within its limit, and its other transactions all pay, against `m` alone. */
  ghost predicate Applicable(w: World, p: Params, m: UtxoMap, b: Block) {
    && b.txs != [] && AllPay(w, p, m, b.txs[1..], b.header.height)
    && Min(Supply.ExactOutputSum(b.txs[0].outputs), U64_MAX)
       <= CoinbaseLimit(p, b.header.height, FeesOf(m, b.txs[1..]))
  }

  lemma LimitIs(p: Params, height: nat, fees: nat)
    ensures MaxCoinbase(p, height, Min(fees, U64_MAX)) == CoinbaseLimit(p, height, fees)
  {
    hide Reward;
  }

  /** A block is accepted exactly when it is applicable. */
  lemma AppliesExactly(w: World, p: Params, m: UtxoMap, b: Block)
    ensures ApplyBlock(w, p, m, b).Ok? <==> Applicable(w, p, m, b)
    ensures b.txs != [] && AllPay(w, p, m, b.txs[1..], b.header.height) && !Applicable(w, p, m, b) ==>
              ApplyBlock(w, p, m, b) == Err(CoinbaseOutputTooHigh)
    ensures b.txs == [] ==> ApplyBlock(w, p, m, b) == Err(MissingCoinbase)
  {
    if b.txs != [] {
      TxsExactly(w, p, m, b.txs[1..], b.header.height, Claim({}, 0));
      OutputSumIs(b.txs[0].outputs);
      LimitIs(p, b.header.height, FeesOf(m, b.txs[1..]));
    }
    hide CheckTxs, AllPay, SpentBy, MaxCoinbase, CoinbaseLimit, Effect, OutputSum;
  }

  /** Every spend of an accepted block was of an output that existed, was mature, and was unlocked by its script. */
  lemma AcceptedSpends(w: World, p: Params, m: UtxoMap, b: Block, t: nat, i: nat)
    requires ApplyBlock(w, p, m, b).Ok? && 1 <= t < |b.txs| && i < |b.txs[t].inputs|
    ensures var input := b.txs[t].inputs[i];
            && input.prev in m
            && w.execute(input.sigScript, m[input.prev].output.script, w.SignatureHash(b.txs[t]), b.header.height)
            && (m[input.prev].coinbase ==> b.header.height >= SatAdd(m[input.prev].createdHeight, p.maturity))
  {
    AppliesExactly(w, p, m, b);
    hide ApplyBlock, SatAdd;
    assert b.txs[1..][t - 1] == b.txs[t];
    assert Pays(w, p, m, b.txs[t], b.header.height);
    assert Spendable(w, p, m, b.txs[t].inputs[i], w.SignatureHash(b.txs[t]), b.header.height);
  }

  /** All payments before number `t` are in order and disjoint. */
  lemma {:induction false} TxsFault(w: World, p: Params, m: UtxoMap, txs: seq<Transaction>, height: nat, acc: Claim,
                                    t: nat, i: nat)
    requires t < |txs| && AllPay(w, p, m, txs[..t], height) && SpentBy(txs[..t]) !! acc.seen
    ensures var seen := acc.seen + SpentBy(txs[..t]);
            var tx := txs[t];
            && (FirstFault(w, p, m, tx.inputs, w.SignatureHash(tx), height, seen, i) ==>
                  CheckTxs(w, p, m, txs, height, acc)
                    == Err(Fault(p, m, tx.inputs[i].prev, height, seen + InputSet(tx.inputs[..i]))))
            && (AllSpendable(w, p, m, tx.inputs, w.SignatureHash(tx), height) && Fresh(tx.inputs, seen)
                && !Covers(m, tx) ==>
                  CheckTxs(w, p, m, txs, height, acc) == Err(OutputExceedsInput))
    decreases |txs|
  {
    var first := txs[..t];
    if t == 0 {
      assert first == [] && SpentBy(first) == {} && acc.seen + {} == acc.seen;
      TxFault(w, p, m, txs[0], height, acc.seen, i);
      hide CheckTx, FirstFault, Fresh, AllSpendable, Covers;
    } else {
      assert first[0] == txs[0] && first[1..] == txs[1..][..t - 1];
      AllPayHead(w, p, m, first, height);
      SpentByHead(first);
      TxExactly(w, p, m, txs[0], height, acc.seen);
      hide CheckTx, FirstFault, Fresh, AllSpendable, Covers, Pays, AllPay, SpentBy, InputSet, FeeOf, Fault;
      var c := CheckTx(w, p, m, txs[0], height, acc.seen).value;
      TxsFault(w, p, m, txs[1..], height, Claim(c.seen, SatAdd(acc.sum, c.sum)), t - 1, i);
      assert c.seen + SpentBy(first[1..]) == acc.seen + SpentBy(first);
    }
  }

  /** A block with a payment out of order is refused for the first such payment's first fault. */
  lemma BlockFault(w: World, p: Params, m: UtxoMap, b: Block, t: nat, i: nat)
    requires 1 <= t < |b.txs| && AllPay(w, p, m, b.txs[1..t], b.header.height)
    ensures var seen, tx, height := SpentBy(b.txs[1..t]), b.txs[t], b.header.height;
            && (FirstFault(w, p, m, tx.inputs, w.SignatureHash(tx), height, seen, i) ==>
                  ApplyBlock(w, p, m, b)
                    == Err(Fault(p, m, tx.inputs[i].prev, height, seen + InputSet(tx.inputs[..i]))))
            && (AllSpendable(w, p, m, tx.inputs, w.SignatureHash(tx), height) && Fresh(tx.inputs, seen)
                && !Covers(m, tx) ==>
                  ApplyBlock(w, p, m, b) == Err(OutputExceedsInput))
  {
    var txs := b.txs[1..];
    assert txs[..t - 1] == b.txs[1..t] && txs[t - 1] == b.txs[t];
    assert {} + SpentBy(b.txs[1..t]) == SpentBy(b.txs[1..t]);
    TxsFault(w, p, m, txs, b.header.height, Claim({}, 0), t - 1, i);
    hide CheckTxs, FirstFault, Fresh, AllSpendable, Covers, AllPay, Effect;
  }

  // ---- What is signed -------------------------------------------------------

  /** The hash that inputs sign commits to the outpoints spent, in order, to the outputs and to the payload, and not to
      the unlocking scripts or the id. */
  lemma SignedFields(w: World, tx: Transaction, blanked: seq<TxInput>)
    requires |blanked| == |tx.inputs|
    requires forall i :: 0 <= i < |blanked| ==> blanked[i].prev == tx.inputs[i].prev && blanked[i].sigScript == []
    ensures w.SignatureHash(tx) == w.txHash(blanked, tx.outputs, tx.payload)
  {
    assert blanked == seq(|tx.inputs|, i requires 0 <= i < |tx.inputs| => TxInput(tx.inputs[i].prev, []));
  }

  /** The Merkle root commits to the ids, in order. */
  lemma RootOfIds(w: World, txs: seq<Transaction>, ids: seq<Hash256>)
    requires |ids| == |txs| && forall i :: 0 <= i < |ids| ==> ids[i] == txs[i].id
    ensures w.MerkleRoot(txs) == if ids == [] then ZERO else w.merkleOfIds(ids)
  {
    assert txs != [] ==> ids == seq(|txs|, i requires 0 <= i < |txs| => txs[i].id);
  }

  // ---- What a block leaves --------------------------------------------------

  /** The transaction creates a spendable output there. */
  predicate Creates(tx: Transaction, op: OutPoint) {
    op.txid == tx.id && op.index < |tx.outputs| && !IsOpReturn(tx.outputs[op.index].script)
  }

  /** Which entry a list of transactions leaves at an outpoint: that of the last one creating it, or what was there. */
  ghost predicate LeavesAt(m: UtxoMap, txs: seq<Transaction>, height: nat, m': UtxoMap, op: OutPoint) {
    && (forall t :: 0 <= t < |txs| && Creates(txs[t], op) && (forall u :: t < u < |txs| ==> !Creates(txs[u], op)) ==>
          op in m' && m'[op] == UtxoEntry(txs[t].outputs[op.index], height, txs[t].IsCoinbase()))
    && ((forall t :: 0 <= t < |txs| ==> !Creates(txs[t], op)) ==>
          (op in m' <==> op in m) && (op in m ==> m'[op] == m[op]))
  }

  lemma {:induction false} AddOutputsAt(m: UtxoMap, tx: Transaction, height: nat, n: nat, op: OutPoint)
    requires n <= |tx.outputs|
    ensures var m' := AddOutputs(m, tx, height, n);
            if Creates(tx, op) && op.index < n
            then op in m' && m'[op] == UtxoEntry(tx.outputs[op.index], height, tx.IsCoinbase())
            else (op in m' <==> op in m) && (op in m ==> m'[op] == m[op])
  {
    if n > 0 { AddOutputsAt(m, tx, height, n - 1, op); }
  }

  lemma LeavesNext(m: UtxoMap, txs: seq<Transaction>, height: nat, rest: UtxoMap, m': UtxoMap, op: OutPoint)
    requires txs != [] && LeavesAt(m, txs[..|txs| - 1], height, rest, op)
    requires var tx := txs[|txs| - 1];
             if Creates(tx, op) then op in m' && m'[op] == UtxoEntry(tx.outputs[op.index], height, tx.IsCoinbase())
             else (op in m' <==> op in rest) && (op in rest ==> m'[op] == rest[op])
    ensures LeavesAt(m, txs, height, m', op)
  {
    var n := |txs| - 1;
    var before := txs[..n];
    if forall t :: 0 <= t < |txs| ==> !Creates(txs[t], op) {
      forall t | 0 <= t < n ensures !Creates(before[t], op) { assert before[t] == txs[t]; }
      assert !Creates(txs[n], op);
    }
    forall t | 0 <= t < |txs| && Creates(txs[t], op) && (forall u :: t < u < |txs| ==> !Creates(txs[u], op))
      ensures op in m' && m'[op] == UtxoEntry(txs[t].outputs[op.index], height, txs[t].IsCoinbase())
    {
      if t < n {
        assert !Creates(txs[n], op) && before[t] == txs[t];
        forall u | t < u < n ensures !Creates(before[u], op) { assert before[u] == txs[u]; }
      }
    }
  }

  lemma {:induction false} AddTxsAt(m: UtxoMap, txs: seq<Transaction>, height: nat, op: OutPoint)
    ensures LeavesAt(m, txs, height, AddTxs(m, txs, height), op)
  {
    hide AddOutputs, LeavesAt;
    if txs == [] {
      NothingLeft(m, height, op);
    } else {
      var n := |txs| - 1;
      AddTxsAt(m, txs[..n], height, op);
      AddOutputsAt(AddTxs(m, txs[..n], height), txs[n], height, |txs[n].outputs|, op);
      LeavesNext(m, txs, height, AddTxs(m, txs[..n], height), AddTxs(m, txs, height), op);
    }
  }

  lemma NothingLeft(m: UtxoMap, height: nat, op: OutPoint)
    ensures LeavesAt(m, [], height, m, op)
  {
  }

  /** One of the block's payments spends it. */
  predicate SpentIn(b: Block, o: OutPoint) {
    exists t, i :: 1 <= t < |b.txs| && i in b.txs[t].inputs && i.prev == o
  }

  /** An accepted block removes exactly the outputs its payments spend, and then puts exactly the spendable outputs of
      its transactions, at its height and marked when they are a coinbase's, later ones over earlier ones. */
  lemma AppliedLeaves(w: World, p: Params, m: UtxoMap, b: Block, op: OutPoint)
    requires ApplyBlock(w, p, m, b).Ok?
    ensures var left := map o | o in m && !SpentIn(b, o) :: m[o];
            LeavesAt(left, b.txs, b.header.height, ApplyBlock(w, p, m, b).value, op)
  {
    var left := map o | o in m && !SpentIn(b, o) :: m[o];
    forall o ensures o in SpentBy(b.txs[1..]) <==> SpentIn(b, o) {
      SpentAt(b, o);
    }
    assert left == m - SpentBy(b.txs[1..]);
    hide CheckBlock, AddTxs, SpentBy, LeavesAt;
    AddTxsAt(left, b.txs, b.header.height, op);
  }

  lemma SpentAt(b: Block, o: OutPoint)
    requires b.txs != []
    ensures o in SpentBy(b.txs[1..]) <==> SpentIn(b, o)
  {
    var txs := b.txs;
    if o in SpentBy(txs[1..]) {
      var tx, i :| tx in txs[1..] && i in tx.inputs && i.prev == o;
      var t :| 0 <= t < |txs| - 1 && txs[1..][t] == tx;
      assert i in txs[t + 1].inputs;
    }
    if t, i :| 1 <= t < |txs| && i in txs[t].inputs && i.prev == o {
      assert txs[1..][t - 1] == txs[t];
    }
  }
}
