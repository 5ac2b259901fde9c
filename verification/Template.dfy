/** Block templates: what is selected, revalidated and credited is accepted when mined. */
module Templates {
  import opened Prelude
  import opened Types
  import opened Emission
  import opened Utxo
  import opened UtxoSets
  import opened Validation
  import opened Store
  import opened Difficulty
  import opened ForkChoice
  import opened Consensus
  import opened Runs
  import opened Submission
  import opened Mempools
  import opened ChainStates

  datatype Extra = Extra(txs: seq<Transaction>, fees: u64)

  /** Keeps the transactions that validate at the tip, with their recomputed fees. */
  function Revalidate(w: World, p: Params, m: UtxoMap, txs: seq<Transaction>, tipHeight: nat): Extra
  {
    if txs == [] then Extra([], 0)
    else
      var kept := Revalidate(w, p, m, txs[..|txs| - 1], tipHeight);
      var tx := txs[|txs| - 1];
      match ValidateTx(w, p, m, tx, tipHeight)
      case Ok(fee) => Extra(kept.txs + [tx], SatAdd(kept.fees, fee))
      case Err(_) => kept
  }

  /** `at` names, in order, the transactions that validate; exactly those are kept, with their fees together. */
  ghost predicate KeepsValid(w: World, p: Params, m: UtxoMap, txs: seq<Transaction>, tipHeight: nat, kept: Extra,
                             at: seq<nat>)
  {
    && |at| == |kept.txs|
    && (forall i, j :: 0 <= i < j < |at| ==> at[i] < at[j])
    && (forall j :: 0 <= j < |at| ==> at[j] < |txs| && kept.txs[j] == txs[at[j]])
    && (forall i :: 0 <= i < |txs| ==> (i in at <==> ValidateTx(w, p, m, txs[i], tipHeight).Ok?))
    && kept.fees == Min(FeeTotal(w, p, m, kept.txs, tipHeight), U64_MAX)
  }

  function FeeTotal(w: World, p: Params, m: UtxoMap, txs: seq<Transaction>, tipHeight: nat): nat {
    if txs == [] then 0
    else
      var fee := ValidateTx(w, p, m, txs[|txs| - 1], tipHeight);
      FeeTotal(w, p, m, txs[..|txs| - 1], tipHeight) + if fee.Ok? then fee.value else 0
  }

  lemma KeepsNext(w: World, p: Params, m: UtxoMap, txs: seq<Transaction>, tipHeight: nat, kept: Extra, at: seq<nat>)
    requires txs != [] && KeepsValid(w, p, m, txs[..|txs| - 1], tipHeight, kept, at)
    ensures var n, fee := |txs| - 1, ValidateTx(w, p, m, txs[|txs| - 1], tipHeight);
            if fee.Ok?
            then KeepsValid(w, p, m, txs, tipHeight, Extra(kept.txs + [txs[n]], SatAdd(kept.fees, fee.value)), at + [n])
            else KeepsValid(w, p, m, txs, tipHeight, kept, at)
  {
    hide ValidateTx;
    var n := |txs| - 1;
    forall j | 0 <= j < |at| ensures at[j] < n { assert at[j] < |txs[..n]|; }
    forall i | 0 <= i < n
      ensures i in at <==> ValidateTx(w, p, m, txs[i], tipHeight).Ok?
    {
      assert txs[..n][i] == txs[i];
    }
    assert n !in at;
    assert (kept.txs + [txs[n]])[..|kept.txs|] == kept.txs;
  }

  /** No valid payment is dropped, no invalid one is kept, their order stays, and their fees add up. */
  lemma {:induction false} RevalidateExactly(w: World, p: Params, m: UtxoMap, txs: seq<Transaction>, tipHeight: nat)
    returns (at: seq<nat>)
    ensures KeepsValid(w, p, m, txs, tipHeight, Revalidate(w, p, m, txs, tipHeight), at)
  {
    at := [];
    if txs != [] {
      hide ValidateTx, KeepsValid;
      var n := |txs| - 1;
      at := RevalidateExactly(w, p, m, txs[..n], tipHeight);
      KeepsNext(w, p, m, txs, tipHeight, Revalidate(w, p, m, txs[..n], tipHeight), at);
      if ValidateTx(w, p, m, txs[n], tipHeight).Ok? { at := at + [n]; }
    }
  }

  // ---- A transaction valid at the tip is valid in the next block -------------

  lemma {:induction false} InputsLater(w: World, p: Params, m: UtxoMap, inputs: seq<TxInput>, sigHash: Hash256,
                                       height: nat, later: nat, acc: Claim, seen: set<OutPoint>)
    requires w.ScriptsMonotone() && height <= later && InputSet(inputs) !! seen
    requires CheckInputs(w, p, m, inputs, sigHash, height, acc).Ok?
    ensures CheckInputs(w, p, m, inputs, sigHash, later, Claim(acc.seen + seen, acc.sum)).Ok?
    ensures CheckInputs(w, p, m, inputs, sigHash, later, Claim(acc.seen + seen, acc.sum)).value.sum
         == CheckInputs(w, p, m, inputs, sigHash, height, acc).value.sum
    decreases |inputs|
  {
    if inputs != [] {
      var input := inputs[0];
      assert input in inputs && input.prev in InputSet(inputs);
      assert InputSet(inputs[1..]) <= InputSet(inputs);
      var acc' := Claim(acc.seen + {input.prev}, SatAdd(acc.sum, m[input.prev].output.value));
      InputsLater(w, p, m, inputs[1..], sigHash, height, later, acc', seen);
      assert acc.seen + {input.prev} + seen == acc.seen + seen + {input.prev};
    }
  }

  lemma TxLater(w: World, p: Params, m: UtxoMap, tx: Transaction, height: nat, later: nat, seen: set<OutPoint>)
    requires w.ScriptsMonotone() && height <= later && InputSet(tx.inputs) !! seen
    requires ValidateTx(w, p, m, tx, height).Ok?
    ensures CheckTx(w, p, m, tx, later, seen)
         == Ok(Claim(seen + InputSet(tx.inputs), ValidateTx(w, p, m, tx, height).value))
  {
    InputsLater(w, p, m, tx.inputs, w.SignatureHash(tx), height, later, Claim({}, 0), seen);
    assert {} + seen == seen;
    CheckInputsClaims(w, p, m, tx.inputs, w.SignatureHash(tx), later, Claim(seen, 0));
  }

  lemma {:induction false} CheckTxsConcat(w: World, p: Params, m: UtxoMap, a: seq<Transaction>, b: seq<Transaction>,
                                          height: nat, acc: Claim)
    requires CheckTxs(w, p, m, a, height, acc).Ok?
    ensures CheckTxs(w, p, m, a + b, height, acc)
              == CheckTxs(w, p, m, b, height, CheckTxs(w, p, m, a, height, acc).value)
    decreases |a|
  {
    if a == [] {
      assert a + b == b;
    } else {
      assert (a + b)[0] == a[0] && (a + b)[1..] == a[1..] + b;
      var c := CheckTx(w, p, m, a[0], height, acc.seen).value;
      CheckTxsConcat(w, p, m, a[1..], b, height, Claim(c.seen, SatAdd(acc.sum, c.sum)));
    }
  }

  lemma DisjointPrefix(txs: seq<Transaction>)
    requires Disjoint(txs) && txs != []
    ensures Disjoint(txs[..|txs| - 1])
    ensures InputSet(txs[|txs| - 1].inputs) !! SpentBy(txs[..|txs| - 1])
  {
    var n := |txs| - 1;
    forall op | op in SpentBy(txs[..n]) ensures op !in InputSet(txs[n].inputs) {
      var tx, j :| tx in txs[..n] && j in tx.inputs && j.prev == op;
      var i :| 0 <= i < n && txs[i] == tx;
      assert op in InputSet(txs[i].inputs);
    }
  }

  /** Survivors of revalidation pass the whole-block check at any later height, together, with exactly their fees. */
  lemma {:induction false} RevalidatedCheck(w: World, p: Params, m: UtxoMap, txs: seq<Transaction>, tipHeight: nat,
                                            later: nat)
    requires w.ScriptsMonotone() && tipHeight <= later && Disjoint(txs)
    ensures var extra := Revalidate(w, p, m, txs, tipHeight);
            var c := CheckTxs(w, p, m, extra.txs, later, Claim({}, 0));
            c.Ok? && c.value.sum == extra.fees && c.value.seen <= SpentBy(txs)
  {
    if txs != [] {
      var init, tx := txs[..|txs| - 1], txs[|txs| - 1];
      DisjointPrefix(txs);
      RevalidatedCheck(w, p, m, init, tipHeight, later);
      assert txs == init + [tx];
      SpentBySnoc(init, tx);
      if ValidateTx(w, p, m, tx, tipHeight).Ok? {
        var kept := Revalidate(w, p, m, init, tipHeight);
        var c := CheckTxs(w, p, m, kept.txs, later, Claim({}, 0)).value;
        TxLater(w, p, m, tx, tipHeight, later, c.seen);
        CheckTxsConcat(w, p, m, kept.txs, [tx], later, Claim({}, 0));
        CheckSingle(w, p, m, tx, later, c);
      }
    }
  }

  lemma CheckSingle(w: World, p: Params, m: UtxoMap, tx: Transaction, height: nat, acc: Claim)
    requires CheckTx(w, p, m, tx, height, acc.seen).Ok?
    ensures var c := CheckTx(w, p, m, tx, height, acc.seen).value;
            CheckTxs(w, p, m, [tx], height, acc) == Ok(Claim(c.seen, SatAdd(acc.sum, c.sum)))
  {
    var c := CheckTx(w, p, m, tx, height, acc.seen).value;
    assert CheckTxs(w, p, m, [], height, Claim(c.seen, SatAdd(acc.sum, c.sum)))
             == Ok(Claim(c.seen, SatAdd(acc.sum, c.sum)));
    assert [tx][1..] == [];
  }

  // ---- Main theorems --------------------------------------------------------

  /** The template built from any list of payments with disjoint inputs. */
  function Template(w: World, p: Params, m: UtxoMap, tip: Block, timestamp: nat, miner: string,
                    selected: seq<Transaction>, bits: u8): Block
  {
    var extra := Revalidate(w, p, m, selected, tip.header.height);
    WithBits(Candidate(w, p, Some(tip), timestamp, miner, extra.txs, extra.fees), bits, 0)
  }

  /** A template on a tip holds exactly the payments that validate, and pays the subsidy and their fees, all of them and
      nothing else, to the miner who asked for it, at the time given. */
  lemma TemplatePays(w: World, p: Params, m: UtxoMap, tip: Block, timestamp: nat, miner: string,
                     selected: seq<Transaction>, bits: u8)
    returns (at: seq<nat>)
    ensures var t := Template(w, p, m, tip, timestamp, miner, selected, bits);
            && Frames(w, p, t, Some(tip), timestamp, t.txs[1..]) && t.header.bits == bits && t.header.nonce == 0
            && KeepsValid(w, p, m, selected, tip.header.height,
                          Extra(t.txs[1..], Min(FeeTotal(w, p, m, t.txs[1..], tip.header.height), U64_MAX)), at)
            && PaysAll(w, t.txs[0].outputs,
                       SatAdd(Reward(p, tip.header.height + 1),
                              Min(FeeTotal(w, p, m, t.txs[1..], tip.header.height), U64_MAX)), miner)
  {
    var extra := Revalidate(w, p, m, selected, tip.header.height);
    at := RevalidateExactly(w, p, m, selected, tip.header.height);
    CandidatePays(w, p, Some(tip), timestamp, miner, extra.txs, extra.fees);
    assert extra.fees == Min(FeeTotal(w, p, m, extra.txs, tip.header.height), U64_MAX);
    hide Candidate, Revalidate, Reward, SatAdd, FeeTotal, PaysAll, KeepsValid;
  }

  /** Any template passes block application on the tip's UTXO set: maturity, double spends and the coinbase limit
      included. */
  lemma TemplateApplies(w: World, p: Params, m: UtxoMap, tip: Block, timestamp: nat, miner: string,
                        selected: seq<Transaction>, bits: u8)
    requires p.WellFormed() && w.ScriptsMonotone() && Disjoint(selected)
    ensures ApplyBlock(w, p, m, Template(w, p, m, tip, timestamp, miner, selected, bits)).Ok?
  {
    var extra := Revalidate(w, p, m, selected, tip.header.height);
    RevalidatedCheck(w, p, m, selected, tip.header.height, tip.header.height + 1);
    CandidateApplies(w, p, m, Some(tip), timestamp, miner, extra.txs, extra.fees);
  }

  /** A template mined on the tip breaks no rule of the node that built it. */
  lemma TemplateValid(w: World, p: Params, m: UtxoMap, tip: Block, timestamp: nat, miner: string,
                      selected: seq<Transaction>, bits: u8,
                      nonce: nat, now: nat, seed: Hash256)
    requires p.WellFormed() && timestamp <= now + p.maxFuture
    requires var t := Template(w, p, m, tip, timestamp, miner, selected, bits);
             w.meetsWork(t.header.(nonce := nonce), seed)
    ensures var b := WithBits(Template(w, p, m, tip, timestamp, miner, selected, bits), bits, nonce);
            && b.header.prev == w.BlockHash(tip) && b.header.bits == bits
            && ValidateBlock(w, p, Some(tip), b, now, bits, seed).None?
  {
    var extra := Revalidate(w, p, m, selected, tip.header.height);
    CandidateCoinbase(w, p, Some(tip), timestamp, miner, extra.txs, extra.fees);
    hide CoinbaseTx, GenesisCoinbaseTx, Revalidate;
  }

  /** The template a node with state `s` hands out, with a nonce filled in. */
  ghost function Mined(w: World, p: Params, s: State, timestamp: nat, miner: string, selected: seq<Transaction>,
                       nonce: nat)
    : Block
    requires p.WellFormed() && Inv(w, p, s) && s.tipCache.Some?
  {
    var bits := RequiredBits(p, Best(w, s));
    WithBits(Template(w, p, s.utxo, s.tipCache.value, timestamp, miner, selected, bits), bits, nonce)
  }

  lemma MinedFits(w: World, p: Params, s: State, timestamp: nat, miner: string, selected: seq<Transaction>, nonce: nat)
    requires p.WellFormed() && w.ScriptsMonotone() && Disjoint(selected)
    requires Inv(w, p, s) && s.tipCache.Some? && s.utxoTip == s.metaTip
    ensures var b := Mined(w, p, s, timestamp, miner, selected, nonce);
            s.metaTip == Some(b.header.prev) && ApplyBlock(w, p, s.utxo, b).Ok?
  {
    TipFactsFor(w, p, s);
    var bits := RequiredBits(p, Best(w, s));
    var t := Template(w, p, s.utxo, s.tipCache.value, timestamp, miner, selected, bits);
    TemplateApplies(w, p, s.utxo, s.tipCache.value, timestamp, miner, selected, bits);
    assert ApplyBlock(w, p, s.utxo, Mined(w, p, s, timestamp, miner, selected, nonce)) == ApplyBlock(w, p, s.utxo, t);
    hide Inv, ApplyBlock, RequiredBits, Revalidate;
  }

  /** Mined with a nonce that meets its target, the template is accepted and becomes the tip if and only if no block is
      stored under its hash; otherwise it is taken for a known block. */
  lemma MinedTemplateBecomesTip(w: World, p: Params, s: State, timestamp: nat, miner: string,
                                selected: seq<Transaction>, nonce: nat, now: nat)
    requires p.WellFormed() && w.ScriptsMonotone() && Disjoint(selected)
    requires Inv(w, p, s) && s.tipCache.Some? && s.utxoTip == s.metaTip && timestamp <= now + p.maxFuture
    requires var b := Mined(w, p, s, timestamp, miner, selected, nonce);
             w.meetsWork(b.header, EpochSeed(w, s, b.header.height)) && Work(Best(w, s) + [b]) <= U128_MAX
    ensures var b := Mined(w, p, s, timestamp, miner, selected, nonce);
            var (r, s') := Submit(w, p, s, b, now);
            && (r == Ok(b) && s'.metaTip == Some(w.BlockHash(b)) <==> w.BlockHash(b) !in s.blocks)
            && (w.BlockHash(b) in s.blocks ==> r == Err(AlreadyKnown) && s' == s)
  {
    var bits := RequiredBits(p, Best(w, s));
    var tip := s.tipCache.value;
    var b := Mined(w, p, s, timestamp, miner, selected, nonce);
    MinedFits(w, p, s, timestamp, miner, selected, nonce);
    TipFactsFor(w, p, s);
    hide Inv, Template, ApplyBlock, RequiredBits, EpochSeed, Submit;
    var seed := EpochSeed(w, s, b.header.height);
    TemplateValid(w, p, s.utxo, tip, timestamp, miner, selected, bits, nonce, now, seed);
    if w.BlockHash(b) in s.blocks {
      ResubmitIgnored(w, p, s, b, now);
    } else {
      var n := Naive(s.blocks, s.metaTip.value);
      SubmitRefines(w, p, s, n, b, now);
      NaiveExtends(w, p, n, s.utxo, b, now, seed);
    }
  }

  /** And with no replayable block above the tip and no hash collision, none is stored there. */
  lemma MinedTemplateIsNew(w: World, p: Params, s: State, timestamp: nat, miner: string,
                           selected: seq<Transaction>, nonce: nat)
    requires p.WellFormed() && w.ScriptsMonotone() && Disjoint(selected)
    requires Inv(w, p, s) && s.tipCache.Some? && s.utxoTip == s.metaTip && Topped(w, p, s, {})
    requires var b := Mined(w, p, s, timestamp, miner, selected, nonce);
             && Work(Best(w, s) + [b]) <= U128_MAX
             && (w.BlockHash(b) in s.blocks ==> s.blocks[w.BlockHash(b)] == b)
    ensures w.BlockHash(Mined(w, p, s, timestamp, miner, selected, nonce)) !in s.blocks
  {
    var b := Mined(w, p, s, timestamp, miner, selected, nonce);
    MinedFits(w, p, s, timestamp, miner, selected, nonce);
    TipFactsFor(w, p, s);
    hide Mined, Template;
    TipChildIsNew(w, p, s, b);
  }

  lemma TipChildIsNew(w: World, p: Params, s: State, b: Block)
    requires p.WellFormed() && Inv(w, p, s) && s.utxoTip == s.metaTip == Some(b.header.prev) && Topped(w, p, s, {})
    requires b.header.prev in s.blocks && Replay(w, p, Best(w, s)) == Ok(s.utxo) && ApplyBlock(w, p, s.utxo, b).Ok?
    requires Work(Best(w, s) + [b]) <= U128_MAX && (w.BlockHash(b) in s.blocks ==> s.blocks[w.BlockHash(b)] == b)
    ensures w.BlockHash(b) !in s.blocks
  {
    if w.BlockHash(b) in s.blocks {
      StoredTipChild(w, p, s.blocks, s.utxo, b);
      assert false;
    }
  }

  /** A stored, applicable child of a block outweighs it and replays. */
  lemma StoredTipChild(w: World, p: Params, blocks: Blocks, utxo: UtxoMap, b: Block)
    requires Closed(w, blocks) && w.BlockHash(b) in blocks && blocks[w.BlockHash(b)] == b && b.header.prev in blocks
    requires Replay(w, p, ChainTo(w, blocks, b.header.prev)) == Ok(utxo) && ApplyBlock(w, p, utxo, b).Ok?
    requires Work(ChainTo(w, blocks, b.header.prev) + [b]) <= U128_MAX
    ensures WorkAt(w, blocks, w.BlockHash(b)) > WorkAt(w, blocks, b.header.prev)
    ensures Replay(w, p, ChainTo(w, blocks, w.BlockHash(b))).Ok?
  {
    assert Filed(w, blocks, w.BlockHash(b));
    ZeroIsNotStored(w, blocks);
    var past := ChainTo(w, blocks, b.header.prev);
    var chain := past + [b];
    assert chain[..|past|] == past && chain[..|chain|] == chain;
    WorkStrict(chain, |past|, |chain|);
    hide ApplyBlock, ChainWork, Work;
  }

  lemma TipFactsFor(w: World, p: Params, s: State)
    requires p.WellFormed() && Inv(w, p, s) && s.metaTip.Some? && s.utxoTip == s.metaTip
    ensures s.metaTip == Some(w.BlockHash(s.tipCache.value)) && s.metaTip.value in s.blocks
    ensures s.blocks[s.metaTip.value] == s.tipCache.value
    ensures StoreInv(w, p, s.blocks) && Replay(w, p, Best(w, s)) == Ok(s.utxo)
  {
    assert Filed(w, s.blocks, s.metaTip.value);
  }

  /** The naive machine adopts a valid, applicable child of the tip. */
  lemma NaiveExtends(w: World, p: Params, n: Naive, utxo: UtxoMap, b: Block, now: nat, seed: Hash256)
    requires p.WellFormed() && StoreInv(w, p, n.blocks) && n.tip in n.blocks
    requires w.BlockHash(b) !in n.blocks && b.header.prev == n.tip
    requires var best := ChainTo(w, n.blocks, n.tip);
             && ValidateBlock(w, p, Some(n.blocks[n.tip]), b, now, RequiredBits(p, best), seed).None?
             && Replay(w, p, best) == Ok(utxo) && ApplyBlock(w, p, utxo, b).Ok?
             && Work(best + [b]) <= U128_MAX
    ensures NaiveSubmit(w, p, n, b, now, seed).0 == Ok(b) && NaiveSubmit(w, p, n, b, now, seed).1.tip == w.BlockHash(b)
  {
    assert Closed(w, n.blocks);
    hide ValidateBlock, RequiredBits, ApplyBlock, StoreInv;
    var best := ChainTo(w, n.blocks, n.tip);
    assert (best + [b])[..|best|] == best && (best + [b])[..|best| + 1] == best + [b];
    WorkStrict(best + [b], |best|, |best| + 1);
  }

  // ---- The node's assembly loop ---------------------------------------------

  /** A set holding just the entries one payment can read. */
  method SeedUtxosForTx(state: ChainState, tx: Transaction) returns (seed: UtxoSet)
    ensures fresh(seed) && seed.entries == Seed(state.utxo, [tx])
  {
    seed := new UtxoSet();
    var k := 0;
    assert SpentBy([tx]) == InputSet(tx.inputs);
    while k < |tx.inputs|
      invariant 0 <= k <= |tx.inputs|
      invariant fresh(seed) && seed.entries == Picked(state.utxo, InputSet(tx.inputs[..k]))
    {
      var op := tx.inputs[k].prev;
      InputSetSnoc(tx.inputs[..k], tx.inputs[k]);
      assert tx.inputs[..k + 1] == tx.inputs[..k] + [tx.inputs[k]];
      PickedAdd(state.utxo, InputSet(tx.inputs[..k]), op);
      if op in state.utxo {
        seed.entries := seed.entries[op := state.utxo[op]];
      }
      k := k + 1;
    }
    assert tx.inputs[..k] == tx.inputs;
  }

  method RevalidateAll(w: World, p: Params, state: ChainState, txs: seq<Transaction>, tipHeight: nat)
    returns (kept: seq<Transaction>, fees: u64)
    ensures Extra(kept, fees) == Revalidate(w, p, state.utxo, txs, tipHeight)
  {
    kept, fees := [], 0;
    var i := 0;
    while i < |txs|
      invariant 0 <= i <= |txs|
      invariant Extra(kept, fees) == Revalidate(w, p, state.utxo, txs[..i], tipHeight)
    {
      assert txs[..i + 1][..i] == txs[..i];
      SeededTx(w, p, state.utxo, txs[i], tipHeight);
      var seed := SeedUtxosForTx(state, txs[i]);
      var fee := seed.ValidateTransaction(w, p, txs[i], tipHeight);
      if fee.Ok? {
        fees := SatAdd(fees, fee.value);
        kept := kept + [txs[i]];
      }
      i := i + 1;
    }
    assert txs[..i] == txs;
  }

  /** The block-template endpoint: select, revalidate each payment against the live set, credit the fees. */
  method AssembleTemplate(w: World, p: Params, state: ChainState, pool: Mempool, timestamp: nat, miner: string)
    returns (r: Result<Block, StateError>, ghost selected: seq<Transaction>)
    requires state.Valid(w, p)
    modifies state
    ensures state.Valid(w, p) && state.utxoTip == state.metaTip
    ensures Disjoint(selected) && exists fees :: Selects(pool.pending, selected, fees)
    ensures r == if state.tipCache.None? then Err(MissingGenesis)
                 else Ok(Template(w, p, state.utxo, state.tipCache.value, timestamp, miner, selected,
                                  RequiredBits(p, Best(w, state.View()))))
  {
    var synced := state.EnsureUtxoSynced(w, p);
    var txs, _ := pool.SelectForBlock();
    selected := txs;
    var tipHeight := if state.heightCache.Some? then state.heightCache.value else 0;
    if state.tipCache.Some? { HeightIsTip(w, p, state.View()); }
    hide Inv, RequiredBits, Candidate, Revalidate, Selects;
    var kept, fees := RevalidateAll(w, p, state, txs, tipHeight);
    r := state.CandidateBlockWithMempool(w, p, timestamp, miner, kept, fees);
  }

  lemma HeightIsTip(w: World, p: Params, s: State)
    requires p.WellFormed() && Inv(w, p, s) && s.tipCache.Some?
    ensures s.heightCache == Some(s.tipCache.value.header.height)
  {
  }
}
