/** After a reorganisation, the payments that only the abandoned branch confirmed go back to the pool. */
module Requeues {
  import opened Prelude
  import opened Types
  import opened Utxo
  import opened UtxoSets
  import opened ForkChoice
  import opened Mempools
  import opened ChainStates
  import opened Templates

  /** The payment pays the relay minimum and validates against `m`. */
  predicate Relayable(w: World, p: Params, m: UtxoMap, tx: Transaction, tipHeight: nat) {
    && !tx.IsCoinbase()
    && ValidateTx(w, p, m, tx, tipHeight).Ok? && ValidateTx(w, p, m, tx, tipHeight).value >= MIN_RELAY_FEE
  }

  /** What is pending was pending before, or is a readmitted payment, valid against `m`, with its fee. */
  ghost predicate OnlyReadmitted(w: World, p: Params, m: UtxoMap, before: Pending, after: Pending,
                                 txs: seq<Transaction>, tipHeight: nat)
  {
    forall k :: k in after ==>
      || (k in before && after[k] == before[k])
      || (after[k].tx in txs && ValidateTx(w, p, m, after[k].tx, tipHeight) == Ok(after[k].fee))
  }

  /** Every payment is pending, or in conflict with something pending, or no longer relayable. */
  ghost predicate NoneDropped(w: World, p: Params, m: UtxoMap, after: Pending, txs: seq<Transaction>, tipHeight: nat) {
    forall tx :: tx in txs ==> tx.id in after || ConflictsWithPending(after, tx) || !Relayable(w, p, m, tx, tipHeight)
  }

  lemma ReadmittedGrows(w: World, p: Params, m: UtxoMap, before: Pending, pending: Pending, after: Pending,
                        txs: seq<Transaction>, tx: Transaction, fee: u64, tipHeight: nat)
    requires OnlyReadmitted(w, p, m, before, pending, txs, tipHeight)
    requires after == pending
             || (Admitted(pending, after, tx.id, MempoolEntry(tx, fee))
                 && ValidateTx(w, p, m, tx, tipHeight) == Ok(fee))
    ensures OnlyReadmitted(w, p, m, before, after, txs + [tx], tipHeight)
  {
    hide ValidateTx;
    forall k | k in after
      ensures (k in before && after[k] == before[k])
           || (after[k].tx in txs + [tx] && ValidateTx(w, p, m, after[k].tx, tipHeight) == Ok(after[k].fee))
    {
      assert (k in pending && after[k] == pending[k]) || after[k] == MempoolEntry(tx, fee);
    }
  }

  /** In a pool that only grows, what was excused stays excused. */
  lemma NoneDroppedGrows(w: World, p: Params, m: UtxoMap, pending: Pending, after: Pending, txs: seq<Transaction>,
                         tx: Transaction, tipHeight: nat)
    requires NoneDropped(w, p, m, pending, txs, tipHeight)
    requires forall k :: k in pending ==> k in after && after[k] == pending[k]
    requires tx.id in after || ConflictsWithPending(after, tx) || !Relayable(w, p, m, tx, tipHeight)
    ensures NoneDropped(w, p, m, after, txs + [tx], tipHeight)
  {
    hide Relayable;
    forall t | t in txs + [tx]
      ensures t.id in after || ConflictsWithPending(after, t) || !Relayable(w, p, m, t, tipHeight)
    {
      if t != tx && ConflictsWithPending(pending, t) {
        var k :| k in pending && Conflict(t, pending[k].tx);
        assert k in after && Conflict(t, after[k].tx);
      }
    }
  }

  /** Tries one payment against the live set. */
  method RequeueOne(w: World, p: Params, state: ChainState, pool: Mempool, tx: Transaction, tipHeight: nat)
    returns (fee: Option<u64>)
    requires PoolInv(pool.pending)
    modifies pool
    ensures PoolInv(pool.pending)
    ensures fee.Some? ==>
              && tx.id !in old(pool.pending) && ValidateTx(w, p, state.utxo, tx, tipHeight) == Ok(fee.value)
              && Admitted(old(pool.pending), pool.pending, tx.id, MempoolEntry(tx, fee.value))
    ensures fee.None? ==>
              && pool.pending == old(pool.pending)
              && (|pool.pending| < MAX_TXS ==>
                    tx.id in pool.pending || ConflictsWithPending(pool.pending, tx)
                      || !Relayable(w, p, state.utxo, tx, tipHeight))
  {
    hide PoolInv, ValidateTx, ConflictsWithPending, Admitted;
    SeededTx(w, p, state.utxo, tx, tipHeight);
    var seed := SeedUtxosForTx(state, tx);
    var added := pool.Add(w, p, seed, tx, tipHeight);
    if added.Err? { return None; }
    fee := Some(ValidateTx(w, p, seed.entries, tx, tipHeight).value);
  }

  /** Readmits the payments of the disconnected blocks that the new chain still allows. While the pool has room for all
      of them, none is dropped without reason and nothing pending is evicted. */
  method RequeueReorged(w: World, p: Params, state: ChainState, pool: Mempool) returns (requeued: nat)
    requires PoolInv(pool.pending)
    modifies state, pool
    ensures PoolInv(pool.pending) && state.View() == old(state.View()).(disconnected := [])
    ensures var txs := RequeueCandidates(old(state.lastDisconnected));
            var tipHeight := if state.heightCache.Some? then state.heightCache.value else 0;
            && requeued <= |txs|
            && OnlyReadmitted(w, p, state.utxo, old(pool.pending), pool.pending, txs, tipHeight)
            && (|old(pool.pending)| + |txs| <= MAX_TXS ==>
                  && (forall k :: k in old(pool.pending) ==>
                        k in pool.pending && pool.pending[k] == old(pool.pending)[k])
                  && |pool.pending| == |old(pool.pending)| + requeued
                  && NoneDropped(w, p, state.utxo, pool.pending, txs, tipHeight))
  {
    hide PoolInv, ValidateTx, RequeueCandidates, OnlyReadmitted, NoneDropped, Relayable, ConflictsWithPending;
    var txs := state.TakeReorgRequeueCandidates();
    requeued := 0;
    var tipHeight := if state.heightCache.Some? then state.heightCache.value else 0;
    ghost var before := pool.pending;
    NothingTried(w, p, state.utxo, before, tipHeight);
    var i := 0;
    while i < |txs|
      invariant 0 <= i <= |txs| && requeued <= i
      invariant PoolInv(pool.pending) && state.View() == old(state.View()).(disconnected := [])
      invariant OnlyReadmitted(w, p, state.utxo, before, pool.pending, txs[..i], tipHeight)
      invariant |before| + |txs| <= MAX_TXS ==>
                  && (forall k :: k in before ==> k in pool.pending && pool.pending[k] == before[k])
                  && |pool.pending| == |before| + requeued
                  && NoneDropped(w, p, state.utxo, pool.pending, txs[..i], tipHeight)
    {
      ghost var pending := pool.pending;
      assert txs[..i + 1] == txs[..i] + [txs[i]];
      var fee := RequeueOne(w, p, state, pool, txs[i], tipHeight);
      var paid := if fee.Some? then fee.value else 0;
      ReadmittedGrows(w, p, state.utxo, before, pending, pool.pending, txs[..i], txs[i], paid, tipHeight);
      if fee.Some? { requeued := requeued + 1; }
      if |before| + |txs| <= MAX_TXS {
        NoneDroppedGrows(w, p, state.utxo, pending, pool.pending, txs[..i], txs[i], tipHeight);
      }
      i := i + 1;
    }
    assert txs[..i] == txs;
  }

  lemma NothingTried(w: World, p: Params, m: UtxoMap, pending: Pending, tipHeight: nat)
    ensures OnlyReadmitted(w, p, m, pending, pending, [], tipHeight) && NoneDropped(w, p, m, pending, [], tipHeight)
  {
  }
}
