/** The pool of unconfirmed payments: admission, eviction, confirmation, and selection for a block. */
module Mempools {
  import opened Prelude
  import opened Types
  import opened Utxo
  import opened UtxoSets

  const MIN_RELAY_FEE: nat := 10_000
  const MAX_TXS: nat := 5_000

  datatype MempoolEntry = MempoolEntry(tx: Transaction, fee: u64)

  type Pending = map<Hash256, MempoolEntry>

  datatype MempoolError =
    | CoinbaseNotAllowed
    | AlreadyPending
    | PendingConflict
    | FeeTooLow
    | MempoolFull
    | InvalidTransaction(error: UtxoError)

  // ---- Pool invariant -------------------------------------------------------

  ghost predicate GoodEntry(key: Hash256, e: MempoolEntry) {
    e.tx.id == key && !e.tx.IsCoinbase() && e.fee >= MIN_RELAY_FEE
  }

  /** The two payments spend a common outpoint. */
  predicate Conflict(a: Transaction, b: Transaction) { !(InputSet(a.inputs) !! InputSet(b.inputs)) }

  /** Pending payments spend disjoint outpoints, pay the relay minimum, and fit the cap. */
  ghost predicate PoolInv(pending: Pending) {
    && |pending| <= MAX_TXS
    && (forall k :: k in pending ==> GoodEntry(k, pending[k]))
    && (forall k, j :: k in pending && j in pending && k != j ==> !Conflict(pending[k].tx, pending[j].tx))
  }

  ghost predicate LowestFee(pending: Pending, low: Hash256) {
    low in pending && forall k :: k in pending ==> pending[low].fee <= pending[k].fee
  }

  /** What a pool may hold after admitting `e` under `key`: the old entries, less one of lowest fee if it was full. */
  ghost predicate Admitted(before: Pending, after: Pending, key: Hash256, e: MempoolEntry) {
    if |before| < MAX_TXS then after == before[key := e]
    else exists low: Hash256 :: LowestFee(before, low) && before[low].fee < e.fee && after == (before - {low})[key := e]
  }

  predicate ConflictsWithPending(pending: Pending, tx: Transaction) {
    exists k :: k in pending && Conflict(tx, pending[k].tx)
  }

  /** Admission keeps the invariant; in particular no two pending payments ever spend the same outpoint. */
  lemma AdmissionKeepsInv(before: Pending, after: Pending, key: Hash256, e: MempoolEntry)
    requires PoolInv(before) && GoodEntry(key, e) && key !in before && !ConflictsWithPending(before, e.tx)
    requires Admitted(before, after, key, e)
    ensures PoolInv(after)
  {
    if |before| >= MAX_TXS {
      var low: Hash256 :| LowestFee(before, low) && before[low].fee < e.fee && after == (before - {low})[key := e];
      assert before == (before - {low})[low := before[low]];
      InsertKeepsInv(before - {low}, key, e);
    } else {
      InsertKeepsInv(before, key, e);
    }
  }

  lemma InsertKeepsInv(pool: Pending, key: Hash256, e: MempoolEntry)
    requires PoolInv(pool) && |pool| < MAX_TXS && key !in pool
    requires GoodEntry(key, e) && !ConflictsWithPending(pool, e.tx)
    ensures PoolInv(pool[key := e])
  {
    forall k | k in pool ensures !Conflict(pool[k].tx, e.tx) {
      assert !Conflict(e.tx, pool[k].tx);
    }
  }

  /** A full pool's minimum fee never falls by admission. */
  lemma FullPoolFloor(before: Pending, after: Pending, key: Hash256, e: MempoolEntry, floor: nat)
    requires |before| >= MAX_TXS && Admitted(before, after, key, e)
    requires forall k :: k in before ==> floor <= before[k].fee
    ensures forall k :: k in after ==> floor <= after[k].fee
  {
  }

  // ---- Confirmation ---------------------------------------------------------

  function Ids(txs: seq<Transaction>): set<Hash256> { set t | t in txs :: t.id }

  /** Confirmed by the block, or spending an outpoint the block spends. */
  predicate Obsolete(txs: seq<Transaction>, key: Hash256, tx: Transaction) {
    || key in Ids(txs)
    || (exists t :: t in txs && Conflict(tx, t))
  }

  function Remaining(pending: Pending, txs: seq<Transaction>): Pending {
    map k | k in pending && !Obsolete(txs, k, pending[k].tx) :: pending[k]
  }

  lemma ConfirmationKeepsInv(pending: Pending, txs: seq<Transaction>)
    requires PoolInv(pending)
    ensures PoolInv(Remaining(pending, txs))
  {
    SubsetSize(Remaining(pending, txs).Keys, pending.Keys);
    assert |Remaining(pending, txs)| == |Remaining(pending, txs).Keys| && |pending| == |pending.Keys|;
  }

  /** What stays, in terms of ids and outpoints: every pending payment, unchanged, whose id no confirmed one has and
      whose inputs no confirmed one spends; the rest goes. */
  lemma RemainsExactly(pending: Pending, txs: seq<Transaction>, key: Hash256)
    ensures var left := Remaining(pending, txs);
            && (key in left <==>
                  && key in pending
                  && forall t :: t in txs ==>
                       && t.id != key
                       && forall i, j :: i in pending[key].tx.inputs && j in t.inputs ==> i.prev != j.prev)
            && (key in left ==> left[key] == pending[key])
  {
    if key in pending {
      var tx := pending[key].tx;
      if key in Ids(txs) {
        var t :| t in txs && t.id == key;
      }
      forall t | t in txs
        ensures Conflict(tx, t) <==> exists i, j :: i in tx.inputs && j in t.inputs && i.prev == j.prev
      {
        ConflictMeans(tx, t);
      }
    }
    hide Conflict;
  }

  lemma ConflictMeans(a: Transaction, b: Transaction)
    ensures Conflict(a, b) <==> exists i, j :: i in a.inputs && j in b.inputs && i.prev == j.prev
  {
    if Conflict(a, b) {
      var op :| op in InputSet(a.inputs) && op in InputSet(b.inputs);
      var i :| i in a.inputs && i.prev == op;
      var j :| j in b.inputs && j.prev == op;
    }
    if i, j :| i in a.inputs && j in b.inputs && i.prev == j.prev {
      assert i.prev in InputSet(a.inputs) && i.prev in InputSet(b.inputs);
    }
  }

  lemma SubsetSize<T>(a: set<T>, b: set<T>)
    requires a <= b
    ensures |a| <= |b|
  {
    assert b == a + (b - a);
  }

  // ---- Runs -----------------------------------------------------------------

  /** One pool operation: an admission that passed every check, or a confirmation. */
  ghost predicate PoolStep(before: Pending, after: Pending) {
    || (exists key, e ::
          key !in before && GoodEntry(key, e) && !ConflictsWithPending(before, e.tx) && Admitted(before, after, key, e))
    || (exists txs :: after == Remaining(before, txs))
  }

  /** Every pool reachable from the empty one keeps the invariant. */
  lemma {:induction false} PoolRun(states: seq<Pending>, i: nat)
    requires i < |states| && states[0] == map[]
    requires forall j :: 0 <= j < |states| - 1 ==> PoolStep(states[j], states[j + 1])
    ensures PoolInv(states[i])
  {
    if i > 0 {
      PoolRun(states, i - 1);
      var before, after := states[i - 1], states[i];
      hide PoolInv, GoodEntry, ConflictsWithPending, Admitted, Remaining;
      if key, e :|
        key !in before && GoodEntry(key, e) && !ConflictsWithPending(before, e.tx) && Admitted(before, after, key, e)
      {
        AdmissionKeepsInv(before, after, key, e);
      } else {
        var txs :| after == Remaining(before, txs);
        ConfirmationKeepsInv(before, txs);
      }
    }
  }

  // ---- Selection ------------------------------------------------------------

  /** All keys once, by fee from high to low. */
  ghost predicate FeeOrder(pending: Pending, order: seq<Hash256>) {
    && (forall k :: k in order <==> k in pending)
    && (forall i, j :: 0 <= i < j < |order| ==> order[i] != order[j])
    && (forall i, j :: 0 <= i < j < |order| ==>
          order[i] in pending && order[j] in pending && pending[order[j]].fee <= pending[order[i]].fee)
  }

  datatype Selection = Selection(txs: seq<Transaction>, fees: u64, spent: set<OutPoint>)

  /** Takes entries in order, skipping any that spends an outpoint already taken. */
  function Greedy(pending: Pending, order: seq<Hash256>): Selection
    requires forall k :: k in order ==> k in pending
  {
    if order == [] then Selection([], 0, {})
    else
      var sel := Greedy(pending, order[..|order| - 1]);
      var e := pending[order[|order| - 1]];
      if InputSet(e.tx.inputs) !! sel.spent then
        Selection(sel.txs + [e.tx], SatAdd(sel.fees, e.fee), sel.spent + InputSet(e.tx.inputs))
      else sel
  }

  /** Pairwise disjoint inputs. */
  ghost predicate Disjoint(txs: seq<Transaction>) {
    forall i, j :: 0 <= i < j < |txs| ==> InputSet(txs[i].inputs) !! InputSet(txs[j].inputs)
  }

  lemma {:induction false} GreedyDisjoint(pending: Pending, order: seq<Hash256>)
    requires forall k :: k in order ==> k in pending
    ensures var sel := Greedy(pending, order);
            Disjoint(sel.txs) && forall tx :: tx in sel.txs ==> InputSet(tx.inputs) <= sel.spent
  {
    if order != [] {
      var init := order[..|order| - 1];
      GreedyDisjoint(pending, init);
      var before, after := Greedy(pending, init), Greedy(pending, order);
      forall i, j | 0 <= i < j < |after.txs| ensures InputSet(after.txs[i].inputs) !! InputSet(after.txs[j].inputs) {
        assert after.txs[i] in before.txs || i == |before.txs|;
      }
    }
  }

  function TxsOf(pending: Pending, order: seq<Hash256>): seq<Transaction>
    requires forall k :: k in order ==> k in pending
  {
    seq(|order|, i requires 0 <= i < |order| => pending[order[i]].tx)
  }

  function FeesOf(pending: Pending, order: seq<Hash256>): nat
    requires forall k :: k in order ==> k in pending
  {
    if order == [] then 0 else FeesOf(pending, order[..|order| - 1]) + pending[order[|order| - 1]].fee
  }

  /** From a valid pool the selection takes every payment, in fee order, with the exact (saturated) fee sum. */
  lemma {:induction false} GreedyTakesAll(pending: Pending, order: seq<Hash256>)
    requires PoolInv(pending)
    requires forall k :: k in order ==> k in pending
    requires forall i, j :: 0 <= i < j < |order| ==> order[i] != order[j]
    ensures Greedy(pending, order).txs == TxsOf(pending, order)
    ensures Greedy(pending, order).fees == Min(FeesOf(pending, order), U64_MAX)
    ensures forall op :: op in Greedy(pending, order).spent ==>
              exists k :: k in order && op in InputSet(pending[k].tx.inputs)
  {
    if order != [] {
      var last := |order| - 1;
      var init, key := order[..last], order[last];
      GreedyTakesAll(pending, init);
      var sel := Greedy(pending, init);
      forall op | op in sel.spent ensures op !in InputSet(pending[key].tx.inputs) {
        var k :| k in init && op in InputSet(pending[k].tx.inputs);
        assert k != key && !Conflict(pending[k].tx, pending[key].tx);
      }
      assert TxsOf(pending, order) == TxsOf(pending, init) + [pending[key].tx];
    }
  }

  /** A greedy selection along some order by falling fee. */
  ghost predicate Selects(pending: Pending, txs: seq<Transaction>, fees: u64) {
    exists order :: FeeOrder(pending, order) && txs == Greedy(pending, order).txs && fees == Greedy(pending, order).fees
  }

  lemma SelectsAll(pending: Pending, order: seq<Hash256>)
    requires PoolInv(pending) && FeeOrder(pending, order)
    ensures var txs := Greedy(pending, order).txs;
            |txs| == |pending| && forall k :: k in pending ==> pending[k].tx in txs
  {
    GreedyTakesAll(pending, order);
    hide PoolInv, Greedy;
    OrderCounts(pending, order);
    forall k | k in pending ensures pending[k].tx in TxsOf(pending, order) {
      var i :| 0 <= i < |order| && order[i] == k;
      assert TxsOf(pending, order)[i] == pending[k].tx;
    }
  }

  lemma OrderCounts(pending: Pending, order: seq<Hash256>)
    requires FeeOrder(pending, order)
    ensures |order| == |pending|
  {
    DistinctSize(order, pending.Keys);
  }

  lemma {:induction false} DistinctSize(order: seq<Hash256>, keys: set<Hash256>)
    requires forall k :: k in order <==> k in keys
    requires forall i, j :: 0 <= i < j < |order| ==> order[i] != order[j]
    ensures |order| == |keys|
  {
    if order == [] {
      assert keys == {};
    } else {
      var n := |order| - 1;
      assert order == order[..n] + [order[n]];
      DistinctSize(order[..n], keys - {order[n]});
    }
  }

  // ---- The pool object ------------------------------------------------------

  class Mempool {
    var pending: Pending

    constructor ()
      ensures pending == map[] && PoolInv(pending)
    {
      pending := map[];
    }

    /** Validates a payment against `utxos` and admits it, or says why not and changes nothing. */
    method Add(w: World, p: Params, utxos: UtxoSet, tx: Transaction, tipHeight: nat)
      returns (r: Result<(), MempoolError>)
      requires PoolInv(pending)
      modifies this
      ensures PoolInv(pending)
      ensures var fee := ValidateTx(w, p, utxos.entries, tx, tipHeight);
              if tx.IsCoinbase() then r == Err(CoinbaseNotAllowed)
              else if tx.id in old(pending) then r == Err(AlreadyPending)
              else if ConflictsWithPending(old(pending), tx) then r == Err(PendingConflict)
              else if fee.Err? then r == Err(InvalidTransaction(fee.error))
              else if fee.value < MIN_RELAY_FEE then r == Err(FeeTooLow)
              else if |old(pending)| >= MAX_TXS && !(exists k :: k in old(pending) && old(pending)[k].fee < fee.value)
              then r == Err(MempoolFull)
              else r == Ok(()) && Admitted(old(pending), pending, tx.id, MempoolEntry(tx, fee.value))
      ensures r.Err? ==> pending == old(pending)
    {
      if tx.IsCoinbase() { return Err(CoinbaseNotAllowed); }
      if tx.id in pending { return Err(AlreadyPending); }
      if ConflictsWithPending(pending, tx) { return Err(PendingConflict); }
      var checked := utxos.ValidateTransaction(w, p, tx, tipHeight);
      if checked.Err? { return Err(InvalidTransaction(checked.error)); }
      var fee := checked.value;
      if fee < MIN_RELAY_FEE { return Err(FeeTooLow); }
      var entry := MempoolEntry(tx, fee);
      if |pending| >= MAX_TXS {
        var low := Lowest();
        if fee <= pending[low].fee { return Err(MempoolFull); }
        AdmissionKeepsInv(pending, (pending - {low})[tx.id := entry], tx.id, entry);
        pending := pending - {low};
      } else {
        AdmissionKeepsInv(pending, pending[tx.id := entry], tx.id, entry);
      }
      pending := pending[tx.id := entry];
      return Ok(());
    }

    /** A key of lowest fee; which one, among equals, is unspecified. */
    method Lowest() returns (low: Hash256)
      requires pending != map[]
      ensures LowestFee(pending, low)
    {
      low :| low in pending;
      var left := pending.Keys - {low};
      while left != {}
        invariant low in pending && left <= pending.Keys
        invariant forall k :: k in pending && k !in left ==> pending[low].fee <= pending[k].fee
        decreases |left|
      {
        var k :| k in left;
        if pending[k].fee < pending[low].fee { low := k; }
        left := left - {k};
      }
    }

    /** Drops what a block confirmed and what now double-spends it. */
    method RemoveConfirmed(b: Block)
      requires PoolInv(pending)
      modifies this
      ensures PoolInv(pending) && pending == Remaining(old(pending), b.txs)
    {
      ConfirmationKeepsInv(pending, b.txs);
      hide PoolInv;
      var ids, spent := ConfirmedBy(b);
      forall k | k in pending
        ensures Obsolete(b.txs, k, pending[k].tx) <==> k in ids || !(InputSet(pending[k].tx.inputs) !! spent)
      {
        ObsoleteBySets(b.txs, k, pending[k].tx);
      }
      hide Obsolete, Ids, SpentBy, InputSet;
      ghost var kept := Remaining(pending, b.txs);
      pending := map k | k in pending && !(k in ids || !(InputSet(pending[k].tx.inputs) !! spent)) :: pending[k];
      assert pending == kept;
    }

    method ConfirmedBy(b: Block) returns (ids: set<Hash256>, spent: set<OutPoint>)
      ensures ids == Ids(b.txs) && spent == SpentBy(b.txs)
    {
      ids, spent := {}, {};
      var n := 0;
      while n < |b.txs|
        invariant 0 <= n <= |b.txs|
        invariant ids == Ids(b.txs[..n]) && spent == SpentBy(b.txs[..n])
      {
        SpentBySnoc(b.txs[..n], b.txs[n]);
        assert b.txs[..n + 1] == b.txs[..n] + [b.txs[n]];
        ids := ids + {b.txs[n].id};
        spent := spent + InputSet(b.txs[n].inputs);
        n := n + 1;
      }
      assert b.txs[..n] == b.txs;
    }

    /** The payments for the next block, highest fee first, and their fees: everything, from a pool that keeps the
        invariant. */
    method SelectForBlock() returns (txs: seq<Transaction>, fees: u64)
      ensures Selects(pending, txs, fees) && Disjoint(txs)
      ensures PoolInv(pending) ==> |txs| == |pending| && forall k :: k in pending ==> pending[k].tx in txs
    {
      var sorted := SortByFee();
      var spent: set<OutPoint> := {};
      txs, fees := [], 0;
      var i := 0;
      while i < |sorted|
        invariant 0 <= i <= |sorted|
        invariant Greedy(pending, sorted[..i]) == Selection(txs, fees, spent)
      {
        assert sorted[..i + 1][..i] == sorted[..i];
        var e := pending[sorted[i]];
        if InputSet(e.tx.inputs) !! spent {
          spent := spent + InputSet(e.tx.inputs);
          fees := SatAdd(fees, e.fee);
          txs := txs + [e.tx];
        }
        i := i + 1;
      }
      assert sorted[..i] == sorted;
      GreedyDisjoint(pending, sorted);
      if PoolInv(pending) { SelectsAll(pending, sorted); }
      hide PoolInv, Greedy;
    }

    /** Some ordering of the keys by fee from high to low. */
    method SortByFee() returns (order: seq<Hash256>)
      ensures FeeOrder(pending, order)
    {
      order := [];
      var left := pending.Keys;
      while left != {}
        invariant left <= pending.Keys
        invariant forall k :: k in order <==> k in pending && k !in left
        invariant forall i, j :: 0 <= i < j < |order| ==> order[i] != order[j]
        invariant forall i, j :: 0 <= i < j < |order| ==> pending[order[j]].fee <= pending[order[i]].fee
        invariant forall i, k :: 0 <= i < |order| && k in left ==> pending[k].fee <= pending[order[i]].fee
        decreases |left|
      {
        var top :| top in left;
        var rest := left - {top};
        while rest != {}
          invariant top in left && rest <= left
          invariant forall k :: k in left && k !in rest ==> pending[k].fee <= pending[top].fee
          decreases |rest|
        {
          var k :| k in rest;
          if pending[k].fee > pending[top].fee { top := k; }
          rest := rest - {k};
        }
        order := order + [top];
        left := left - {top};
      }
    }
  }

  lemma ObsoleteBySets(txs: seq<Transaction>, key: Hash256, tx: Transaction)
    ensures Obsolete(txs, key, tx) <==> key in Ids(txs) || !(InputSet(tx.inputs) !! SpentBy(txs))
  {
    if op :| op in InputSet(tx.inputs) && op in SpentBy(txs) {
      var t, j :| t in txs && j in t.inputs && j.prev == op;
      assert op in InputSet(t.inputs);
    }
    if t :| t in txs && Conflict(tx, t) {
      var op :| op in InputSet(tx.inputs) && op in InputSet(t.inputs);
      assert op in SpentBy(txs);
    }
  }
}
