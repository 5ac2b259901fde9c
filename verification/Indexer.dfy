/** The asset indexer: address-bearing outputs, the asset ledger, and each address's history. */
module Indexers {
  import opened Prelude
  import opened Types
  import opened Codec
  import opened Carrier
  import opened Assets

  datatype OpKind = IssueKind | MintKind | TransferKind

  datatype HistoryEntry = HistoryEntry(height: nat, txid: Hash256, kind: OpKind, asset: Hash256, from: string,
                                       to: string, amount: u64)

  type History = map<string, seq<HistoryEntry>>
  type Owners = map<OutPoint, string>

  /** Everything the indexer derives from a chain. */
  datatype Index = Index(ledger: Ledger, outpoints: Owners, history: History, lastHeight: nat,
                         lastHash: Option<Hash256>)

  const EMPTY_INDEX: Index := Index(EMPTY_LEDGER, map[], map[], 0, None)

  // ---- One transaction ------------------------------------------------------

  /** The owners of the first `n` outputs recorded. */
  function RecordOutputs(w: World, owners: Owners, tx: Transaction, n: nat): Owners
    requires n <= |tx.outputs|
  {
    if n == 0 then owners
    else
      var rest := RecordOutputs(w, owners, tx, n - 1);
      match w.extractAddress(tx.outputs[n - 1].script)
      case Some(addr) => rest[OutPoint(tx.id, n - 1) := addr]
      case None => rest
  }

  /** An output of the transaction whose script bears an address belongs to that address now, and any other outpoint to
      whom it did. */
  predicate RecordedAs(w: World, owners: Owners, tx: Transaction, owners': Owners, op: OutPoint) {
    if op.txid == tx.id && op.index < |tx.outputs| && w.extractAddress(tx.outputs[op.index].script).Some?
    then op in owners' && owners'[op] == w.extractAddress(tx.outputs[op.index].script).value
    else (op in owners' <==> op in owners) && (op in owners ==> owners'[op] == owners[op])
  }

  /** So exactly the outputs whose scripts bear an address are recorded. */
  lemma {:induction false} RecordedExactly(w: World, owners: Owners, tx: Transaction, n: nat, op: OutPoint)
    requires n <= |tx.outputs|
    ensures RecordedAs(w, owners, tx.(outputs := tx.outputs[..n]), RecordOutputs(w, owners, tx, n), op)
  {
    if n > 0 { RecordedExactly(w, owners, tx, n - 1, op); }
  }

  /** The owner of the output the first input spends. */
  function ResolveSource(owners: Owners, tx: Transaction): Option<string> {
    if tx.inputs == [] || tx.inputs[0].prev !in owners then None else Some(owners[tx.inputs[0].prev])
  }

  function ResolveDest(w: World, tx: Transaction, op: AssetOp): Option<string> {
    if op.Transfer? && op.dest < |tx.outputs| then w.extractAddress(tx.outputs[op.dest].script) else None
  }

  function HistoryOf(h: History, addr: string): seq<HistoryEntry> { if addr in h then h[addr] else [] }

  function Push(h: History, addr: string, e: HistoryEntry): History { h[addr := HistoryOf(h, addr) + [e]] }

  function EntryFor(height: nat, txid: Hash256, source: string, dest: Option<string>, op: AssetOp): HistoryEntry {
    match op
    case Issue(_, _, supply, _, _) => HistoryEntry(height, txid, IssueKind, txid, source, "", supply)
    case NftMint(_, _, _, _, _) => HistoryEntry(height, txid, MintKind, txid, source, "", 1)
    case Transfer(asset, amount, _) =>
      HistoryEntry(height, txid, TransferKind, asset, source, if dest.Some? then dest.value else "", amount)
  }

  function Record(h: History, e: HistoryEntry): History {
    var h' := Push(h, e.from, e);
    if e.to != "" && e.to != e.from then Push(h', e.to, e) else h'
  }

  ghost predicate IndexInv(ix: Index) { LedgerInv(ix.ledger) && HistoryBalances(ix.ledger, ix.history) }

  function IndexTx(w: World, ix: Index, tx: Transaction, height: nat): Index
    requires LedgerInv(ix.ledger)
  {
    var source := ResolveSource(ix.outpoints, tx);
    var owners := RecordOutputs(w, ix.outpoints, tx, |tx.outputs|);
    match Extract(w.utf8Lossy, tx.outputs)
    case None => ix.(outpoints := owners)
    case Some(op) =>
      if source.None? then ix.(outpoints := owners)
      else
        var dest := ResolveDest(w, tx, op);
        var (r, ledger) := Apply(ix.ledger, tx.id, height, source.value, dest, op);
        var history :=
          if r.Applied? then Record(ix.history, EntryFor(height, tx.id, source.value, dest, op)) else ix.history;
        ix.(ledger := ledger, history := history, outpoints := owners)
  }

  function IndexTxs(w: World, ix: Index, txs: seq<Transaction>, height: nat): (r: Index)
    requires LedgerInv(ix.ledger)
    ensures LedgerInv(r.ledger)
  {
    if txs == [] then ix
    else
      var before := IndexTxs(w, ix, txs[..|txs| - 1], height);
      IndexTxLedger(w, before, txs[|txs| - 1], height);
      IndexTx(w, before, txs[|txs| - 1], height)
  }

  lemma IndexTxLedger(w: World, ix: Index, tx: Transaction, height: nat)
    requires LedgerInv(ix.ledger)
    ensures LedgerInv(IndexTx(w, ix, tx, height).ledger)
  {
    var source := ResolveSource(ix.outpoints, tx);
    match Extract(w.utf8Lossy, tx.outputs)
    case None =>
    case Some(op) =>
      if source.Some? { ApplyConserves(ix.ledger, tx.id, height, source.value, ResolveDest(w, tx, op), op); }
  }

  function IndexBlock(w: World, ix: Index, b: Block, height: nat): Index
    requires LedgerInv(ix.ledger)
  {
    IndexTxs(w, ix, b.txs, height).(lastHeight := height)
  }

  // ---- Balances are the net of history --------------------------------------

  /** What an entry does to an address's balance of a fungible asset. */
  function Delta(e: HistoryEntry, addr: string, id: Hash256): int {
    if e.asset != id then 0
    else match e.kind
         case IssueKind => if e.from == addr then e.amount else 0
         case MintKind => 0
         case TransferKind => (if e.to == addr then e.amount else 0) - (if e.from == addr then e.amount else 0)
  }

  function Net(entries: seq<HistoryEntry>, addr: string, id: Hash256): int {
    if entries == [] then 0 else Net(entries[..|entries| - 1], addr, id) + Delta(entries[|entries| - 1], addr, id)
  }

  /** Every address's fungible balance is the signed net of its history; assets not yet issued have no history. */
  ghost predicate HistoryBalances(l: Ledger, h: History) {
    && (forall addr, id {:trigger Balance(l, addr, id)} ::
          addr != "" && id in l.assets && l.assets[id].kind.Fungible? ==>
          Balance(l, addr, id) == Net(HistoryOf(h, addr), addr, id))
    && (forall addr, id {:trigger Net(HistoryOf(h, addr), addr, id)} ::
          addr != "" && id !in l.assets ==> Net(HistoryOf(h, addr), addr, id) == 0)
  }

  lemma NetPush(h: History, to: string, e: HistoryEntry, addr: string, id: Hash256)
    ensures Net(HistoryOf(Push(h, to, e), addr), addr, id)
         == Net(HistoryOf(h, addr), addr, id) + if to == addr then Delta(e, addr, id) else 0
  {
    if to == addr { assert (HistoryOf(h, addr) + [e])[..|HistoryOf(h, addr)|] == HistoryOf(h, addr); }
  }

  /** Recording an entry moves each named party's net by its delta, and nobody else's. */
  lemma NetRecord(h: History, e: HistoryEntry, addr: string, id: Hash256)
    requires addr != ""
    ensures Net(HistoryOf(Record(h, e), addr), addr, id)
         == Net(HistoryOf(h, addr), addr, id) + if addr == e.from || addr == e.to then Delta(e, addr, id) else 0
  {
    NetPush(h, e.from, e, addr, id);
    NetPush(Push(h, e.from, e), e.to, e, addr, id);
  }

  /** An applied operation changes a balance by exactly its history delta. */
  lemma BalanceDelta(l: Ledger, txid: Hash256, height: nat, source: string, dest: Option<string>, op: AssetOp,
                     addr: string, id: Hash256)
    requires LedgerInv(l) && Apply(l, txid, height, source, dest, op).0.Applied? && addr != ""
    requires id in l.assets && l.assets[id].kind.Fungible?
    ensures Balance(Apply(l, txid, height, source, dest, op).1, addr, id)
         == Balance(l, addr, id) + Delta(EntryFor(height, txid, source, dest, op), addr, id)
  {
    if op.Transfer? && l.assets[op.asset].kind.Fungible? {
      MoveFits(l, source, dest.value, op.asset, op.amount);
    }
  }

  lemma IssueStartsAtSupply(l: Ledger, txid: Hash256, height: nat, source: string, dest: Option<string>, op: AssetOp,
                            addr: string)
    requires LedgerInv(l) && op.Issue? && Apply(l, txid, height, source, dest, op).0.Applied? && addr != ""
    ensures Balance(Apply(l, txid, height, source, dest, op).1, addr, txid)
         == Delta(EntryFor(height, txid, source, dest, op), addr, txid)
  {
    assert (addr, txid) !in l.balances;
  }

  lemma RecordKeepsBalances(ix: Index, txid: Hash256, height: nat, source: string, dest: Option<string>, op: AssetOp)
    requires IndexInv(ix) && Apply(ix.ledger, txid, height, source, dest, op).0.Applied?
    ensures HistoryBalances(Apply(ix.ledger, txid, height, source, dest, op).1,
                            Record(ix.history, EntryFor(height, txid, source, dest, op)))
  {
    var l, l' := ix.ledger, Apply(ix.ledger, txid, height, source, dest, op).1;
    var e := EntryFor(height, txid, source, dest, op);
    var h, h' := ix.history, Record(ix.history, e);
    assert l'.assets.Keys == l.assets.Keys + if op.Transfer? then {} else {txid};
    assert e.asset in l'.assets;
    forall addr, id | addr != "" && id in l'.assets && l'.assets[id].kind.Fungible?
      ensures Balance(l', addr, id) == Net(HistoryOf(h', addr), addr, id)
    {
      NetRecord(h, e, addr, id);
      if id in l.assets {
        BalanceDelta(l, txid, height, source, dest, op, addr, id);
        assert Balance(l, addr, id) == Net(HistoryOf(h, addr), addr, id);
      } else {
        IssueStartsAtSupply(l, txid, height, source, dest, op, addr);
        assert Net(HistoryOf(h, addr), addr, id) == 0;
      }
    }
    forall addr, id | addr != "" && id !in l'.assets ensures Net(HistoryOf(h', addr), addr, id) == 0 {
      NetRecord(h, e, addr, id);
      assert Net(HistoryOf(h, addr), addr, id) == 0;
    }
  }

  lemma IndexTxKeepsInv(w: World, ix: Index, tx: Transaction, height: nat)
    requires IndexInv(ix)
    ensures IndexInv(IndexTx(w, ix, tx, height))
  {
    IndexTxLedger(w, ix, tx, height);
    var source := ResolveSource(ix.outpoints, tx);
    match Extract(w.utf8Lossy, tx.outputs)
    case None =>
    case Some(op) =>
      if source.Some? {
        var dest := ResolveDest(w, tx, op);
        hide LedgerInv, HistoryBalances, Record, EntryFor;
        ApplyConserves(ix.ledger, tx.id, height, source.value, dest, op);
        if Apply(ix.ledger, tx.id, height, source.value, dest, op).0.Applied? {
          RecordKeepsBalances(ix, tx.id, height, source.value, dest, op);
        }
      }
  }

  lemma {:induction false} IndexTxsKeepsInv(w: World, ix: Index, txs: seq<Transaction>, height: nat)
    requires IndexInv(ix)
    ensures IndexInv(IndexTxs(w, ix, txs, height))
  {
    if txs != [] {
      IndexTxsKeepsInv(w, ix, txs[..|txs| - 1], height);
      IndexTxKeepsInv(w, IndexTxs(w, ix, txs[..|txs| - 1], height), txs[|txs| - 1], height);
    }
  }

  // ---- Who can move what ----------------------------------------------------

  /** Whose output the first input spends, as recorded. */
  ghost predicate FirstSpends(ix: Index, tx: Transaction, addr: string) {
    tx.inputs != [] && tx.inputs[0].prev in ix.outpoints && ix.outpoints[tx.inputs[0].prev] == addr
  }

  /** The transaction carries a transfer of the asset to an output of its own that bears the address. */
  ghost predicate SendsTo(w: World, tx: Transaction, id: Hash256, addr: string) {
    var carried := Extract(w.utf8Lossy, tx.outputs);
    && carried.Some? && carried.value.Transfer? && carried.value.asset == id && carried.value.dest < |tx.outputs|
    && w.extractAddress(tx.outputs[carried.value.dest].script) == Some(addr)
  }

  /** Indexing a transaction moves an NFT only from the owner of the output its first input spends to the address of the
      output it names, and only that owner's balances can fall. */
  lemma OnlySpenderMoves(w: World, ix: Index, tx: Transaction, height: nat, id: Hash256, addr: string)
    requires LedgerInv(ix.ledger)
    ensures var l, l' := ix.ledger, IndexTx(w, ix, tx, height).ledger;
            && (id in l.owners ==> id in l'.owners)
            && (id in l.owners && l'.owners[id] != l.owners[id] ==>
                  FirstSpends(ix, tx, l.owners[id]) && SendsTo(w, tx, id, l'.owners[id]))
            && (id !in l.owners && id in l'.owners ==> id == tx.id && FirstSpends(ix, tx, l'.owners[id]))
            && (Balance(l', addr, id) < Balance(l, addr, id) ==> FirstSpends(ix, tx, addr))
            && (Balance(l', addr, id) > Balance(l, addr, id) ==>
                  SendsTo(w, tx, id, addr) || (id == tx.id && FirstSpends(ix, tx, addr)))
  {
    var source := ResolveSource(ix.outpoints, tx);
    var carried := Extract(w.utf8Lossy, tx.outputs);
    if carried.Some? && source.Some? {
      var dest := ResolveDest(w, tx, carried.value);
      OnlyOwnerMoves(ix.ledger, tx.id, height, source.value, dest, carried.value, id);
      OnlySourcePays(ix.ledger, tx.id, height, source.value, dest, carried.value, addr, id);
    }
    hide Apply, LedgerInv, Extract, Record, EntryFor, RecordOutputs;
  }

  /** What applying an operation enters: one entry that names height, transaction, asset, amount and both parties, at
      the end of their histories and of nobody else's; an ignored one enters nothing. */
  lemma HistoryGrows(w: World, ix: Index, tx: Transaction, height: nat, addr: string)
    requires LedgerInv(ix.ledger)
    ensures var h, h' := HistoryOf(ix.history, addr), HistoryOf(IndexTx(w, ix, tx, height).history, addr);
            h' == h || (|h'| == |h| + 1 && h'[..|h|] == h && Enters(w, ix, tx, height, addr, h'[|h|]))
    ensures IndexTx(w, ix, tx, height).ledger != ix.ledger ==>
              exists a :: FirstSpends(ix, tx, a)
                && HistoryOf(IndexTx(w, ix, tx, height).history, a) != HistoryOf(ix.history, a)
  {
    var source := ResolveSource(ix.outpoints, tx);
    var carried := Extract(w.utf8Lossy, tx.outputs);
    if carried.Some? && source.Some? {
      var dest := ResolveDest(w, tx, carried.value);
      var (r, l') := Apply(ix.ledger, tx.id, height, source.value, dest, carried.value);
      ApplyConserves(ix.ledger, tx.id, height, source.value, dest, carried.value);
      assert FirstSpends(ix, tx, source.value);
      if r.Applied? {
        AppliedExactly(ix.ledger, tx.id, height, source.value, dest, carried.value);
        assert dest.Some? ==> SendsTo(w, tx, carried.value.asset, dest.value);
        RecordAppends(ix.history, EntryFor(height, tx.id, source.value, dest, carried.value), addr);
        RecordAppends(ix.history, EntryFor(height, tx.id, source.value, dest, carried.value), source.value);
      }
    }
    hide Apply, LedgerInv, Extract, Record, RecordOutputs, SendsTo;
  }

  lemma RecordAppends(h: History, e: HistoryEntry, addr: string)
    ensures HistoryOf(Record(h, e), addr)
         == HistoryOf(h, addr) + if addr == e.from || (addr == e.to && e.to != "") then [e] else []
  {
  }

  /** The entry says what the transaction's operation did. */
  ghost predicate Enters(w: World, ix: Index, tx: Transaction, height: nat, addr: string, e: HistoryEntry) {
    && e.height == height && e.txid == tx.id && (addr == e.from || addr == e.to)
    && FirstSpends(ix, tx, e.from)
    && var carried := Extract(w.utf8Lossy, tx.outputs);
       && carried.Some?
       && match carried.value
          case Issue(_, _, supply, _, _) => e.kind.IssueKind? && e.asset == tx.id && e.to == "" && e.amount == supply
          case NftMint(_, _, _, _, _) => e.kind.MintKind? && e.asset == tx.id && e.to == "" && e.amount == 1
          case Transfer(id, amount, _) =>
            e.kind.TransferKind? && e.asset == id && SendsTo(w, tx, id, e.to) && e.amount == amount
  }

  // ---- The indexer object ---------------------------------------------------

  class Indexer {
    const state: AssetState
    var outpoints: Owners
    var history: History
    var lastHeight: nat
    var lastHash: Option<Hash256>
    var scannedAny: bool
    var checkpoint: Option<(nat, Option<Hash256>, Index)>

    ghost function View(): Index
      reads this, state
    {
      Index(state.View(), outpoints, history, lastHeight, lastHash)
    }

    constructor ()
      ensures View() == EMPTY_INDEX && !scannedAny && checkpoint.None? && IndexInv(View()) && fresh(state)
    {
      state := new AssetState();
      outpoints, history, lastHeight, lastHash, scannedAny, checkpoint := map[], map[], 0, None, false, None;
    }

    method Snapshot() returns (snap: Index)
      ensures snap == View()
    {
      snap := Index(Ledger(state.assets, state.ftBalances, state.nftOwner), outpoints, history, lastHeight, lastHash);
    }

    /** Restores a snapshot, keeping the checkpoint for the next reorganisation. */
    method Restore(snap: Index)
      modifies this, state
      ensures View() == snap && scannedAny && checkpoint == old(checkpoint)
    {
      state.assets, state.ftBalances, state.nftOwner := snap.ledger.assets, snap.ledger.balances, snap.ledger.owners;
      outpoints, history, lastHeight, lastHash, scannedAny :=
        snap.outpoints, snap.history, snap.lastHeight, snap.lastHash, true;
    }

    method Reset()
      modifies this, state
      ensures View() == EMPTY_INDEX && !scannedAny && checkpoint.None?
    {
      state.assets, state.ftBalances, state.nftOwner := map[], map[], map[];
      outpoints, history, lastHeight, lastHash, scannedAny, checkpoint := map[], map[], 0, None, false, None;
    }

    method RecordOutputsOf(w: World, tx: Transaction)
      modifies this`outpoints
      ensures outpoints == RecordOutputs(w, old(outpoints), tx, |tx.outputs|)
      ensures forall op: OutPoint :: RecordedAs(w, old(outpoints), tx, outpoints, op)
    {
      forall op: OutPoint ensures RecordedAs(w, outpoints, tx, RecordOutputs(w, outpoints, tx, |tx.outputs|), op) {
        RecordedExactly(w, outpoints, tx, |tx.outputs|, op);
        assert tx.outputs[..|tx.outputs|] == tx.outputs;
      }
      var vout := 0;
      while vout < |tx.outputs|
        invariant 0 <= vout <= |tx.outputs|
        invariant outpoints == RecordOutputs(w, old(outpoints), tx, vout)
      {
        var addr := w.extractAddress(tx.outputs[vout].script);
        if addr.Some? { outpoints := outpoints[OutPoint(tx.id, vout) := addr.value]; }
        vout := vout + 1;
      }
    }

    method RecordHistory(e: HistoryEntry)
      modifies this`history
      ensures history == Record(old(history), e)
    {
      history := history[e.from := HistoryOf(history, e.from) + [e]];
      if e.to != "" && e.to != e.from {
        history := history[e.to := HistoryOf(history, e.to) + [e]];
      }
    }

    method ApplyTx(w: World, tx: Transaction, height: nat)
      requires LedgerInv(state.View())
      modifies this`outpoints, this`history, state
      ensures View() == IndexTx(w, old(View()), tx, height) && LedgerInv(state.View())
    {
      hide LedgerInv, Apply, Record, Extract, RecordOutputs;
      var source := ResolveSource(outpoints, tx);
      var op := ExtractAssetOp(w.utf8Lossy, tx.outputs);
      if op.Some? && source.Some? {
        var dest := ResolveDest(w, tx, op.value);
        var r := state.ApplyOp(tx.id, height, source.value, dest, op.value);
        if r.Applied? {
          RecordHistory(EntryFor(height, tx.id, source.value, dest, op.value));
        }
      }
      RecordOutputsOf(w, tx);
    }

    method ApplyBlock(w: World, b: Block, height: nat)
      requires LedgerInv(state.View())
      modifies this`outpoints, this`history, this`lastHeight, this`scannedAny, state
      ensures View() == IndexBlock(w, old(View()), b, height) && scannedAny && LedgerInv(state.View())
    {
      hide LedgerInv, IndexTx;
      var n := 0;
      while n < |b.txs|
        invariant 0 <= n <= |b.txs|
        invariant LedgerInv(state.View())
        invariant LedgerInv(old(View()).ledger)
        invariant View() == IndexTxs(w, old(View()), b.txs[..n], height)
      {
        assert b.txs[..n + 1][..n] == b.txs[..n];
        ApplyTx(w, b.txs[n], height);
        n := n + 1;
      }
      assert b.txs[..n] == b.txs;
      lastHeight := height;
      scannedAny := true;
    }
  }
}
