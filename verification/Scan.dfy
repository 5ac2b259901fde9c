/** Scanning a chain that may reorganise: forward indexing, buried checkpoints, rollback, and rebuild. */
module Scans {
  import opened Prelude
  import opened Types
  import opened Carrier
  import opened Assets
  import opened Indexers

  const CHECKPOINT_INTERVAL: nat := 20
  const CHECKPOINT_SAFETY: nat := 5

  /** A chain as the node serves it: each block with its hash. */
  type Served = seq<(Hash256, Block)>

  /** The calls of one scan: the reorganisation check, the rollback check, and the forward loop. No height is asked for
      twice in one phase, so each answer may be an error of its own. */
  datatype Phase = Checking | RollingBack | Scanning

  type Fetch = (Phase, nat) -> Result<(Hash256, Block), string>

  datatype Scanner = Scanner(ix: Index, scanned: bool, checkpoint: Option<(nat, Option<Hash256>, Index)>)

  const FRESH: Scanner := Scanner(EMPTY_INDEX, false, None)

  ghost predicate Sound(s: Scanner) {
    LedgerInv(s.ix.ledger) && (s.checkpoint.Some? ==> LedgerInv(s.checkpoint.value.2.ledger))
  }

  // ---- One scan -------------------------------------------------------------

  predicate NeedsRebuild(s: Scanner, hashAtLast: Hash256) {
    s.scanned && s.ix.lastHeight > 0 && s.ix.lastHash != Some(hashAtLast)
  }

  /** The checkpoint's state if the checkpoint is still canonical; otherwise nothing. */
  function TryRollback(s: Scanner, fetch: Fetch): Result<Option<Scanner>, string> {
    match s.checkpoint
    case None => Ok(None)
    case Some((height, hash, snap)) =>
      match fetch(RollingBack, height)
      case Err(e) => Err(e)
      case Ok((canon, _)) => if Some(canon) == hash then Ok(Some(Scanner(snap, true, s.checkpoint))) else Ok(None)
  }

  /** The reorganisation check at the last scanned height. */
  function Prepare(s: Scanner, fetch: Fetch): Result<Scanner, string> {
    if s.scanned && s.ix.lastHeight > 0 then
      match fetch(Checking, s.ix.lastHeight)
      case Err(e) => Err(e)
      case Ok((hash, _)) =>
        if NeedsRebuild(s, hash) then
          match TryRollback(s, fetch)
          case Err(e) => Err(e)
          case Ok(None) => Ok(FRESH)
          case Ok(Some(restored)) => Ok(restored)
        else Ok(s)
    else Ok(s)
  }

  function Advance(w: World, s: Scanner, hash: Hash256, b: Block, height: nat, tip: nat): Scanner
    requires LedgerInv(s.ix.ledger)
  {
    var ix := IndexBlock(w, s.ix, b, height).(lastHash := Some(hash));
    var buried := height % CHECKPOINT_INTERVAL == 0 && height + CHECKPOINT_SAFETY <= tip;
    Scanner(ix, true, if buried then Some((height, Some(hash), ix)) else s.checkpoint)
  }

  function Forward(w: World, s: Scanner, height: nat, tip: nat, fetch: Fetch, applied: nat)
    : (Result<nat, string>, Scanner)
    requires LedgerInv(s.ix.ledger)
    decreases tip + 1 - height
  {
    if height > tip then (Ok(applied), s)
    else
      match fetch(Scanning, height)
      case Err(e) => (Err(e), s)
      case Ok((hash, b)) => Forward(w, Advance(w, s, hash, b, height, tip), height + 1, tip, fetch, applied + 1)
  }

  function Start(s: Scanner): nat { if s.scanned then s.ix.lastHeight + 1 else 0 }

  function Scan(w: World, s: Scanner, tip: nat, fetch: Fetch): (Result<nat, string>, Scanner)
    requires Sound(s)
  {
    match Prepare(s, fetch)
    case Err(e) => (Err(e), s)
    case Ok(s1) => Forward(w, s1, Start(s1), tip, fetch, 0)
  }

  /** A scan that succeeds has applied every block above where it started, and leaves as checkpoint the highest of them
      that is a multiple of the interval and buried by the safety depth, or if there is none the checkpoint it had. */
  lemma {:induction false} ForwardExactly(w: World, s: Scanner, height: nat, tip: nat, fetch: Fetch, applied: nat)
    requires LedgerInv(s.ix.ledger) && Forward(w, s, height, tip, fetch, applied).0.Ok?
    ensures var (r, s') := Forward(w, s, height, tip, fetch, applied);
            && r.value == applied + SatSub(tip + 1, height)
            && (height <= tip ==> s'.scanned && s'.ix.lastHeight == tip)
            && (height > tip ==> s' == s)
            && if exists h :: height <= h && Buried(h, tip)
               then s'.checkpoint.Some? && height <= s'.checkpoint.value.0 && Buried(s'.checkpoint.value.0, tip)
                    && forall h :: height <= h && Buried(h, tip) ==> h <= s'.checkpoint.value.0
               else s'.checkpoint == s.checkpoint
    decreases tip + 1 - height
  {
    if height <= tip {
      var (hash, b) := fetch(Scanning, height).value;
      var next := Advance(w, s, hash, b, height, tip);
      AdvanceFacts(w, s, hash, b, height, tip);
      hide Advance, LedgerInv;
      ForwardExactly(w, next, height + 1, tip, fetch, applied + 1);
      if h :| height <= h && Buried(h, tip) {
        if h == height {
          assert Buried(height, tip);
        } else {
          assert height + 1 <= h && Buried(h, tip);
        }
      }
    }
  }

  predicate Buried(height: nat, tip: nat) { height % CHECKPOINT_INTERVAL == 0 && height + CHECKPOINT_SAFETY <= tip }

  lemma AdvanceFacts(w: World, s: Scanner, hash: Hash256, b: Block, height: nat, tip: nat)
    requires LedgerInv(s.ix.ledger)
    ensures var next := Advance(w, s, hash, b, height, tip);
            && LedgerInv(next.ix.ledger) && next.scanned && next.ix.lastHeight == height
            && (Buried(height, tip) ==> next.checkpoint.Some? && next.checkpoint.value.0 == height)
            && (!Buried(height, tip) ==> next.checkpoint == s.checkpoint)
  {
    hide LedgerInv, IndexTxs;
  }

  // ---- Replaying from scratch -----------------------------------------------

  /** The index of a chain, from genesis. */
  function IndexChain(w: World, chain: Served): (ix: Index)
    ensures LedgerInv(ix.ledger)
  {
    if chain == [] then EMPTY_INDEX
    else
      var n := |chain| - 1;
      IndexBlock(w, IndexChain(w, chain[..n]), chain[n].1, n).(lastHash := Some(chain[n].0))
  }

  /** The transaction has an output there whose script bears an address. */
  predicate Addresses(w: World, tx: Transaction, op: OutPoint) {
    op.txid == tx.id && op.index < |tx.outputs| && w.extractAddress(tx.outputs[op.index].script).Some?
  }

  ghost predicate Addressed(w: World, txs: seq<Transaction>, op: OutPoint) {
    exists t :: 0 <= t < |txs| && Addresses(w, txs[t], op)
  }

  /** One of the transactions gives the address there. */
  ghost predicate Bears(w: World, txs: seq<Transaction>, op: OutPoint, addr: string) {
    exists t :: 0 <= t < |txs| && Addresses(w, txs[t], op)
                && w.extractAddress(txs[t].outputs[op.index].script) == Some(addr)
  }

  lemma LastAddresses(w: World, txs: seq<Transaction>, op: OutPoint, addr: string)
    requires txs != []
    ensures var n := |txs| - 1;
            && (Addressed(w, txs, op) <==> Addressed(w, txs[..n], op) || Addresses(w, txs[n], op))
            && (Bears(w, txs[..n], op, addr) ==> Bears(w, txs, op, addr))
            && (Addresses(w, txs[n], op) && w.extractAddress(txs[n].outputs[op.index].script) == Some(addr) ==>
                  Bears(w, txs, op, addr))
  {
    var n := |txs| - 1;
    hide Addresses;
    assert forall t :: 0 <= t < n ==> txs[..n][t] == txs[t];
    if Addressed(w, txs, op) {
      var t :| 0 <= t < |txs| && Addresses(w, txs[t], op);
      if t < n { assert Addresses(w, txs[..n][t], op); }
    }
    if Addressed(w, txs[..n], op) {
      var t :| 0 <= t < n && Addresses(w, txs[..n][t], op);
      assert Addresses(w, txs[t], op);
    }
  }

  lemma {:induction false} OutpointsOfTxs(w: World, ix: Index, txs: seq<Transaction>, height: nat, op: OutPoint)
    requires LedgerInv(ix.ledger)
    ensures var owners := IndexTxs(w, ix, txs, height).outpoints;
            && (op in owners <==> op in ix.outpoints || Addressed(w, txs, op))
            && (op in owners ==>
                  (op in ix.outpoints && owners[op] == ix.outpoints[op]) || Bears(w, txs, op, owners[op]))
  {
    if txs != [] {
      var n := |txs| - 1;
      OutpointsOfTxs(w, ix, txs[..n], height, op);
      var before, after := IndexTxs(w, ix, txs[..n], height).outpoints, IndexTxs(w, ix, txs, height).outpoints;
      assert after == RecordOutputs(w, before, txs[n], |txs[n].outputs|);
      RecordedExactly(w, before, txs[n], |txs[n].outputs|, op);
      assert txs[n].outputs[..|txs[n].outputs|] == txs[n].outputs;
      hide IndexTx, IndexTxs, RecordOutputs, LedgerInv, Addressed, Bears;
      LastAddresses(w, txs, op, if op in after then after[op] else "");
    }
  }

  /** The recorded outpoints of a chain are exactly the address-bearing outputs of all its transactions, each with an
      address one of them gives it. */
  lemma {:induction false} OutpointsOfChain(w: World, chain: Served, op: OutPoint)
    ensures var owners := IndexChain(w, chain).outpoints;
            && (op in owners <==> exists i :: 0 <= i < |chain| && Addressed(w, chain[i].1.txs, op))
            && (op in owners ==> exists i :: 0 <= i < |chain| && Bears(w, chain[i].1.txs, op, owners[op]))
  {
    if chain != [] {
      var n := |chain| - 1;
      var before := chain[..n];
      OutpointsOfChain(w, before, op);
      OutpointsOfTxs(w, IndexChain(w, before), chain[n].1.txs, n, op);
      assert IndexChain(w, chain).outpoints == IndexTxs(w, IndexChain(w, before), chain[n].1.txs, n).outpoints;
      hide IndexChain, IndexTxs, Bears, Addressed, LedgerInv;
      forall i | 0 <= i < n ensures before[i] == chain[i] {
      }
      var owners := IndexChain(w, chain).outpoints;
      if i :| 0 <= i < n && Addressed(w, before[i].1.txs, op) { assert Addressed(w, chain[i].1.txs, op); }
      if i :| 0 <= i < |chain| && Addressed(w, chain[i].1.txs, op) {
        if i < n { assert Addressed(w, before[i].1.txs, op); }
      }
      if op in IndexChain(w, before).outpoints {
        var i :| 0 <= i < n && Bears(w, before[i].1.txs, op, IndexChain(w, before).outpoints[op]);
        assert Bears(w, chain[i].1.txs, op, IndexChain(w, before).outpoints[op]);
      }
    }
  }

  /** Every asset of a chain was issued or minted by one of its transactions, and is recorded at that block's height. */
  lemma {:induction false} AssetsOfChain(w: World, chain: Served, id: Hash256)
    requires id in IndexChain(w, chain).ledger.assets
    ensures var info := IndexChain(w, chain).ledger.assets[id];
            && info.mintHeight < |chain|
            && exists t :: 0 <= t < |chain[info.mintHeight].1.txs| && chain[info.mintHeight].1.txs[t].id == id
  {
    var n := |chain| - 1;
    var before := IndexChain(w, chain[..n]);
    AssetsOfTxs(w, before, chain[n].1.txs, n, id);
    assert IndexChain(w, chain).ledger == IndexTxs(w, before, chain[n].1.txs, n).ledger;
    hide IndexTxs, LedgerInv;
    if id in before.ledger.assets {
      AssetsOfChain(w, chain[..n], id);
      assert chain[..n][before.ledger.assets[id].mintHeight] == chain[before.ledger.assets[id].mintHeight];
    }
  }

  lemma {:induction false} AssetsOfTxs(w: World, ix: Index, txs: seq<Transaction>, height: nat, id: Hash256)
    requires LedgerInv(ix.ledger) && id in IndexTxs(w, ix, txs, height).ledger.assets
    ensures var info := IndexTxs(w, ix, txs, height).ledger.assets[id];
            || (id in ix.ledger.assets && info == ix.ledger.assets[id])
            || (info.mintHeight == height && exists t :: 0 <= t < |txs| && txs[t].id == id)
  {
    if txs != [] {
      var n := |txs| - 1;
      var before := IndexTxs(w, ix, txs[..n], height);
      AssetsOfTx(w, before, txs[n], height, id);
      assert IndexTxs(w, ix, txs, height) == IndexTx(w, before, txs[n], height);
      hide IndexTx, LedgerInv;
      if id in before.ledger.assets {
        AssetsOfTxs(w, ix, txs[..n], height, id);
        if t :| 0 <= t < n && txs[..n][t].id == id { assert txs[t].id == id; }
      } else {
        assert txs[n].id == id;
      }
    }
  }

  lemma AssetsOfTx(w: World, ix: Index, tx: Transaction, height: nat, id: Hash256)
    requires LedgerInv(ix.ledger) && id in IndexTx(w, ix, tx, height).ledger.assets
    ensures var info := IndexTx(w, ix, tx, height).ledger.assets[id];
            if id in ix.ledger.assets then info == ix.ledger.assets[id] else id == tx.id && info.mintHeight == height
  {
    var source := ResolveSource(ix.outpoints, tx);
    var carried := Extract(w.utf8Lossy, tx.outputs);
    if carried.Some? && source.Some? {
      RecordsStay(ix.ledger, tx.id, height, source.value, ResolveDest(w, tx, carried.value), carried.value, id);
    }
    hide Apply, LedgerInv, Extract, Record, EntryFor, RecordOutputs;
  }

  /** Every from-scratch index conserves its assets and keeps balances equal to net history. */
  lemma {:induction false} IndexChainInv(w: World, chain: Served)
    ensures IndexInv(IndexChain(w, chain))
  {
    if chain != [] {
      var n := |chain| - 1;
      IndexChainInv(w, chain[..n]);
      IndexTxsKeepsInv(w, IndexChain(w, chain[..n]), chain[n].1.txs, n);
    }
  }

  lemma LastOf(w: World, chain: Served)
    requires chain != []
    ensures IndexChain(w, chain).lastHeight == |chain| - 1
            && IndexChain(w, chain).lastHash == Some(chain[|chain| - 1].0)
  {
  }

  /** A fetch that answers, if at all, from one fixed chain. */
  ghost predicate Serves(fetch: Fetch, chain: Served) {
    forall phase, h: nat :: fetch(phase, h).Ok? ==> h < |chain| && fetch(phase, h).value == chain[h]
  }

  /** Chains share their genesis, and an equal hash at a height means an equal history up to it. */
  ghost predicate Compatible(a: Served, b: Served) {
    && (a != [] && b != [] ==> a[0] == b[0])
    && forall h :: 0 <= h < |a| && h < |b| && a[h].0 == b[h].0 ==> a[..h + 1] == b[..h + 1]
  }

  /** The scanner holds the index of `origin`, and its checkpoint that of `cp`. */
  ghost predicate Holds(w: World, s: Scanner, origin: Served, cp: Served) {
    && s.ix == IndexChain(w, origin)
    && (s.scanned <==> origin != [])
    && match s.checkpoint
       case None => true
       case Some((height, hash, snap)) =>
         cp != [] && height == |cp| - 1 && hash == Some(cp[height].0) && snap == IndexChain(w, cp)
  }

  lemma HoldsSound(w: World, s: Scanner, origin: Served, cp: Served)
    requires Holds(w, s, origin, cp)
    ensures Sound(s)
  {
  }

  /** After the reorganisation check the scanner holds a prefix of the served chain. */
  lemma PrepareHolds(w: World, s: Scanner, origin: Served, cp: Served, chain: Served, fetch: Fetch)
    returns (origin': Served)
    requires Holds(w, s, origin, cp) && Serves(fetch, chain) && chain != []
    requires Compatible(origin, chain) && Compatible(cp, chain)
    requires Prepare(s, fetch).Ok?
    ensures Holds(w, Prepare(s, fetch).value, origin', cp) && origin' <= chain
    ensures origin' == origin || (s.checkpoint.Some? && origin' == cp) || origin' == []
    ensures origin <= chain ==> origin' == origin
  {
    var s' := Prepare(s, fetch).value;
    if s.scanned { LastOf(w, origin); }
    hide IndexChain;
    if s' == s {
      origin' := origin;
      if origin != [] {
        var h := |origin| - 1;
        assert origin[..h + 1] == origin;
        if h > 0 {
          assert fetch(Checking, h).Ok?;
          assert origin[h].0 == chain[h].0;
          assert origin == chain[..h + 1];
        }
      }
    } else if s' == FRESH {
      origin' := [];
    } else {
      origin' := cp;
      var h := |cp| - 1;
      assert fetch(RollingBack, h).Ok? && cp[h].0 == chain[h].0;
      assert cp[..h + 1] == cp;
      assert cp == chain[..h + 1];
    }
  }

  lemma AdvanceHolds(w: World, s: Scanner, origin: Served, cp: Served, chain: Served, tip: nat) returns (cp': Served)
    requires Holds(w, s, origin, cp) && origin <= chain && |origin| < |chain|
    ensures var (hash, b) := chain[|origin|];
            Holds(w, Advance(w, s, hash, b, |origin|, tip), chain[..|origin| + 1], cp')
    ensures cp' == cp || cp' <= chain
  {
    var n := |origin|;
    var next := chain[..n + 1];
    assert next[..n] == origin && next[n] == chain[n];
    cp' := if n % CHECKPOINT_INTERVAL == 0 && n + CHECKPOINT_SAFETY <= tip then next else cp;
  }

  lemma ForwardStep(w: World, s: Scanner, n: nat, tip: nat, fetch: Fetch, applied: nat)
    requires LedgerInv(s.ix.ledger) && n <= tip && fetch(Scanning, n).Ok?
    ensures var (hash, b) := fetch(Scanning, n).value;
            var s1 := Advance(w, s, hash, b, n, tip);
            && LedgerInv(s1.ix.ledger)
            && Forward(w, s, n, tip, fetch, applied) == Forward(w, s1, n + 1, tip, fetch, applied + 1)
  {
    hide LedgerInv;
  }

  lemma ForwardStops(w: World, s: Scanner, n: nat, tip: nat, fetch: Fetch, applied: nat)
    requires LedgerInv(s.ix.ledger) && (tip < n || fetch(Scanning, n).Err?)
    ensures var (r, s') := Forward(w, s, n, tip, fetch, applied);
            s' == s && (r.Ok? <==> tip < n) && (r.Ok? ==> r.value == applied)
  {
    hide LedgerInv;
  }

  lemma ServedAt(fetch: Fetch, chain: Served, n: nat)
    requires Serves(fetch, chain) && fetch(Scanning, n).Ok?
    ensures n < |chain| && fetch(Scanning, n).value == chain[n]
  {
  }

  /** The forward loop extends the held prefix block by block; a fetch error leaves a prefix. */
  lemma {:induction false} ForwardHolds(w: World, s: Scanner, origin: Served, cp: Served, chain: Served, fetch: Fetch,
                                        tip: nat, applied: nat)
    returns (origin': Served, cp': Served)
    requires Holds(w, s, origin, cp) && Serves(fetch, chain) && origin <= chain
    ensures Sound(s)
    ensures var (r, s') := Forward(w, s, |origin|, tip, fetch, applied);
            && Holds(w, s', origin', cp') && origin <= origin' <= chain && (cp' == cp || cp' <= chain)
            && (r.Ok? ==> |origin'| == Max(|origin|, tip + 1) && r.value == applied + (|origin'| - |origin|))
    decreases tip + 1 - |origin|
  {
    hide Holds, LedgerInv, Advance, Forward, Serves;
    origin', cp' := origin, cp;
    var n := |origin|;
    HoldsSound(w, s, origin, cp);
    if n <= tip && fetch(Scanning, n).Ok? {
      ServedAt(fetch, chain, n);
      ForwardStep(w, s, n, tip, fetch, applied);
      var cp1 := AdvanceHolds(w, s, origin, cp, chain, tip);
      var (hash, b) := chain[n];
      var s1 := Advance(w, s, hash, b, n, tip);
      origin', cp' := ForwardHolds(w, s1, chain[..n + 1], cp1, chain, fetch, tip, applied + 1);
    } else {
      ForwardStops(w, s, n, tip, fetch, applied);
    }
  }

  /** One scan: success means the index of the served chain up to the tip (or further, if we were already further on
      the same chain); an error still leaves the index of a prefix of that chain, or the scanner as it was. */
  lemma ScanHolds(w: World, s: Scanner, origin: Served, cp: Served, chain: Served, fetch: Fetch, tip: nat)
    returns (origin': Served, cp': Served)
    requires Holds(w, s, origin, cp) && Serves(fetch, chain) && chain != []
    requires Compatible(origin, chain) && Compatible(cp, chain)
    ensures Sound(s)
    ensures var (r, s') := Scan(w, s, tip, fetch);
            && Holds(w, s', origin', cp')
            && (origin' <= chain || (s' == s && origin' == origin))
            && (cp' == cp || cp' <= chain)
            && (r.Ok? ==> origin' <= chain && tip + 1 <= |origin'|)
            && (r.Ok? && |origin| <= tip + 1 && |cp| <= tip + 1 ==> origin' == chain[..tip + 1])
  {
    origin', cp' := origin, cp;
    HoldsSound(w, s, origin, cp);
    if Prepare(s, fetch).Ok? {
      var held := PrepareHolds(w, s, origin, cp, chain, fetch);
      var s1 := Prepare(s, fetch).value;
      if held != [] { LastOf(w, held); }
      assert Start(s1) == |held|;
      hide Holds, Prepare;
      origin', cp' := ForwardHolds(w, s1, held, cp, chain, fetch, tip, 0);
      if |origin'| == tip + 1 { assert origin' == chain[..tip + 1]; }
    }
  }

  // ---- Runs of scans --------------------------------------------------------

  datatype Job = Job(chain: Served, tip: nat, fetch: Fetch)

  /** Each scan sees one fixed chain; the chains may differ, but hashes determine histories across all of them. */
  ghost predicate Jobs(jobs: seq<Job>) {
    && (forall i :: 0 <= i < |jobs| ==> jobs[i].chain != [] && Serves(jobs[i].fetch, jobs[i].chain))
    && (forall i, j :: 0 <= i < j < |jobs| ==> Compatible(jobs[i].chain, jobs[j].chain))
  }

  ghost predicate ScanRun(w: World, states: seq<Scanner>, jobs: seq<Job>) {
    && |states| == |jobs| + 1
    && states[0] == FRESH
    && forall i :: 0 <= i < |jobs| ==> Sound(states[i]) ==>
         states[i + 1] == Scan(w, states[i], jobs[i].tip, jobs[i].fetch).1
  }

  /** A prefix of some chain seen in the first `n` scans. */
  ghost predicate Seen(jobs: seq<Job>, n: nat, o: Served)
    requires n <= |jobs|
  {
    o == [] || exists i :: 0 <= i < n && o <= jobs[i].chain
  }

  lemma SeenIsCompatible(jobs: seq<Job>, n: nat, o: Served)
    requires Jobs(jobs) && n < |jobs| && Seen(jobs, n, o)
    ensures Compatible(o, jobs[n].chain)
  {
    if o != [] {
      var i :| 0 <= i < n && o <= jobs[i].chain;
      var c, d := jobs[i].chain, jobs[n].chain;
      assert Compatible(c, d);
      forall h | 0 <= h < |o| && h < |d| && o[h].0 == d[h].0 ensures o[..h + 1] == d[..h + 1] {
        assert c[h] == o[h];
        assert c[..h + 1] == o[..h + 1];
      }
    }
  }

  /** In every run, over any history of reorganisations and fetch errors, the scanner always holds the from-genesis
      index of a prefix of some chain it was served. */
  lemma {:induction false} ScanRunHolds(w: World, states: seq<Scanner>, jobs: seq<Job>, n: nat)
    returns (origin: Served, cp: Served)
    requires Jobs(jobs) && ScanRun(w, states, jobs) && n <= |jobs|
    ensures Holds(w, states[n], origin, cp) && Seen(jobs, n, origin) && Seen(jobs, n, cp)
    decreases n
  {
    hide *;
    if n == 0 {
      origin, cp := [], [];
      FreshHolds(w, states, jobs);
    } else {
      var job := jobs[n - 1];
      var o, c := ScanRunHolds(w, states, jobs, n - 1);
      JobServes(jobs, n - 1);
      RunStep(w, states, jobs, n - 1);
      SeenIsCompatible(jobs, n - 1, o);
      SeenIsCompatible(jobs, n - 1, c);
      origin, cp := ScanHolds(w, states[n - 1], o, c, job.chain, job.fetch, job.tip);
      SeenGrows(jobs, n - 1, o);
      SeenGrows(jobs, n - 1, c);
      ServedIsSeen(jobs, n - 1, origin);
      ServedIsSeen(jobs, n - 1, cp);
    }
  }

  lemma FreshHolds(w: World, states: seq<Scanner>, jobs: seq<Job>)
    requires ScanRun(w, states, jobs)
    ensures |states| == |jobs| + 1 && Holds(w, states[0], [], []) && Seen(jobs, 0, [])
  {
    hide Scan, Sound;
  }

  lemma JobServes(jobs: seq<Job>, n: nat)
    requires Jobs(jobs) && n < |jobs|
    ensures jobs[n].chain != [] && Serves(jobs[n].fetch, jobs[n].chain)
  {
    hide Serves, Compatible;
  }

  lemma RunStep(w: World, states: seq<Scanner>, jobs: seq<Job>, n: nat)
    requires ScanRun(w, states, jobs) && n < |jobs|
    ensures |states| == |jobs| + 1
    ensures Sound(states[n]) ==> states[n + 1] == Scan(w, states[n], jobs[n].tip, jobs[n].fetch).1
  {
    hide Scan, Sound;
  }

  lemma ServedIsSeen(jobs: seq<Job>, n: nat, o: Served)
    requires n < |jobs|
    ensures o <= jobs[n].chain ==> Seen(jobs, n + 1, o)
  {
  }

  lemma SeenGrows(jobs: seq<Job>, n: nat, o: Served)
    requires n < |jobs| && Seen(jobs, n, o)
    ensures Seen(jobs, n + 1, o)
  {
  }

  /** So a scan that succeeds, anywhere in a run, leaves exactly what indexing its chain from genesis would give. */
  lemma ScanEqualsReplay(w: World, states: seq<Scanner>, jobs: seq<Job>, n: nat) returns (height: nat)
    requires Jobs(jobs) && ScanRun(w, states, jobs) && n < |jobs|
    ensures Sound(states[n]) && IndexInv(states[n + 1].ix)
    ensures Scan(w, states[n], jobs[n].tip, jobs[n].fetch).0.Ok? ==>
              jobs[n].tip < height <= |jobs[n].chain| && states[n + 1].ix == IndexChain(w, jobs[n].chain[..height])
  {
    var o, c := ScanRunHolds(w, states, jobs, n);
    SeenIsCompatible(jobs, n, o);
    SeenIsCompatible(jobs, n, c);
    var job := jobs[n];
    var origin, cp := ScanHolds(w, states[n], o, c, job.chain, job.fetch, job.tip);
    height := |origin|;
    IndexChainInv(w, origin);
    if origin <= job.chain { assert origin == job.chain[..height]; }
    hide Scan, Compatible, Serves, IndexChain, IndexInv;
  }

  // ---- The scan on the indexer object ---------------------------------------

  ghost function ScannerOf(idx: Indexer): Scanner
    reads idx, idx.state
  {
    Scanner(idx.View(), idx.scannedAny, idx.checkpoint)
  }

  /** Rolls back to the checkpoint if it is still canonical, and says whether it did. */
  method TryRollbackTo(idx: Indexer, fetch: Fetch) returns (r: Result<bool, string>)
    modifies idx, idx.state
    ensures match TryRollback(old(ScannerOf(idx)), fetch)
            case Err(e) => r == Err(e) && ScannerOf(idx) == old(ScannerOf(idx))
            case Ok(None) => r == Ok(false) && ScannerOf(idx) == old(ScannerOf(idx))
            case Ok(Some(s')) => r == Ok(true) && ScannerOf(idx) == s'
  {
    match idx.checkpoint {
      case None => return Ok(false);
      case Some(cp) =>
        var canon := fetch(RollingBack, cp.0);
        if canon.Err? { return Err(canon.error); }
        if Some(canon.value.0) != cp.1 { return Ok(false); }
        idx.Restore(cp.2);
        return Ok(true);
    }
  }

  /** Drives a scan up to `tip`. */
  method ScanTo(w: World, idx: Indexer, tip: nat, fetch: Fetch) returns (r: Result<nat, string>)
    requires Sound(ScannerOf(idx))
    modifies idx, idx.state
    ensures (r, ScannerOf(idx)) == Scan(w, old(ScannerOf(idx)), tip, fetch)
  {
    if idx.scannedAny && idx.lastHeight > 0 {
      var at := fetch(Checking, idx.lastHeight);
      if at.Err? { return Err(at.error); }
      if idx.lastHash != Some(at.value.0) {
        var rolled := TryRollbackTo(idx, fetch);
        if rolled.Err? { return Err(rolled.error); }
        if !rolled.value { idx.Reset(); }
      }
    }
    r := ForwardFrom(w, idx, if idx.scannedAny then idx.lastHeight + 1 else 0, tip, fetch);
  }

  method ForwardFrom(w: World, idx: Indexer, start: nat, tip: nat, fetch: Fetch) returns (r: Result<nat, string>)
    requires LedgerInv(idx.state.View())
    modifies idx, idx.state
    ensures (r, ScannerOf(idx)) == Forward(w, old(ScannerOf(idx)), start, tip, fetch, 0)
  {
    hide LedgerInv, IndexBlock;
    var applied := 0;
    var height := start;
    while height <= tip
      invariant LedgerInv(idx.state.View())
      invariant Forward(w, old(ScannerOf(idx)), start, tip, fetch, 0)
                  == Forward(w, ScannerOf(idx), height, tip, fetch, applied)
      decreases tip + 1 - height
    {
      var served := fetch(Scanning, height);
      if served.Err? { return Err(served.error); }
      var (hash, b) := served.value;
      idx.ApplyBlock(w, b, height);
      idx.lastHash := Some(hash);
      applied := applied + 1;
      if height % CHECKPOINT_INTERVAL == 0 && height + CHECKPOINT_SAFETY <= tip {
        var snap := idx.Snapshot();
        idx.checkpoint := Some((height, idx.lastHash, snap));
      }
      height := height + 1;
    }
    return Ok(applied);
  }
}
