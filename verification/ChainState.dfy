/** The node's chain object: database columns and caches updated in place, each method proved against `ForkChoice`. */
module ChainStates {
  import opened Prelude
  import opened Types
  import opened Utxo
  import opened UtxoSets
  import opened Validation
  import opened Store
  import opened Difficulty
  import opened ForkChoice
  import opened Consensus
  import Submission
  import Runs

  lemma RequeueStep(dropped: Chain, i: nat, candidates: seq<Transaction>)
    requires i < |dropped|
    ensures candidates + RequeueCandidates(dropped[i..])
              == candidates + NonCoinbase(dropped[i].txs) + RequeueCandidates(dropped[i + 1..])
  {
    hide NonCoinbase;
    assert dropped[i..][1..] == dropped[i + 1..];
  }

  lemma CoinbaseStep(txs: seq<Transaction>, k: nat, kept: seq<Transaction>)
    requires k < |txs|
    ensures kept + NonCoinbase(txs[k..])
              == kept + (if txs[k].IsCoinbase() then [] else [txs[k]]) + NonCoinbase(txs[k + 1..])
  {
    assert txs[k..][1..] == txs[k + 1..];
  }

  lemma NoneLeft(txs: seq<Transaction>)
    requires txs == []
    ensures NonCoinbase(txs) == []
  {
  }

  /** Key-order iteration, least key first. */
  lemma CanonicalStep(left: map<nat, Hash256>, blocks: Blocks, k: nat, chain: Chain)
    requires k in left && forall j :: j in left ==> k <= j
    ensures chain + CanonicalBlocks(left, blocks) ==
              (if left[k] in blocks then chain + [blocks[left[k]]] else chain) + CanonicalBlocks(left - {k}, blocks)
  {
    assert k == MinKey(left.Keys);
  }

  lemma FewerKeys(left: map<nat, Hash256>, k: nat)
    requires k in left
    ensures |left - {k}| < |left|
  {
    assert left == (left - {k})[k := left[k]];
  }

  lemma NothingCanonical(left: map<nat, Hash256>, blocks: Blocks)
    requires left == map[]
    ensures CanonicalBlocks(left, blocks) == []
  {
  }

  // ---- A submission, case by case -------------------------------------------

  lemma ParentFiled(w: World, p: Params, s: State, h: Hash256)
    requires p.WellFormed() && Inv(w, p, s)
    ensures Closed(w, s.blocks) && (h in s.blocks ==> w.BlockHash(s.blocks[h]) == h)
  {
    if h in s.blocks { assert Filed(w, s.blocks, h); }
  }

  lemma SubmitRefuses(w: World, p: Params, s: State, b: Block, now: nat)
    requires p.WellFormed() && Inv(w, p, s)
    ensures w.BlockHash(b) in s.blocks ==> Submit(w, p, s, b, now) == (Err(AlreadyKnown), s)
    ensures Closed(w, s.blocks)
    ensures w.BlockHash(b) !in s.blocks && EnsureSynced(w, p, s).Ok? ==>
              var s1 := EnsureSynced(w, p, s).value;
              && s1.blocks == s.blocks
              && (b.header.prev !in s1.blocks ==> Submit(w, p, s, b, now) == (Err(UnknownParent), s1))
              && (b.header.prev in s1.blocks ==>
                    var rule := ValidateBlock(w, p, Some(s1.blocks[b.header.prev]), b, now,
                                              RequiredBits(p, ChainTo(w, s1.blocks, b.header.prev)),
                                              EpochSeed(w, s1, b.header.height));
                    rule.Some? ==> Submit(w, p, s, b, now) == (Err(Invalid(rule.value)), s1))
  {
    assert Closed(w, s.blocks);
    hide Inv, RequiredBits, ValidateBlock, EpochSeed, Choose, ChainTo, Replay, CanonicalBlocks, Closed;
  }

  lemma SubmitStores(w: World, p: Params, s: State, s1: State, b: Block, now: nat)
    requires p.WellFormed() && Inv(w, p, s) && EnsureSynced(w, p, s) == Ok(s1) && Closed(w, s1.blocks)
    requires w.BlockHash(b) !in s.blocks && b.header.prev in s1.blocks
    requires ValidateBlock(w, p, Some(s1.blocks[b.header.prev]), b, now,
                           RequiredBits(p, ChainTo(w, s1.blocks, b.header.prev)),
                           EpochSeed(w, s1, b.header.height)).None?
    ensures var s2 := s1.(blocks := s1.blocks[w.BlockHash(b) := b], disconnected := []);
            Pending(w, p, s2, b) && Submit(w, p, s, b, now) == Choose(w, p, s2, b)
  {
    StoredIsPending(w, p, s, s1, b, now);
    hide Inv, RequiredBits, ValidateBlock, EpochSeed, Choose, Pending, EnsureSynced, ChainTo, Closed;
  }

  class ChainState {
    var blocks: Blocks
    var canonical: map<nat, Hash256>
    var utxo: UtxoMap
    var metaTip: Option<Hash256>
    var utxoTip: Option<Hash256>
    var tipCache: Option<Block>
    var heightCache: Option<nat>
    var lastDisconnected: Chain

    /** The object's state as a value of the chain machine. */
    ghost function View(): State
      reads this
    {
      State(blocks, canonical, utxo, metaTip, utxoTip, tipCache, heightCache, lastDisconnected)
    }

    ghost predicate Valid(w: World, p: Params)
      reads this
    {
      p.WellFormed() && Inv(w, p, View())
    }

    constructor ()
      ensures View() == EMPTY
    {
      blocks, canonical, utxo := map[], map[], map[];
      metaTip, utxoTip, tipCache, heightCache := None, None, None, None;
      lastDisconnected := [];
    }

    // ---- Walks over the block store -------------------------------------------

    method GetBlockByHash(h: Hash256) returns (b: Option<Block>)
      ensures b == if h in blocks then Some(blocks[h]) else None
    {
      b := if h in blocks then Some(blocks[h]) else None;
    }

    method ChainWork(w: World, tipHash: Hash256) returns (work: nat)
      requires Closed(w, blocks)
      ensures work == WorkAt(w, blocks, tipHash)
    {
      work := 0;
      var cur := tipHash;
      ghost var rest: Chain := [];
      while cur in blocks
        invariant tipHash in blocks ==> cur in blocks && ChainTo(w, blocks, tipHash) == ChainTo(w, blocks, cur) + rest
        invariant tipHash !in blocks ==> cur !in blocks && work == 0
        invariant work == Min(Store.Work(rest), U128_MAX)
        decreases if cur in blocks then blocks[cur].header.height else 0
      {
        var b := blocks[cur];
        assert Filed(w, blocks, cur);
        ghost var shorter := if b.header.prev == ZERO then [] else ChainTo(w, blocks, b.header.prev);
        assert ChainTo(w, blocks, cur) + rest == shorter + ([b] + rest);
        WorkConcat([b], rest);
        assert [b][..0] == [];
        work := Min(work + Pow2(b.header.bits), U128_MAX);
        rest := [b] + rest;
        if b.header.prev == ZERO {
          assert ChainTo(w, blocks, tipHash) == rest;
          return;
        }
        cur := b.header.prev;
      }
    }

    method BuildCanonicalChain(w: World, tipHash: Hash256) returns (chain: Chain)
      requires Closed(w, blocks) && tipHash in blocks
      ensures chain == ChainTo(w, blocks, tipHash)
    {
      var cur := tipHash;
      chain := [];
      while cur in blocks
        invariant cur in blocks && ChainTo(w, blocks, tipHash) == ChainTo(w, blocks, cur) + chain
        decreases blocks[cur].header.height
      {
        var b := blocks[cur];
        assert Filed(w, blocks, cur);
        ghost var shorter := if b.header.prev == ZERO then [] else ChainTo(w, blocks, b.header.prev);
        assert ChainTo(w, blocks, cur) + chain == shorter + ([b] + chain);
        chain := [b] + chain;
        if b.header.prev == ZERO {
          return;
        }
        cur := b.header.prev;
      }
    }

    /** Stored canonical blocks in key order of the height index. */
    method CanonicalBlocksIter() returns (chain: Chain)
      ensures chain == CanonicalBlocks(canonical, blocks)
    {
      var left := canonical;
      chain := [];
      hide CanonicalBlocks;
      while left != map[]
        invariant CanonicalBlocks(canonical, blocks) == chain + CanonicalBlocks(left, blocks)
        decreases |left|
      {
        ghost var least := MinKey(left.Keys);
        assert least in left.Keys && forall j :: j in left.Keys ==> least <= j;
        var k :| k in left.Keys && forall j :: j in left.Keys ==> k <= j;
        CanonicalStep(left, blocks, k, chain);
        FewerKeys(left, k);
        if left[k] in blocks {
          chain := chain + [blocks[left[k]]];
        }
        left := left - {k};
      }
      NothingCanonical(left, blocks);
    }

    method ExpectedLeadingZeroBitsFor(w: World, p: Params, parent: Option<Block>) returns (bits: u8)
      requires p.WellFormed() && Closed(w, blocks)
      requires parent.Some? ==> w.BlockHash(parent.value) in blocks && blocks[w.BlockHash(parent.value)] == parent.value
      ensures bits == RequiredBits(p, if parent.Some? then ChainTo(w, blocks, w.BlockHash(parent.value)) else [])
    {
      var height := if parent.Some? then parent.value.header.height + 1 else 0;
      ghost var past := if parent.Some? then ChainTo(w, blocks, w.BlockHash(parent.value)) else [];
      var sample: Option<Sample> := None;
      if height >= p.activation {
        var window := Max(p.window, 1);
        var epoch := (height - p.activation) / window;
        EpochIsQuotient(p, height);
        hide EpochOf, WindowStart;
        if epoch == 0 {
          if height >= SatAdd(p.activation, 2) && height > p.activation {
            var first, last := WalkBack(w, parent.value, p.activation, height - 1);
            sample := Some(Sample(first.header.timestamp, last.header.timestamp, last.header.bits,
                                  SatSub(last.header.height, first.header.height) + 1));
          }
        } else {
          WindowBelow(p, height);
          WindowStartIs(p, epoch);
          var start := p.activation + (epoch - 1) * window;
          var first, last := WalkBack(w, parent.value, start, start + window - 1);
          sample := Some(Sample(first.header.timestamp, last.header.timestamp, last.header.bits, window));
        }
      }
      assert sample == SampleFor(p, past);
      bits := ExpectedBits(p, height, sample);
    }

    /** Walks from `parent` towards genesis, picking up its ancestors at two heights; the walk always finds both. */
    method WalkBack(w: World, parent: Block, lo: nat, hi: nat) returns (first: Block, last: Block)
      requires Closed(w, blocks) && w.BlockHash(parent) in blocks && blocks[w.BlockHash(parent)] == parent
      requires lo <= hi <= parent.header.height
      ensures first == ChainTo(w, blocks, w.BlockHash(parent))[lo]
      ensures last == ChainTo(w, blocks, w.BlockHash(parent))[hi]
    {
      ghost var past := ChainTo(w, blocks, w.BlockHash(parent));
      ChainToLinked(w, blocks, w.BlockHash(parent));
      var cur := parent;
      last := parent;
      while true
        invariant lo <= cur.header.height < |past| && cur == past[cur.header.height]
        invariant cur.header.height < hi ==> last == past[hi]
        decreases cur.header.height
      {
        var h := cur.header.height;
        if h == hi { last := cur; }
        if h <= lo {
          first := cur;
          return;
        }
        assert past[h - 1].header.height == h - 1;
        cur := blocks[cur.header.prev];
      }
    }

    // ---- The UTXO column ------------------------------------------------------

    method ReplayUtxo(w: World, p: Params, chain: Chain) returns (r: Result<UtxoMap, UtxoError>)
      ensures r == Replay(w, p, chain)
    {
      var set' := new UtxoSet();
      var i := 0;
      while i < |chain|
        invariant 0 <= i <= |chain|
        invariant fresh(set')
        invariant Replay(w, p, chain[..i]) == Ok(set'.entries)
      {
        assert chain[..i + 1][..i] == chain[..i];
        var applied := set'.ApplyBlock(w, p, chain[i]);
        if applied.Err? {
          ReplayFails(w, p, chain, i + 1);
          return Err(applied.error);
        }
        i := i + 1;
      }
      assert chain[..i] == chain;
      return Ok(set'.entries);
    }

    /** Adds the entries one payment can read. */
    method SeedInputs(tx: Transaction, seed: UtxoMap, ghost keys: set<OutPoint>) returns (more: UtxoMap)
      requires seed == Picked(utxo, keys)
      ensures more == Picked(utxo, keys + InputSet(tx.inputs))
    {
      more := seed;
      assert keys + InputSet(tx.inputs[..0]) == keys;
      hide Picked, InputSet;
      var k := 0;
      while k < |tx.inputs|
        invariant 0 <= k <= |tx.inputs|
        invariant more == Picked(utxo, keys + InputSet(tx.inputs[..k]))
      {
        var op := tx.inputs[k].prev;
        InputSetSnoc(tx.inputs[..k], tx.inputs[k]);
        assert tx.inputs[..k + 1] == tx.inputs[..k] + [tx.inputs[k]];
        PickedAdd(utxo, keys + InputSet(tx.inputs[..k]), op);
        assert keys + InputSet(tx.inputs[..k + 1]) == keys + InputSet(tx.inputs[..k]) + {op};
        if op in utxo {
          more := more[op := utxo[op]];
        }
        k := k + 1;
      }
      assert tx.inputs[..k] == tx.inputs;
    }

    /** The entries a block's payments can read. */
    method SeedEntries(b: Block) returns (seed: UtxoMap)
      requires b.txs != []
      ensures seed == Seed(utxo, b.txs[1..])
    {
      seed := map[];
      var n := 1;
      assert SpentBy(b.txs[1..1]) == {};
      assert seed == Picked(utxo, SpentBy(b.txs[1..1]));
      hide Picked, InputSet, SpentBy;
      while n < |b.txs|
        invariant 1 <= n <= |b.txs|
        invariant seed == Picked(utxo, SpentBy(b.txs[1..n]))
      {
        seed := SeedInputs(b.txs[n], seed, SpentBy(b.txs[1..n]));
        SpentBySnoc(b.txs[1..n], b.txs[n]);
        assert b.txs[1..n + 1] == b.txs[1..n] + [b.txs[n]];
        n := n + 1;
      }
      assert b.txs[1..n] == b.txs[1..];
    }

    /** Checks a block against a set seeded with exactly the entries it can read. */
    method ValidateBlockUtxo(w: World, p: Params, b: Block) returns (r: Result<(), UtxoError>)
      requires b.txs != []
      ensures var spec := CheckBlock(w, p, Seed(utxo, b.txs[1..]), b);
              r == if spec.Ok? then Ok(()) else Err(spec.error)
    {
      var seed := new UtxoSet();
      var entries := SeedEntries(b);
      seed.entries := entries;
      r := seed.ApplyBlock(w, p, b);
    }

    /** The column after the block's delta: deletes for its inputs, puts for its outputs. */
    method UtxoDelta(b: Block) returns (next: UtxoMap)
      requires b.txs != []
      ensures next == Effect(utxo, b)
    {
      var delta := new UtxoSet();
      delta.entries := utxo;
      delta.SpendInputs(b);
      delta.CreateOutputs(b);
      next := delta.entries;
    }

    /** Rebuilds the UTXO column when its stamp is not the tip's; in a valid state this cannot fail. */
    method EnsureUtxoSynced(w: World, p: Params) returns (r: Result<(), UtxoError>)
      requires Valid(w, p)
      modifies this`utxo, this`utxoTip
      ensures r == Ok(()) && Valid(w, p)
      ensures EnsureSynced(w, p, old(View())) == Ok(View())
      ensures utxoTip == metaTip && (metaTip.Some? ==> Replay(w, p, Best(w, View())) == Ok(utxo))
    {
      SyncNeverFails(w, p, View());
      if tipCache.None? { return Ok(()); }
      var tip := w.BlockHash(tipCache.value);
      if utxoTip == Some(tip) { return Ok(()); }
      var chain := CanonicalBlocksIter();
      var rebuilt := ReplayUtxo(w, p, chain);
      match rebuilt {
        case Err(e) => return Err(e);
        case Ok(entries) =>
          utxo, utxoTip := entries, Some(tip);
          return Ok(());
      }
    }

    // ---- Accepting blocks -----------------------------------------------------

    method SharedBlocks(w: World, a: Chain, b: Chain) returns (n: nat)
      ensures n == ForkIndex(w, a, b)
    {
      n := 0;
      while n < |a| && n < |b| && w.BlockHash(a[n]) == w.BlockHash(b[n])
        invariant 0 <= n <= |a| && n <= |b|
        invariant ForkIndex(w, a, b) == n + ForkIndex(w, a[n..], b[n..])
      {
        assert a[n..][1..] == a[n + 1..] && b[n..][1..] == b[n + 1..];
        n := n + 1;
      }
    }

    /** Puts a chain's entries into the height index. */
    method PutIndex(w: World, chain: Chain) returns (index: map<nat, Hash256>)
      requires forall i :: 0 <= i < |chain| ==> chain[i].header.height == i
      ensures index == canonical + Index(w, chain)
    {
      index := canonical;
      var i := 0;
      while i < |chain|
        invariant 0 <= i <= |chain|
        invariant index == canonical + Index(w, chain[..i])
      {
        index := index[chain[i].header.height := w.BlockHash(chain[i])];
        IndexOfExtension(w, chain[..i], chain[i]);
        assert chain[..i + 1] == chain[..i] + [chain[i]];
        i := i + 1;
      }
      assert chain[..i] == chain;
    }

    /** Deletes the entries of heights `from` to `upTo`. */
    method PruneIndex(index: map<nat, Hash256>, from: nat, upTo: nat) returns (pruned: map<nat, Hash256>)
      ensures pruned == index - (set h | h in index && from <= h <= upTo)
    {
      pruned := index;
      var h := from;
      while h <= upTo
        invariant from <= h
        invariant pruned == index - (set j | j in index && from <= j <= upTo && j < h)
        decreases upTo + 1 - h
      {
        pruned := pruned - {h};
        h := h + 1;
      }
    }

    /** Fast path: the block extends the tip, so the UTXO column already reflects its parent. */
    method ExtendTip(w: World, p: Params, b: Block) returns (r: Result<Block, StateError>)
      requires b.txs != []
      modifies this
      ensures var hash := w.BlockHash(b);
              (r, View()) ==
                match CheckBlock(w, p, Seed(old(utxo), b.txs[1..]), b)
                case Err(e) => (Err(BadUtxo(e)), old(View()))
                case Ok(_) =>
                  (Ok(b), Adopt(old(View()), hash, b, old(canonical)[b.header.height := hash], Effect(old(utxo), b),
                                old(lastDisconnected)))
    {
      var hash := w.BlockHash(b);
      var checked := ValidateBlockUtxo(w, p, b);
      if checked.Err? { return Err(BadUtxo(checked.error)); }
      var next := UtxoDelta(b);
      canonical, utxo, metaTip, utxoTip, tipCache, heightCache :=
        canonical[b.header.height := hash], next, Some(hash), Some(hash), Some(b), Some(b.header.height);
      return Ok(b);
    }

    /** Reorganisation: replays the whole new chain, then replaces the index and the UTXO column in one batch. */
    method ReorgTip(w: World, p: Params, b: Block, oldTip: Hash256) returns (r: Result<Block, StateError>)
      requires Closed(w, blocks) && oldTip in blocks && w.BlockHash(b) in blocks
      modifies this
      ensures var hash := w.BlockHash(b);
              var chain, oldChain := ChainTo(w, old(blocks), hash), ChainTo(w, old(blocks), oldTip);
              (r, View()) ==
                match Replay(w, p, chain)
                case Err(e) => (Err(BadUtxo(e)), old(View()))
                case Ok(entries) =>
                  var oldHeight := if old(heightCache).Some? then old(heightCache).value else 0;
                  var index := ReorgIndex(w, old(canonical), chain, oldHeight);
                  (Ok(b), Adopt(old(View()), hash, b, index, entries, oldChain[ForkIndex(w, oldChain, chain)..]))
    {
      hide ChainTo, Replay, ForkIndex, Closed, Filed;
      var hash := w.BlockHash(b);
      var chain := BuildCanonicalChain(w, hash);
      var replayed := ReplayUtxo(w, p, chain);
      if replayed.Err? { return Err(BadUtxo(replayed.error)); }
      var oldHeight := if heightCache.Some? then heightCache.value else 0;
      var oldChain := BuildCanonicalChain(w, oldTip);
      var fork := SharedBlocks(w, oldChain, chain);
      ChainToLinked(w, blocks, hash);
      var put := PutIndex(w, chain);
      var index := PruneIndex(put, |chain|, oldHeight);
      PrunedPut(w, canonical, chain, oldHeight);
      hide ReorgIndex, Index;
      canonical, utxo, metaTip, utxoTip, tipCache, heightCache, lastDisconnected :=
        index, replayed.value, Some(hash), Some(hash), Some(b), Some(b.header.height), oldChain[fork..];
      return Ok(b);
    }

    /** Fork choice for a block that has just been stored. */
    method ChooseTip(w: World, p: Params, b: Block) returns (r: Result<Block, StateError>)
      requires p.WellFormed() && Pending(w, p, View(), b)
      modifies this
      ensures (r, View()) == Choose(w, p, old(View()), b)
    {
      var hash := w.BlockHash(b);
      assert Filed(w, blocks, metaTip.value);
      assert AcceptedAt(w, p, blocks, hash);
      var oldTip := w.BlockHash(tipCache.value);
      assert oldTip == TipHash(w, View()) == metaTip.value;
      hide Pending, StoreInv, Accepted, Replay, CheckBlock, Effect, ForkIndex, Index;
      var newWork := ChainWork(w, hash);
      var oldWork := ChainWork(w, oldTip);
      if newWork <= oldWork {
        r := Ok(b);
      } else if b.header.prev == oldTip {
        r := ExtendTip(w, p, b);
      } else {
        r := ReorgTip(w, p, b, oldTip);
      }
    }

    /** Accepts a block from a miner or a peer, applying the fork-choice rule. */
    method SubmitBlock(w: World, p: Params, b: Block, now: nat) returns (r: Result<Block, StateError>)
      requires Valid(w, p)
      modifies this
      ensures (r, View()) == Submit(w, p, old(View()), b, now)
      ensures Valid(w, p)
    {
      hide Inv, StoreInv, UtxoInv, Pending, RequiredBits, EpochSeed, Choose, EnsureSynced, ValidateBlock, Submit,
           Closed, ChainTo, Filed;
      ghost var before := View();
      Runs.SubmitKeepsInv(w, p, before, b, now);
      SubmitRefuses(w, p, before, b, now);
      var hash := w.BlockHash(b);
      if hash in blocks { return Err(AlreadyKnown); }
      var synced := EnsureUtxoSynced(w, p);
      var parent := GetBlockByHash(b.header.prev);
      if parent.None? { return Err(UnknownParent); }
      ParentFiled(w, p, View(), b.header.prev);
      var bits := ExpectedLeadingZeroBitsFor(w, p, parent);
      var seed := EpochSeedForHeight(w, b.header.height);
      var broken := ValidateBlock(w, p, parent, b, now, bits, seed);
      if broken.Some? { return Err(Invalid(broken.value)); }
      SubmitStores(w, p, before, View(), b, now);
      blocks := blocks[hash := b];
      lastDisconnected := [];
      r := ChooseTip(w, p, b);
    }

    // ---- Genesis, mining and templates ----------------------------------------

    method FileAsTip(w: World, b: Block)
      modifies this
      ensures View() == PutBlock(w, old(View()), b)
    {
      var hash := w.BlockHash(b);
      blocks, canonical, metaTip, tipCache, heightCache :=
        blocks[hash := b], canonical[b.header.height := hash], Some(hash), Some(b), Some(b.header.height);
    }

    method InitGenesisNonce(w: World, p: Params, timestamp: nat, nonce: nat) returns (r: Result<Block, StateError>)
      requires Valid(w, p)
      modifies this
      ensures (r, View()) == InitGenesis(w, p, old(View()), timestamp, nonce)
      ensures Valid(w, p)
    {
      Runs.GenesisKeepsInv(w, p, View(), timestamp, nonce);
      if heightCache.Some? { return Err(GenesisAlreadyExists); }
      var bits := ExpectedLeadingZeroBitsFor(w, p, None);
      var seed := EpochSeedForHeight(w, 0);
      hide Inv, RequiredBits, EpochSeed, ValidateBlock, Candidate;
      var b := WithBits(Candidate(w, p, None, timestamp, "genesis", [], 0), bits, nonce);
      if !w.meetsWork(b.header, seed) { return Err(MiningFailed); }
      var broken := ValidateBlock(w, p, None, b, timestamp, bits, seed);
      if broken.Some? { return Err(Invalid(broken.value)); }
      FileAsTip(w, b);
      return Ok(b);
    }

    method MineNextBlock(w: World, p: Params, timestamp: nat, miner: string, maxNonce: nat)
      returns (r: Result<Block, StateError>)
      requires Valid(w, p)
      modifies this
      ensures (r, View()) == MineNext(w, p, old(View()), timestamp, miner, maxNonce)
      ensures Runs.MinesNoCollision(w, p, old(View()), timestamp, miner, maxNonce) ==> Valid(w, p)
    {
      ghost var before := View();
      if tipCache.Some? {
        Runs.TipFacts(w, p, View());
        var parent := tipCache.value;
        var template := CandidateBlockWithMempool(w, p, timestamp, miner, [], 0);
        var seed := EpochSeedForHeight(w, parent.header.height + 1);
        assert Best(w, View()) == ChainTo(w, blocks, w.BlockHash(parent));
        if Runs.MinesNoCollision(w, p, before, timestamp, miner, maxNonce) {
          Runs.MiningKeepsInv(w, p, before, timestamp, miner, maxNonce);
        }
        hide Inv, RequiredBits, EpochSeed, ValidateBlock, Candidate, Runs.MinesNoCollision;
        var header := FindNonce(w, template.value.header, seed, maxNonce);
        if header.None? { return Err(MiningFailed); }
        var b := Block(header.value, template.value.txs);
        var broken := ValidateBlock(w, p, Some(parent), b, timestamp, template.value.header.bits, seed);
        if broken.Some? { return Err(Invalid(broken.value)); }
        FileAsTip(w, b);
        return Ok(b);
      }
      return Err(MissingGenesis);
    }

    method FindNonce(w: World, header: BlockHeader, seed: Hash256, maxNonce: nat) returns (r: Option<BlockHeader>)
      ensures r == MineHeader(w, header, seed, 0, maxNonce)
      ensures r.Some? ==> r.value == header.(nonce := r.value.nonce) && w.meetsWork(r.value, seed)
      ensures var end := if r.Some? then r.value.nonce else maxNonce + 1;
              forall i :: 0 <= i < end ==> !w.meetsWork(header.(nonce := i), seed)
    {
      MineHeaderFirst(w, header, seed, 0, maxNonce);
      var nonce := 0;
      while nonce <= maxNonce
        invariant MineHeader(w, header, seed, 0, maxNonce) == MineHeader(w, header, seed, nonce, maxNonce)
        decreases maxNonce + 1 - nonce
      {
        if w.meetsWork(header.(nonce := nonce), seed) { return Some(header.(nonce := nonce)); }
        nonce := nonce + 1;
      }
      return None;
    }

    /** A block on the tip, crediting `fees` on top of the subsidy, with the bits its parent's ancestry requires. */
    method CandidateBlockWithMempool(w: World, p: Params, timestamp: nat, miner: string, extra: seq<Transaction>,
                                     fees: u64)
      returns (r: Result<Block, StateError>)
      requires Valid(w, p)
      ensures r == if tipCache.None? then Err(MissingGenesis)
                   else Ok(WithBits(Candidate(w, p, tipCache, timestamp, miner, extra, fees),
                                    RequiredBits(p, Best(w, View())), 0))
    {
      if tipCache.None? { return Err(MissingGenesis); }
      Runs.TipFacts(w, p, View());
      var b := Candidate(w, p, tipCache, timestamp, miner, extra, fees);
      assert b.header.nonce == 0;
      hide Inv, RequiredBits, Candidate;
      var bits := ExpectedLeadingZeroBitsFor(w, p, tipCache);
      return Ok(b.(header := b.header.(bits := bits)));
    }

    // ---- Restart and requeueing -----------------------------------------------

    /** Reloads the caches from the stored tip. */
    method ReloadCaches(w: World, p: Params)
      requires Valid(w, p)
      modifies this
      ensures View() == Reopen(old(View())) && Valid(w, p)
    {
      Runs.RestartKeepsInv(w, p, View());
      lastDisconnected := [];
      if metaTip.Some? && metaTip.value in blocks {
        tipCache, heightCache := Some(blocks[metaTip.value]), Some(blocks[metaTip.value].header.height);
      } else {
        tipCache, heightCache := None, None;
      }
    }

    /** Drains the payments of the blocks the latest submission dropped. */
    method TakeReorgRequeueCandidates() returns (candidates: seq<Transaction>)
      modifies this`lastDisconnected
      ensures candidates == RequeueCandidates(old(lastDisconnected))
      ensures lastDisconnected == []
    {
      var dropped := lastDisconnected;
      lastDisconnected := [];
      candidates := [];
      var i := 0;
      while i < |dropped|
        invariant 0 <= i <= |dropped| && lastDisconnected == []
        invariant RequeueCandidates(dropped) == candidates + RequeueCandidates(dropped[i..])
      {
        var kept := WithoutCoinbase(dropped[i].txs);
        RequeueStep(dropped, i, candidates);
        candidates := candidates + kept;
        i := i + 1;
      }
    }

    method WithoutCoinbase(txs: seq<Transaction>) returns (kept: seq<Transaction>)
      ensures kept == NonCoinbase(txs)
    {
      kept := [];
      var k := 0;
      hide NonCoinbase;
      while k < |txs|
        invariant 0 <= k <= |txs|
        invariant NonCoinbase(txs) == kept + NonCoinbase(txs[k..])
      {
        CoinbaseStep(txs, k, kept);
        if !txs[k].IsCoinbase() { kept := kept + [txs[k]]; }
        k := k + 1;
      }
      NoneLeft(txs[k..]);
    }

    method EpochSeedForHeight(w: World, height: nat) returns (seed: Hash256)
      ensures seed == EpochSeed(w, View(), height)
    {
      var epoch := height / EPOCH_LENGTH;
      if epoch == 0 { return ZERO; }
      var at := epoch * EPOCH_LENGTH - 1;
      if at in canonical && canonical[at] in blocks {
        seed := w.BlockHash(blocks[canonical[at]]);
      } else {
        seed := ZERO;
      }
    }
  }

  lemma PrunedPut(w: World, canonical: map<nat, Hash256>, chain: Chain, oldHeight: nat)
    ensures var put := canonical + Index(w, chain);
            put - (set h | h in put && |chain| <= h <= oldHeight) == ReorgIndex(w, canonical, chain, oldHeight)
  {
  }

  /** Once a prefix fails to replay, the whole chain fails the same way. */
  lemma {:induction false} ReplayFails(w: World, p: Params, chain: Chain, n: nat)
    requires n <= |chain| && Replay(w, p, chain[..n]).Err?
    ensures Replay(w, p, chain) == Replay(w, p, chain[..n])
    decreases |chain|
  {
    if n == |chain| {
      assert chain[..n] == chain;
    } else {
      assert chain[..|chain| - 1][..n] == chain[..n];
      ReplayFails(w, p, chain[..|chain| - 1], n);
    }
  }
}
