/** What holds in every state any run of the chain machine can reach, and what one submission changes. */
module Runs {
  import opened Prelude
  import opened Types
  import opened Utxo
  import opened Validation
  import opened Store
  import opened Difficulty
  import opened ForkChoice
  import opened Consensus
  import opened Emission

  // ---- Genesis and local mining keep the invariant ---------------------------

  lemma GenesisKeepsInv(w: World, p: Params, s: State, timestamp: nat, nonce: nat)
    requires p.WellFormed() && Inv(w, p, s)
    ensures Inv(w, p, InitGenesis(w, p, s, timestamp, nonce).1)
  {
    var (r, s') := InitGenesis(w, p, s, timestamp, nonce);
    if r.Ok? {
      var b, hash := r.value, w.BlockHash(r.value);
      var c := Candidate(w, p, None, timestamp, "genesis", [], 0);
      CandidateApplies(w, p, map[], None, timestamp, "genesis", [], 0);
      assert ApplyBlock(w, p, map[], b).Ok?;
      assert s'.blocks == map[hash := b] && Closed(w, s'.blocks);
      assert ChainTo(w, s'.blocks, hash) == [b];
      assert [b][..0] == [];
      assert AcceptedAt(w, p, s'.blocks, hash);
      assert Index(w, [b]) == map[0 := hash];
      assert Replay(w, p, [b]).Ok? by { assert Replay(w, p, []) == Ok(map[]); }
    }
  }

  lemma MinedApplies(w: World, p: Params, m: UtxoMap, parent: Block, timestamp: nat, miner: string, b: Block)
    requires p.WellFormed()
    requires var c := Candidate(w, p, Some(parent), timestamp, miner, [], 0);
             b.txs == c.txs && b.header.height == c.header.height
    ensures ApplyBlock(w, p, m, b).Ok?
  {
    CandidateApplies(w, p, m, Some(parent), timestamp, miner, [], 0);
  }

  /** Filing a child of the tip, or filing it again, changes no other stored chain. */
  lemma PutKeepsStore(w: World, p: Params, s: State, b: Block)
    requires p.WellFormed() && Inv(w, p, s) && s.metaTip == Some(b.header.prev)
    requires w.BlockHash(b) in s.blocks ==> s.blocks[w.BlockHash(b)] == b
    requires b.header.height == s.blocks[b.header.prev].header.height + 1 && Accepted(w, p, Best(w, s), b)
    ensures var blocks' := s.blocks[w.BlockHash(b) := b];
            && StoreInv(w, p, blocks')
            && ChainTo(w, blocks', w.BlockHash(b)) == Best(w, s) + [b]
            && forall h :: h in s.blocks ==> ChainTo(w, blocks', h) == ChainTo(w, s.blocks, h)
  {
    var hash := w.BlockHash(b);
    if hash in s.blocks {
      assert Filed(w, s.blocks, hash);
      assert s.blocks[hash := b] == s.blocks;
      ZeroIsNotStored(w, s.blocks);
    } else {
      InsertKeepsStore(w, p, s.blocks, b);
    }
  }

  /** A replayable child of the tip may become the tip directly. */
  lemma PutKeepsInv(w: World, p: Params, s: State, b: Block)
    requires p.WellFormed() && Inv(w, p, s) && s.metaTip == Some(b.header.prev)
    requires w.BlockHash(b) in s.blocks ==> s.blocks[w.BlockHash(b)] == b
    requires b.header.height == s.blocks[b.header.prev].header.height + 1
    requires Accepted(w, p, Best(w, s), b) && ApplyBlock(w, p, Replay(w, p, Best(w, s)).value, b).Ok?
    ensures Inv(w, p, PutBlock(w, s, b))
  {
    var best := Best(w, s);
    PutKeepsStore(w, p, s, b);
    hide StoreInv, Accepted, ApplyBlock;
    assert (best + [b])[..|best|] == best;
    IndexOfExtension(w, best, b);
  }

  /** Local mining skips fork choice and the UTXO column, and still lands in the invariant, as long as no other block
      is stored under the mined block's hash. */
  lemma MiningKeepsInv(w: World, p: Params, s: State, timestamp: nat, miner: string, maxNonce: nat)
    requires p.WellFormed() && Inv(w, p, s) && MinesNoCollision(w, p, s, timestamp, miner, maxNonce)
    ensures Inv(w, p, MineNext(w, p, s, timestamp, miner, maxNonce).1)
  {
    var (r, s') := MineNext(w, p, s, timestamp, miner, maxNonce);
    if r.Ok? {
      hide Inv, MineNext;
      MinedFacts(w, p, s, timestamp, miner, maxNonce);
      PutKeepsInv(w, p, s, r.value);
    }
  }

  /** The mined block's hash is new, or the store already holds that very block. */
  ghost predicate MinesNoCollision(w: World, p: Params, s: State, timestamp: nat, miner: string, maxNonce: nat)
    requires p.WellFormed() && Inv(w, p, s)
  {
    var (r, _) := MineNext(w, p, s, timestamp, miner, maxNonce);
    r.Ok? && w.BlockHash(r.value) in s.blocks ==> s.blocks[w.BlockHash(r.value)] == r.value
  }

  lemma TipFacts(w: World, p: Params, s: State)
    requires p.WellFormed() && Inv(w, p, s) && s.tipCache.Some?
    ensures s.metaTip == Some(w.BlockHash(s.tipCache.value))
    ensures s.metaTip.value in s.blocks && s.blocks[s.metaTip.value] == s.tipCache.value
    ensures Closed(w, s.blocks) && Replay(w, p, Best(w, s)).Ok?
  {
    assert Filed(w, s.blocks, s.metaTip.value);
  }

  lemma MinedFacts(w: World, p: Params, s: State, timestamp: nat, miner: string, maxNonce: nat)
    requires p.WellFormed() && Inv(w, p, s) && MineNext(w, p, s, timestamp, miner, maxNonce).0.Ok?
    ensures var b := MineNext(w, p, s, timestamp, miner, maxNonce).0.value;
            && s.metaTip == Some(b.header.prev)
            && b.header.height == s.blocks[b.header.prev].header.height + 1
            && Accepted(w, p, Best(w, s), b)
            && ApplyBlock(w, p, Replay(w, p, Best(w, s)).value, b).Ok?
            && MineNext(w, p, s, timestamp, miner, maxNonce).1 == PutBlock(w, s, b)
  {
    TipFacts(w, p, s);
    hide Inv, EpochSeed, RequiredBits, ApplyBlock, Replay;
    var b := MineNext(w, p, s, timestamp, miner, maxNonce).0.value;
    MinedApplies(w, p, Replay(w, p, Best(w, s)).value, s.tipCache.value, timestamp, miner, b);
  }

  // ---- The heaviest chain ----------------------------------------------------

  /** What a step may do to the store and the tip: keep every stored chain, never lower the tip's work, and add at most
      one block, which does not outweigh the new tip if it replays. */
  ghost predicate Grows(w: World, p: Params, s: State, s': State, added: Hash256)
    requires p.WellFormed() && Inv(w, p, s) && Inv(w, p, s')
  {
    && (s.metaTip.Some? ==> s'.metaTip.Some?)
    && (forall h :: h in s.blocks ==> h in s'.blocks && ChainTo(w, s'.blocks, h) == ChainTo(w, s.blocks, h))
    && (forall h :: h in s'.blocks ==> h in s.blocks || h == added)
    && (s.metaTip.Some? ==> WorkAt(w, s.blocks, s.metaTip.value) <= WorkAt(w, s'.blocks, s'.metaTip.value))
  }

  /** The added block is settled: it does not outweigh the tip, or its chain does not replay. */
  ghost predicate Settled(w: World, p: Params, s: State, h: Hash256)
    requires p.WellFormed() && Inv(w, p, s)
  {
    h in s.blocks && s.metaTip.Some? && Replay(w, p, ChainTo(w, s.blocks, h)).Ok? ==>
      WorkAt(w, s.blocks, h) <= WorkAt(w, s.blocks, s.metaTip.value)
  }

  /** No replayable stored block outweighs the tip, but for those in `cut`. */
  ghost predicate Topped(w: World, p: Params, s: State, cut: set<Hash256>)
    requires p.WellFormed() && Inv(w, p, s)
  {
    s.metaTip.Some? ==> HeaviestBut(w, p, s.blocks, s.metaTip.value, cut)
  }

  lemma GrowsKeepsTopped(w: World, p: Params, s: State, s': State, added: Hash256, cut: set<Hash256>)
    requires p.WellFormed() && Inv(w, p, s) && Inv(w, p, s')
    requires Grows(w, p, s, s', added) && Topped(w, p, s, cut)
    ensures Settled(w, p, s', added) ==> Topped(w, p, s', cut)
    ensures Topped(w, p, s', cut + {added})
  {
    assert Closed(w, s.blocks) && Closed(w, s'.blocks);
    assert s.metaTip.None? ==> s.blocks == map[];
    assert s.metaTip.Some? ==> s.metaTip.value in s.blocks;
    hide Inv, Replay, ChainTo, Closed;
    if s'.metaTip.Some? {
      SameWork(w, p, s, s', added);
      ToppedBut(w, p, s, s', added, cut);
    }
  }

  lemma SameWork(w: World, p: Params, s: State, s': State, added: Hash256)
    requires p.WellFormed() && Inv(w, p, s) && Inv(w, p, s') && Grows(w, p, s, s', added)
    requires Closed(w, s.blocks) && Closed(w, s'.blocks)
    ensures forall h :: h in s.blocks ==> WorkAt(w, s'.blocks, h) == WorkAt(w, s.blocks, h)
  {
    hide Inv, ChainTo, Closed;
  }

  lemma ToppedBut(w: World, p: Params, s: State, s': State, added: Hash256, cut: set<Hash256>)
    requires p.WellFormed() && Inv(w, p, s) && Inv(w, p, s') && Grows(w, p, s, s', added) && Topped(w, p, s, cut)
    requires Closed(w, s.blocks) && Closed(w, s'.blocks) && s'.metaTip.Some? && (s.metaTip.None? ==> s.blocks == map[])
    requires forall h :: h in s.blocks ==> WorkAt(w, s'.blocks, h) == WorkAt(w, s.blocks, h)
    ensures Topped(w, p, s', cut + {added}) && (Settled(w, p, s', added) ==> Topped(w, p, s', cut))
  {
    hide Inv, ChainTo, Closed, WorkAt, Replay;
    var tip := s'.metaTip.value;
    forall h | h in s'.blocks && h !in cut && h != added && Replay(w, p, ChainTo(w, s'.blocks, h)).Ok?
      ensures WorkAt(w, s'.blocks, h) <= WorkAt(w, s'.blocks, tip)
    {
      assert WorkAt(w, s.blocks, h) <= WorkAt(w, s.blocks, s.metaTip.value);
    }
  }

  /** The naive machine's step, case by case. */
  lemma NaiveCases(w: World, p: Params, n: Naive, b: Block, now: nat, seed: Hash256)
    requires p.WellFormed() && StoreInv(w, p, n.blocks) && n.tip in n.blocks
    ensures var n' := NaiveSubmit(w, p, n, b, now, seed).1;
            var hash := w.BlockHash(b);
            || n' == n
            || (&& hash !in n.blocks && b.header.prev in n.blocks
                && b.header.height == n.blocks[b.header.prev].header.height + 1
                && n'.blocks == n.blocks[hash := b]
                && var chain, best := ChainTo(w, n.blocks, b.header.prev) + [b], ChainTo(w, n.blocks, n.tip);
                   if n'.tip == n.tip then ChainWork(chain) <= ChainWork(best) || Replay(w, p, chain).Err?
                   else n'.tip == hash && ChainWork(chain) > ChainWork(best))
  {
    var hash := w.BlockHash(b);
    if hash !in n.blocks && b.header.prev in n.blocks {
      var bits := RequiredBits(p, ChainTo(w, n.blocks, b.header.prev));
      if ValidateBlock(w, p, Some(n.blocks[b.header.prev]), b, now, bits, seed).None? {
        assert b.header.height == n.blocks[b.header.prev].header.height + 1;
      }
    }
    hide RequiredBits, ValidateBlock, Replay, AcceptedAt, OneGenesis, ChainWork, ChainTo;
  }

  ghost predicate NaiveGrowth(w: World, p: Params, n: Naive, n': Naive, added: Hash256)
    requires Closed(w, n.blocks) && Closed(w, n'.blocks) && n.tip in n.blocks && n'.tip in n'.blocks
  {
    && (forall h :: h in n.blocks ==> h in n'.blocks && ChainTo(w, n'.blocks, h) == ChainTo(w, n.blocks, h))
    && (forall h :: h in n'.blocks ==> h in n.blocks || h == added)
    && WorkAt(w, n.blocks, n.tip) <= WorkAt(w, n'.blocks, n'.tip)
    && (added !in n.blocks && added in n'.blocks && Replay(w, p, ChainTo(w, n'.blocks, added)).Ok? ==>
          WorkAt(w, n'.blocks, added) <= WorkAt(w, n'.blocks, n'.tip))
  }

  lemma NaiveGrows(w: World, p: Params, n: Naive, b: Block, now: nat, seed: Hash256)
    requires p.WellFormed() && StoreInv(w, p, n.blocks) && n.tip in n.blocks
    ensures var n' := NaiveSubmit(w, p, n, b, now, seed).1;
            Closed(w, n'.blocks) && n'.tip in n'.blocks && NaiveGrowth(w, p, n, n', w.BlockHash(b))
  {
    assert Closed(w, n.blocks);
    NaiveCases(w, p, n, b, now, seed);
    var n' := NaiveSubmit(w, p, n, b, now, seed).1;
    hide *;
    if n' == n {
      NothingGrows(w, p, n, w.BlockHash(b));
    } else {
      InsertGrows(w, p, n, n', b);
    }
  }

  lemma NothingGrows(w: World, p: Params, n: Naive, added: Hash256)
    requires Closed(w, n.blocks) && n.tip in n.blocks
    ensures NaiveGrowth(w, p, n, n, added)
  {
    hide ChainTo, Replay, Closed;
  }

  lemma InsertGrows(w: World, p: Params, n: Naive, n': Naive, b: Block)
    requires Closed(w, n.blocks) && n.tip in n.blocks
    requires w.BlockHash(b) !in n.blocks && b.header.prev in n.blocks
    requires b.header.height == n.blocks[b.header.prev].header.height + 1 && n'.blocks == n.blocks[w.BlockHash(b) := b]
    requires var chain, best := ChainTo(w, n.blocks, b.header.prev) + [b], ChainTo(w, n.blocks, n.tip);
             if n'.tip == n.tip then ChainWork(chain) <= ChainWork(best) || Replay(w, p, chain).Err?
             else n'.tip == w.BlockHash(b) && ChainWork(chain) > ChainWork(best)
    ensures Closed(w, n'.blocks) && n'.tip in n'.blocks && NaiveGrowth(w, p, n, n', w.BlockHash(b))
  {
    ZeroIsNotStored(w, n.blocks);
    Insert(w, n.blocks, b);
    hide ChainTo, ChainWork, Replay, Closed;
  }

  lemma GrowsAsNaive(w: World, p: Params, s: State, s': State, n: Naive, n': Naive, added: Hash256)
    requires p.WellFormed() && Follows(w, p, s, n) && Follows(w, p, s', n')
    ensures Inv(w, p, s) && Inv(w, p, s') && Closed(w, n.blocks) && Closed(w, n'.blocks)
    ensures n.tip in n.blocks && n'.tip in n'.blocks
    ensures NaiveGrowth(w, p, n, n', added) ==>
              Grows(w, p, s, s', added) && (added !in s.blocks ==> Settled(w, p, s', added))
  {
    hide Replay, ChainTo, WorkAt, AcceptedAt, Index;
  }

  lemma SubmitGrows(w: World, p: Params, s: State, b: Block, now: nat)
    requires p.WellFormed() && Inv(w, p, s)
    ensures var s' := Submit(w, p, s, b, now).1;
            && Inv(w, p, s') && Grows(w, p, s, s', w.BlockHash(b))
            && (w.BlockHash(b) !in s.blocks ==> Settled(w, p, s', w.BlockHash(b)))
  {
    SubmitKeepsInv(w, p, s, b, now);
    if s.metaTip.Some? {
      var n := Naive(s.blocks, s.metaTip.value);
      var seed := EpochSeed(w, s, b.header.height);
      assert Follows(w, p, s, n);
      assert StoreInv(w, p, n.blocks) && n.tip in n.blocks;
      hide *;
      SubmitRefines(w, p, s, n, b, now);
      NaiveGrows(w, p, n, b, now, seed);
      GrowsAsNaive(w, p, s, Submit(w, p, s, b, now).1, n, NaiveSubmit(w, p, n, b, now, seed).1, w.BlockHash(b));
    } else {
      SubmitBeforeGenesis(w, p, s, b, now);
    }
  }

  lemma SubmitBeforeGenesis(w: World, p: Params, s: State, b: Block, now: nat)
    requires p.WellFormed() && Inv(w, p, s) && s.metaTip.None?
    ensures Submit(w, p, s, b, now).1 == s && s.blocks == map[]
    ensures Grows(w, p, s, s, w.BlockHash(b)) && Settled(w, p, s, w.BlockHash(b))
  {
    hide RequiredBits, ValidateBlock, Choose, Replay;
  }

  lemma SubmitKeepsTopped(w: World, p: Params, s: State, b: Block, now: nat, cut: set<Hash256>)
    requires p.WellFormed() && Inv(w, p, s) && Topped(w, p, s, cut)
    ensures var s' := Submit(w, p, s, b, now).1; Inv(w, p, s') && Topped(w, p, s', cut)
  {
    SubmitGrows(w, p, s, b, now);
    var s' := Submit(w, p, s, b, now).1;
    if w.BlockHash(b) in s.blocks {
      assert s' == s;
    } else {
      hide Inv, Submit, Grows, Settled, Topped;
      GrowsKeepsTopped(w, p, s, s', w.BlockHash(b), cut);
    }
  }

  lemma SameStoreGrows(w: World, p: Params, s: State, s': State, added: Hash256)
    requires p.WellFormed() && Inv(w, p, s) && Inv(w, p, s') && s'.blocks == s.blocks && s'.metaTip == s.metaTip
    ensures Grows(w, p, s, s', added)
  {
    hide ChainTo, Replay;
  }

  lemma MiningGrows(w: World, p: Params, s: State, timestamp: nat, miner: string, maxNonce: nat)
    returns (added: Hash256)
    requires p.WellFormed() && Inv(w, p, s) && MinesNoCollision(w, p, s, timestamp, miner, maxNonce)
    ensures var s' := MineNext(w, p, s, timestamp, miner, maxNonce).1;
            Inv(w, p, s') && Grows(w, p, s, s', added) && Settled(w, p, s', added)
  {
    MiningKeepsInv(w, p, s, timestamp, miner, maxNonce);
    var (r, s') := MineNext(w, p, s, timestamp, miner, maxNonce);
    if r.Ok? {
      added := w.BlockHash(r.value);
      MinedFacts(w, p, s, timestamp, miner, maxNonce);
      hide MineNext, Accepted, ApplyBlock;
      PutGrows(w, p, s, r.value);
    } else {
      assert s' == s;
      added := ZERO;
      SameStoreGrows(w, p, s, s, added);
      ZeroIsNotStored(w, s.blocks);
    }
  }

  lemma PutGrows(w: World, p: Params, s: State, b: Block)
    requires p.WellFormed() && Inv(w, p, s) && s.metaTip == Some(b.header.prev)
    requires w.BlockHash(b) in s.blocks ==> s.blocks[w.BlockHash(b)] == b
    requires b.header.height == s.blocks[b.header.prev].header.height + 1
    requires Accepted(w, p, Best(w, s), b) && Inv(w, p, PutBlock(w, s, b))
    ensures Grows(w, p, s, PutBlock(w, s, b), w.BlockHash(b)) && Settled(w, p, PutBlock(w, s, b), w.BlockHash(b))
  {
    PutKeepsStore(w, p, s, b);
    hide Inv, Accepted, StoreInv;
    StackedGrows(w, p, s, PutBlock(w, s, b), b);
  }

  lemma ExtensionWeighs(chain: Chain, b: Block)
    ensures ChainWork(chain) <= ChainWork(chain + [b])
  {
    WorkConcat(chain, [b]);
    hide Work;
  }

  /** A tip stacked on the old one grows the state. */
  lemma StackedGrows(w: World, p: Params, s: State, s': State, b: Block)
    requires p.WellFormed() && Inv(w, p, s) && Inv(w, p, s') && Closed(w, s.blocks) && Closed(w, s'.blocks)
    requires s.metaTip.Some? && s.metaTip.value in s.blocks
    requires s'.metaTip == Some(w.BlockHash(b)) && s'.blocks == s.blocks[w.BlockHash(b) := b]
    requires forall h :: h in s.blocks ==> ChainTo(w, s'.blocks, h) == ChainTo(w, s.blocks, h)
    requires ChainTo(w, s'.blocks, w.BlockHash(b)) == Best(w, s) + [b]
    ensures Grows(w, p, s, s', w.BlockHash(b)) && Settled(w, p, s', w.BlockHash(b))
  {
    ExtensionWeighs(Best(w, s), b);
    hide Inv, ChainTo, ChainWork, Replay, Closed;
  }

  // ---- A crash between a block's write and fork choice ----------------------

  lemma StoresIgnoresUtxo(w: World, p: Params, s: State, s1: State, b: Block, now: nat)
    requires p.WellFormed() && Closed(w, s.blocks) && s1.blocks == s.blocks && s1.canonical == s.canonical
    ensures Stores(w, p, s1, b, now) <==> Stores(w, p, s, b, now)
  {
    hide EpochSeed, RequiredBits, ValidateBlock, ChainTo;
    SeedIgnoresUtxo(w, s, s1, b.header.height);
  }

  /** Filing one more validated block under an unchanged tip keeps the invariant. */
  lemma StoredKeepsInv(w: World, p: Params, s: State, s1: State, b: Block, now: nat)
    requires p.WellFormed() && Inv(w, p, s) && EnsureSynced(w, p, s) == Ok(s1) && Stores(w, p, s, b, now)
    ensures var s' := Reopen(s1.(blocks := s1.blocks[w.BlockHash(b) := b]));
            && Inv(w, p, s') && s'.metaTip == s.metaTip && s'.blocks == s.blocks[w.BlockHash(b) := b]
            && forall h :: h in s.blocks ==> h in s'.blocks && ChainTo(w, s'.blocks, h) == ChainTo(w, s.blocks, h)
  {
    SyncNeverFails(w, p, s);
    StoresIgnoresUtxo(w, p, s, s1, b, now);
    Stored(w, p, s, s1, b, now);
    hide Stores, EnsureSynced, Replay, AcceptedAt, OneGenesis;
  }

  /** A submission cut short leaves the tip, and at most one more block. */
  lemma CutShortGrows(w: World, p: Params, s: State, b: Block, now: nat)
    requires p.WellFormed() && Inv(w, p, s)
    ensures var s' := CutShort(w, p, s, b, now);
            && Inv(w, p, s') && Grows(w, p, s, s', w.BlockHash(b)) && s'.metaTip == s.metaTip
            && Closed(w, s.blocks)
            && s'.blocks == if Stores(w, p, s, b, now) then s.blocks[w.BlockHash(b) := b] else s.blocks
  {
    assert Closed(w, s.blocks);
    SyncNeverFails(w, p, s);
    var s1 := EnsureSynced(w, p, s).value;
    var s' := CutShort(w, p, s, b, now);
    hide Inv, EnsureSynced, Stores, Closed;
    StoresIgnoresUtxo(w, p, s, s1, b, now);
    if Stores(w, p, s, b, now) {
      StoredKeepsInv(w, p, s, s1, b, now);
      SameTipGrows(w, p, s, s', w.BlockHash(b));
    } else {
      RestartKeepsInv(w, p, s1);
      SameStoreGrows(w, p, s, s', w.BlockHash(b));
    }
  }

  lemma SameTipGrows(w: World, p: Params, s: State, s': State, added: Hash256)
    requires p.WellFormed() && Inv(w, p, s) && Inv(w, p, s') && s'.metaTip == s.metaTip && Closed(w, s.blocks)
             && Closed(w, s'.blocks)
    requires forall h :: h in s.blocks ==> h in s'.blocks && ChainTo(w, s'.blocks, h) == ChainTo(w, s.blocks, h)
    requires forall h :: h in s'.blocks ==> h in s.blocks || h == added
    ensures Grows(w, p, s, s', added)
  {
    hide ChainTo, Replay, Closed;
  }

  /** On its parent's chain the block makes one that replays and has more work than the chain followed. */
  ghost predicate Overtakes(w: World, p: Params, s: State, b: Block)
    requires Closed(w, s.blocks)
  {
    && s.metaTip.Some? && s.metaTip.value in s.blocks && b.header.prev in s.blocks
    && var chain := ChainTo(w, s.blocks, b.header.prev) + [b];
       Replay(w, p, chain).Ok? && ChainWork(chain) > ChainWork(ChainTo(w, s.blocks, s.metaTip.value))
  }

  /** Such a crash leaves a stored replayable block above the tip exactly when the block passes every check before
      the write and overtakes the chain followed, which is when the whole submission would have moved the tip; and
      submitting the block again changes nothing. */
  lemma CrashStrands(w: World, p: Params, s: State, b: Block, now: nat)
    requires p.WellFormed() && Inv(w, p, s) && Topped(w, p, s, {})
    ensures Closed(w, s.blocks)
    ensures var s' := CutShort(w, p, s, b, now);
            && Inv(w, p, s')
            && (Topped(w, p, s', {}) <==> !(Stores(w, p, s, b, now) && Overtakes(w, p, s, b)))
            && (Topped(w, p, s', {}) <==> Submit(w, p, s, b, now).1.metaTip == s.metaTip)
            && (Stores(w, p, s, b, now) ==> Submit(w, p, s', b, now) == (Err(AlreadyKnown), s'))
  {
    CutShortGrows(w, p, s, b, now);
    var s' := CutShort(w, p, s, b, now);
    hide CutShort, Inv, Submit, Grows, Topped, Stores, Closed, Overtakes;
    if Stores(w, p, s, b, now) {
      assert w.BlockHash(b) in s'.blocks;
      ResubmitIgnored(w, p, s', b, now);
      StrandedExactly(w, p, s, s', b, now);
    } else {
      NotStoredKeepsTip(w, p, s, b, now);
      SameStoreTopped(w, p, s, s', {});
    }
  }

  /** What the naive machine does with a block it stores. */
  lemma NaiveMoves(w: World, p: Params, n: Naive, b: Block, now: nat, seed: Hash256)
    requires p.WellFormed() && StoreInv(w, p, n.blocks) && n.tip in n.blocks
    requires w.BlockHash(b) !in n.blocks && b.header.prev in n.blocks
    requires ValidateBlock(w, p, Some(n.blocks[b.header.prev]), b, now,
                           RequiredBits(p, ChainTo(w, n.blocks, b.header.prev)), seed).None?
    ensures var chain := ChainTo(w, n.blocks, b.header.prev) + [b];
            NaiveSubmit(w, p, n, b, now, seed).1.tip == n.tip <==>
              !(Replay(w, p, chain).Ok? && ChainWork(chain) > ChainWork(ChainTo(w, n.blocks, n.tip)))
  {
    hide ValidateBlock, RequiredBits, Replay, ChainWork, ChainTo, AcceptedAt, OneGenesis;
  }

  /** With everything else settled, the state is topped exactly when the added block is settled. */
  lemma ToppedIffSettled(w: World, p: Params, s: State, s': State, added: Hash256)
    requires p.WellFormed() && Inv(w, p, s) && Inv(w, p, s') && Grows(w, p, s, s', added) && Topped(w, p, s, {})
    ensures Topped(w, p, s', {}) <==> Settled(w, p, s', added)
  {
    GrowsKeepsTopped(w, p, s, s', added, {});
    assert Closed(w, s'.blocks);
    hide Grows, Replay, ChainTo;
    if Topped(w, p, s', {}) && added in s'.blocks && s'.metaTip.Some? {
      assert WorkAt(w, s'.blocks, added) <= WorkAt(w, s'.blocks, s'.metaTip.value)
          || Replay(w, p, ChainTo(w, s'.blocks, added)).Err?;
    }
  }

  lemma StoredChain(w: World, p: Params, s: State, s': State, b: Block, now: nat)
    requires p.WellFormed() && Inv(w, p, s) && Inv(w, p, s') && Stores(w, p, s, b, now)
    requires s'.blocks == s.blocks[w.BlockHash(b) := b] && s'.metaTip == s.metaTip && Grows(w, p, s, s', w.BlockHash(b))
    ensures s.metaTip.Some? && s.metaTip.value in s.blocks && StoreInv(w, p, s.blocks) && b.header.prev in s.blocks
    ensures Settled(w, p, s', w.BlockHash(b)) <==> !Overtakes(w, p, s, b)
  {
    assert s.metaTip.None? ==> s.blocks == map[];
    ZeroIsNotStored(w, s.blocks);
    var hash := w.BlockHash(b);
    assert Filed(w, s'.blocks, hash);
    assert ChainTo(w, s'.blocks, hash) == ChainTo(w, s'.blocks, b.header.prev) + [b];
    hide Replay, ChainWork, ValidateBlock, RequiredBits, EpochSeed, AcceptedAt, OneGenesis;
  }

  lemma StrandedExactly(w: World, p: Params, s: State, s': State, b: Block, now: nat)
    requires p.WellFormed() && Inv(w, p, s) && Inv(w, p, s') && Stores(w, p, s, b, now) && Topped(w, p, s, {})
    requires s'.blocks == s.blocks[w.BlockHash(b) := b] && s'.metaTip == s.metaTip && Grows(w, p, s, s', w.BlockHash(b))
    ensures Closed(w, s.blocks)
    ensures Topped(w, p, s', {}) <==> !Overtakes(w, p, s, b)
    ensures Topped(w, p, s', {}) <==> Submit(w, p, s, b, now).1.metaTip == s.metaTip
  {
    StoredChain(w, p, s, s', b, now);
    var n := Naive(s.blocks, s.metaTip.value);
    var seed := EpochSeed(w, s, b.header.height);
    assert Follows(w, p, s, n);
    assert w.BlockHash(b) !in s.blocks;
    assert ValidateBlock(w, p, Some(s.blocks[b.header.prev]), b, now,
                         RequiredBits(p, ChainTo(w, s.blocks, b.header.prev)), seed).None?;
    SubmitRefines(w, p, s, n, b, now);
    hide Inv, Submit, NaiveSubmit, Grows, Topped, Settled, Replay, ChainWork, RequiredBits, ValidateBlock, StoreInv,
         ChainTo;
    NaiveMoves(w, p, n, b, now, seed);
    ToppedIffSettled(w, p, s, s', w.BlockHash(b));
  }

  lemma NotStoredKeepsTip(w: World, p: Params, s: State, b: Block, now: nat)
    requires p.WellFormed() && Inv(w, p, s) && !Stores(w, p, s, b, now)
    ensures Submit(w, p, s, b, now).1.metaTip == s.metaTip
  {
    SyncNeverFails(w, p, s);
    StoresIgnoresUtxo(w, p, s, EnsureSynced(w, p, s).value, b, now);
    hide EnsureSynced, Replay, ChainTo, ValidateBlock, RequiredBits, EpochSeed, Choose;
  }

  lemma ResubmitIgnored(w: World, p: Params, s: State, b: Block, now: nat)
    requires p.WellFormed() && Inv(w, p, s) && w.BlockHash(b) in s.blocks
    ensures Submit(w, p, s, b, now) == (Err(AlreadyKnown), s)
  {
    hide Inv, EnsureSynced, RequiredBits, ValidateBlock, EpochSeed, Choose;
  }

  lemma SameStoreTopped(w: World, p: Params, s: State, s': State, cut: set<Hash256>)
    requires p.WellFormed() && Inv(w, p, s) && Inv(w, p, s') && s'.blocks == s.blocks && s'.metaTip == s.metaTip
    ensures Topped(w, p, s', cut) <==> Topped(w, p, s, cut)
  {
    hide ChainTo, Replay;
  }

  lemma ParentWeighsLess(w: World, blocks: Blocks, c: Block)
    requires Closed(w, blocks) && w.BlockHash(c) in blocks && blocks[w.BlockHash(c)] == c && c.header.prev in blocks
    ensures WorkAt(w, blocks, c.header.prev) <= WorkAt(w, blocks, w.BlockHash(c))
  {
    assert Filed(w, blocks, w.BlockHash(c));
    ZeroIsNotStored(w, blocks);
    ExtensionWeighs(ChainTo(w, blocks, c.header.prev), c);
    hide Work;
  }

  /** A later block stacked on the stranded one, once it becomes the tip, leaves no replayable block above it. */
  lemma ChildHeals(w: World, p: Params, s: State, b: Block, c: Block, now: nat, later: nat)
    requires p.WellFormed() && Inv(w, p, s) && Topped(w, p, s, {})
    requires c.header.prev == w.BlockHash(b)
    ensures var s1 := CutShort(w, p, s, b, now);
            && Inv(w, p, s1)
            && var s2 := Submit(w, p, s1, c, later).1;
            && Inv(w, p, s2)
            && (s1.metaTip.Some? && s2.metaTip == Some(w.BlockHash(c)) != s1.metaTip ==> Topped(w, p, s2, {}))
  {
    CutShortGrows(w, p, s, b, now);
    var s1 := CutShort(w, p, s, b, now);
    hide CutShort, Stores, Submit, Inv, Grows, Topped, Closed, Settled;
    GrowsKeepsTopped(w, p, s, s1, w.BlockHash(b), {});
    assert {} + {w.BlockHash(b)} == {w.BlockHash(b)};
    SubmitKeepsTopped(w, p, s1, c, later, {w.BlockHash(b)});
    var s2 := Submit(w, p, s1, c, later).1;
    if s1.metaTip.Some? && s2.metaTip == Some(w.BlockHash(c)) != s1.metaTip {
      NewTipIs(w, p, s1, c, later);
      TopsParent(w, p, s2, c);
    }
  }

  /** A tip that a submission moved to is the submitted block, on its stored parent. */
  lemma NewTipIs(w: World, p: Params, s: State, c: Block, now: nat)
    requires p.WellFormed() && Inv(w, p, s) && s.metaTip.Some?
    requires Submit(w, p, s, c, now).1.metaTip == Some(w.BlockHash(c)) != s.metaTip
    ensures var s' := Submit(w, p, s, c, now).1;
            && Closed(w, s'.blocks) && w.BlockHash(c) in s'.blocks && s'.blocks[w.BlockHash(c)] == c
            && c.header.prev in s'.blocks
  {
    var n := Naive(s.blocks, s.metaTip.value);
    var seed := EpochSeed(w, s, c.header.height);
    assert Follows(w, p, s, n) && StoreInv(w, p, n.blocks);
    SubmitRefines(w, p, s, n, c, now);
    hide Submit, NaiveSubmit, Inv, Replay, ChainTo, AcceptedAt, OneGenesis;
    NaiveCases(w, p, n, c, now, seed);
    NaiveGrows(w, p, n, c, now, seed);
  }

  lemma TopsParent(w: World, p: Params, s: State, c: Block)
    requires p.WellFormed() && Inv(w, p, s) && s.metaTip == Some(w.BlockHash(c)) && Closed(w, s.blocks)
    requires w.BlockHash(c) in s.blocks && s.blocks[w.BlockHash(c)] == c && c.header.prev in s.blocks
    requires Topped(w, p, s, {c.header.prev})
    ensures Topped(w, p, s, {})
  {
    ParentWeighsLess(w, s.blocks, c);
    hide Inv, Closed, Replay, ChainTo;
  }

  // ---- Runs -----------------------------------------------------------------

  datatype Event =
    | Genesis(timestamp: nat, nonce: nat)
    | Receive(block: Block, now: nat)
    | Mine(timestamp: nat, miner: string, maxNonce: nat)
    | Crash(cut: Block, at: nat)
    | SyncUtxo
    | Restart
    | Drain

  ghost predicate Steps(w: World, p: Params, s: State, e: Event, s': State)
    requires p.WellFormed() && Inv(w, p, s)
  {
    match e
    case Genesis(timestamp, nonce) => s' == InitGenesis(w, p, s, timestamp, nonce).1
    case Receive(b, now) => s' == Submit(w, p, s, b, now).1
    case Mine(timestamp, miner, maxNonce) =>
      s' == MineNext(w, p, s, timestamp, miner, maxNonce).1 && MinesNoCollision(w, p, s, timestamp, miner, maxNonce)
    case Crash(b, now) => s' == CutShort(w, p, s, b, now)
    case SyncUtxo => EnsureSynced(w, p, s) == Ok(s')
    case Restart => s' == Reopen(s)
    case Drain => s' == s.(disconnected := [])
  }

  lemma EmptyInv(w: World, p: Params)
    requires p.WellFormed()
    ensures Inv(w, p, EMPTY)
  {
  }

  lemma SubmitKeepsInv(w: World, p: Params, s: State, b: Block, now: nat)
    requires p.WellFormed() && Inv(w, p, s)
    ensures Inv(w, p, Submit(w, p, s, b, now).1)
  {
    if s.metaTip.Some? {
      SubmitRefines(w, p, s, Naive(s.blocks, s.metaTip.value), b, now);
    }
  }

  lemma RestartKeepsInv(w: World, p: Params, s: State)
    requires p.WellFormed() && Inv(w, p, s)
    ensures Inv(w, p, Reopen(s))
  {
  }

  lemma DrainKeepsInv(w: World, p: Params, s: State)
    requires p.WellFormed() && Inv(w, p, s)
    ensures Inv(w, p, s.(disconnected := []))
  {
  }

  lemma StepKeepsInv(w: World, p: Params, s: State, e: Event, s': State)
    requires p.WellFormed() && Inv(w, p, s) && Steps(w, p, s, e, s')
    ensures Inv(w, p, s')
  {
    hide Inv;
    match e
    case Genesis(timestamp, nonce) => GenesisKeepsInv(w, p, s, timestamp, nonce);
    case Receive(b, now) => SubmitKeepsInv(w, p, s, b, now);
    case Mine(timestamp, miner, maxNonce) => MiningKeepsInv(w, p, s, timestamp, miner, maxNonce);
    case Crash(b, now) => CutShortGrows(w, p, s, b, now);
    case SyncUtxo => SyncNeverFails(w, p, s);
    case Restart => RestartKeepsInv(w, p, s);
    case Drain => DrainKeepsInv(w, p, s);
  }

  ghost predicate Run(w: World, p: Params, states: seq<State>, events: seq<Event>)
    requires p.WellFormed()
  {
    && |states| == |events| + 1
    && states[0] == EMPTY
    && forall i :: 0 <= i < |events| ==> Inv(w, p, states[i]) ==> Steps(w, p, states[i], events[i], states[i + 1])
  }

  /** Every state of every run satisfies the invariant. */
  lemma {:induction false} RunInv(w: World, p: Params, states: seq<State>, events: seq<Event>, i: nat)
    requires p.WellFormed() && Run(w, p, states, events) && i < |states|
    ensures Inv(w, p, states[i])
    decreases i
  {
    hide Inv;
    if i == 0 {
      EmptyInv(w, p);
    } else {
      RunInv(w, p, states, events, i - 1);
      StepKeepsInv(w, p, states[i - 1], events[i - 1], states[i]);
    }
  }

  /** The blocks whose submission a crash cut short. */
  function CutBy(w: World, events: seq<Event>): set<Hash256> {
    if events == [] then {}
    else CutBy(w, events[..|events| - 1]) + Cut(w, events[|events| - 1])
  }

  function Cut(w: World, e: Event): set<Hash256> { if e.Crash? then {w.BlockHash(e.cut)} else {} }

  lemma GenesisGrows(w: World, p: Params, s: State, timestamp: nat, nonce: nat) returns (added: Hash256)
    requires p.WellFormed() && Inv(w, p, s)
    ensures var s' := InitGenesis(w, p, s, timestamp, nonce).1;
            Inv(w, p, s') && Grows(w, p, s, s', added) && Settled(w, p, s', added)
  {
    GenesisKeepsInv(w, p, s, timestamp, nonce);
    var (r, s') := InitGenesis(w, p, s, timestamp, nonce);
    if r.Ok? {
      added := w.BlockHash(r.value);
      hide EpochSeed, RequiredBits, ValidateBlock, Candidate, Replay, ChainTo;
    } else {
      assert s' == s;
      hide InitGenesis;
      added := ZERO;
      SameStoreGrows(w, p, s, s, added);
      ZeroIsNotStored(w, s.blocks);
    }
  }

  /** No step lowers the tip's work, and only a crash may leave a replayable block above the tip. */
  lemma StepGrows(w: World, p: Params, s: State, e: Event, s': State, cut: set<Hash256>) returns (added: Hash256)
    requires p.WellFormed() && Inv(w, p, s) && Topped(w, p, s, cut) && Steps(w, p, s, e, s')
    ensures Inv(w, p, s') && Grows(w, p, s, s', added) && Topped(w, p, s', cut + Cut(w, e))
  {
    StepKeepsInv(w, p, s, e, s');
    hide Inv, Grows, Topped, Settled, Submit, MineNext, InitGenesis, CutShort, EnsureSynced, Reopen;
    assert cut + {} == cut;
    match e
    case Genesis(timestamp, nonce) =>
      added := GenesisGrows(w, p, s, timestamp, nonce);
      GrowsKeepsTopped(w, p, s, s', added, cut);
    case Receive(b, now) =>
      added := w.BlockHash(b);
      SubmitGrows(w, p, s, b, now);
      SubmitKeepsTopped(w, p, s, b, now, cut);
    case Mine(timestamp, miner, maxNonce) =>
      added := MiningGrows(w, p, s, timestamp, miner, maxNonce);
      GrowsKeepsTopped(w, p, s, s', added, cut);
    case Crash(b, now) =>
      added := w.BlockHash(b);
      CutShortGrows(w, p, s, b, now);
      GrowsKeepsTopped(w, p, s, s', added, cut);
    case _ =>
      added := ZERO;
      QuietStep(w, p, s, e, s');
      SameStoreGrows(w, p, s, s', added);
      SameStoreTopped(w, p, s, s', cut);
  }

  lemma QuietStep(w: World, p: Params, s: State, e: Event, s': State)
    requires p.WellFormed() && Inv(w, p, s) && Steps(w, p, s, e, s') && (e.SyncUtxo? || e.Restart? || e.Drain?)
    ensures s'.blocks == s.blocks && s'.metaTip == s.metaTip
  {
    hide *;
    QuietIs(w, p, s, e, s');
    if e.SyncUtxo? { SyncNeverFails(w, p, s); }
    ReopenKeepsStore(s);
  }

  lemma QuietIs(w: World, p: Params, s: State, e: Event, s': State)
    requires p.WellFormed() && Inv(w, p, s) && Steps(w, p, s, e, s')
    ensures e.SyncUtxo? ==> EnsureSynced(w, p, s) == Ok(s')
    ensures e.Restart? ==> s' == Reopen(s)
    ensures e.Drain? ==> s' == s.(disconnected := [])
  {
    hide Inv, EnsureSynced, Reopen, Submit, MineNext, InitGenesis, CutShort, MinesNoCollision;
  }

  lemma ReopenKeepsStore(s: State)
    ensures Reopen(s).blocks == s.blocks && Reopen(s).metaTip == s.metaTip
  {
  }

  /** In every reachable state no stored block whose chain replays outweighs the tip, except blocks whose own submission
      a crash cut short. */
  lemma {:induction false} RunTopped(w: World, p: Params, states: seq<State>, events: seq<Event>, i: nat)
    requires p.WellFormed() && Run(w, p, states, events) && i < |states|
    ensures |states| == |events| + 1 && Inv(w, p, states[i]) && Topped(w, p, states[i], CutBy(w, events[..i]))
    decreases i
  {
    hide *;
    RunShape(w, p, states, events);
    if i == 0 {
      StartsTopped(w, p, states, events);
    } else {
      RunTopped(w, p, states, events, i - 1);
      RunSteps(w, p, states, events, i - 1);
      var _ := StepGrows(w, p, states[i - 1], events[i - 1], states[i], CutBy(w, events[..i - 1]));
      CutByLast(w, events[..i]);
      assert events[..i][..i - 1] == events[..i - 1];
    }
  }

  /** Without crashes, none at all. */
  lemma RunHeaviest(w: World, p: Params, states: seq<State>, events: seq<Event>, i: nat)
    requires p.WellFormed() && Run(w, p, states, events) && i < |states|
    requires forall j :: 0 <= j < i ==> !events[j].Crash?
    ensures Inv(w, p, states[i]) && Topped(w, p, states[i], {})
  {
    RunTopped(w, p, states, events, i);
    hide Inv, Topped, Run, CutBy;
    NoCuts(w, events[..i]);
  }

  lemma RunShape(w: World, p: Params, states: seq<State>, events: seq<Event>)
    requires p.WellFormed() && Run(w, p, states, events)
    ensures |states| == |events| + 1
  {
    hide Steps, Inv;
  }

  lemma CutByLast(w: World, events: seq<Event>)
    requires events != []
    ensures CutBy(w, events) == CutBy(w, events[..|events| - 1]) + Cut(w, events[|events| - 1])
  {
  }

  lemma StartsTopped(w: World, p: Params, states: seq<State>, events: seq<Event>)
    requires p.WellFormed() && Run(w, p, states, events)
    ensures states[0] == EMPTY && Inv(w, p, states[0]) && Topped(w, p, states[0], CutBy(w, events[..0]))
  {
    EmptyInv(w, p);
    hide Steps, Inv;
  }

  lemma RunSteps(w: World, p: Params, states: seq<State>, events: seq<Event>, i: nat)
    requires p.WellFormed() && Run(w, p, states, events) && i < |events| && Inv(w, p, states[i])
    ensures Steps(w, p, states[i], events[i], states[i + 1])
  {
    hide Steps, Inv;
  }

  lemma {:induction false} NoCuts(w: World, events: seq<Event>)
    requires forall j :: 0 <= j < |events| ==> !events[j].Crash?
    ensures CutBy(w, events) == {}
  {
    if events != [] { NoCuts(w, events[..|events| - 1]); }
  }

  /** Tip work at a state, zero before genesis. */
  ghost function TipWork(w: World, p: Params, s: State): nat
    requires p.WellFormed() && Inv(w, p, s)
  {
    if s.metaTip.Some? then WorkAt(w, s.blocks, s.metaTip.value) else 0
  }

  /** Over any run, crashes included, the tip's work never falls. */
  lemma {:induction false} TipWorkNeverFalls(w: World, p: Params, states: seq<State>, events: seq<Event>, i: nat,
                                             j: nat)
    requires p.WellFormed() && Run(w, p, states, events) && i <= j < |states|
    ensures Inv(w, p, states[i]) && Inv(w, p, states[j]) && TipWork(w, p, states[i]) <= TipWork(w, p, states[j])
    decreases j
  {
    RunInv(w, p, states, events, i);
    RunInv(w, p, states, events, j);
    if i < j {
      TipWorkNeverFalls(w, p, states, events, i, j - 1);
      RunTopped(w, p, states, events, j - 1);
      RunSteps(w, p, states, events, j - 1);
      hide Inv, Topped, Steps, WorkAt, Run;
      var _ := StepGrows(w, p, states[j - 1], events[j - 1], states[j], CutBy(w, events[..j - 1]));
    }
  }
}
