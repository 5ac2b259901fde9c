/** The block rules in their own words: exactly which submitted blocks are stored, and with which error the others are
    refused; and what genesis and mining on the tip file. */
module BlockRules {
  import opened Prelude
  import opened Types
  import opened Emission
  import opened Utxo
  import opened Validation
  import opened Store
  import opened Difficulty
  import opened ForkChoice
  import opened Consensus
  import opened Submission
  import opened Runs
  import opened Sync

  // ---- Submission -----------------------------------------------------------

  /** Every rule on a block whose parent is stored, field by field. */
  ghost predicate KeepsEveryRule(w: World, p: Params, s: State, b: Block, now: nat)
    requires p.WellFormed() && Inv(w, p, s) && b.header.prev in s.blocks
    requires Closed(w, s.blocks) && (s.metaTip.Some? ==> s.metaTip.value in s.blocks)
  {
    var h, parent := b.header, s.blocks[b.header.prev].header;
    && h.chainId == p.chainId
    && h.height == parent.height + 1
    && h.timestamp <= now + p.maxFuture
    && h.merkleRoot == w.MerkleRoot(b.txs)
    && h.bits == RequiredBits(p, ChainTo(w, s.blocks, h.prev))
    && w.meetsWork(h, SeedOn(w, Best(w, s), h.height))
    && b.txs != [] && b.txs[0].inputs == [] && COINBASE_TAG <= b.txs[0].payload
  }

  /** The first rule broken, in the order they are checked. */
  ghost function FirstBroken(w: World, p: Params, s: State, b: Block, now: nat): ValidationError
    requires p.WellFormed() && Inv(w, p, s) && b.header.prev in s.blocks
    requires Closed(w, s.blocks) && (s.metaTip.Some? ==> s.metaTip.value in s.blocks)
    requires !KeepsEveryRule(w, p, s, b, now)
  {
    var h, parent := b.header, s.blocks[b.header.prev].header;
    if h.chainId != p.chainId then WrongChainId
    else if h.height != parent.height + 1 then WrongHeight
    else if h.timestamp > now + p.maxFuture then FutureTimestamp
    else if h.merkleRoot != w.MerkleRoot(b.txs) then InvalidMerkleRoot
    else if h.bits != RequiredBits(p, ChainTo(w, s.blocks, h.prev)) then UnexpectedDifficulty
    else if !w.meetsWork(h, SeedOn(w, Best(w, s), h.height)) then InvalidProofOfWork
    else if b.txs == [] then MissingCoinbaseTx
    else FirstTransactionNotCoinbase
  }

  lemma StoreIsReadable(w: World, p: Params, s: State)
    requires p.WellFormed() && Inv(w, p, s)
    ensures Closed(w, s.blocks) && (s.metaTip.Some? ==> s.metaTip.value in s.blocks)
  {
    hide AcceptedAt, OneGenesis, Replay, Index;
  }

  /** What the header checks make of a block whose parent is stored. */
  lemma ChecksExactly(w: World, p: Params, s: State, b: Block, now: nat)
    requires p.WellFormed() && Inv(w, p, s) && b.header.prev in s.blocks
    requires Closed(w, s.blocks) && (s.metaTip.Some? ==> s.metaTip.value in s.blocks)
    ensures ValidateBlock(w, p, Some(s.blocks[b.header.prev]), b, now,
                          RequiredBits(p, ChainTo(w, s.blocks, b.header.prev)), EpochSeed(w, s, b.header.height))
         == if KeepsEveryRule(w, p, s, b, now) then None else Some(FirstBroken(w, p, s, b, now))
  {
    assert Filed(w, s.blocks, b.header.prev);
    SeedIsSeedOn(w, p, s, b.header.height);
    hide Inv, RequiredBits, ChainTo, EpochSeed, SeedOn, Best;
  }

  /** The three refusals before the write and the write itself, in the submission. */
  lemma SubmitStores(w: World, p: Params, s: State, b: Block, now: nat)
    requires p.WellFormed() && Inv(w, p, s)
    requires Closed(w, s.blocks) && (s.metaTip.Some? ==> s.metaTip.value in s.blocks)
    ensures var (r, s') := Submit(w, p, s, b, now);
            if w.BlockHash(b) in s.blocks then r == Err(AlreadyKnown) && s' == s
            else if b.header.prev !in s.blocks then r == Err(UnknownParent) && s'.blocks == s.blocks
            else
              var broken := ValidateBlock(w, p, Some(s.blocks[b.header.prev]), b, now,
                                          RequiredBits(p, ChainTo(w, s.blocks, b.header.prev)),
                                          EpochSeed(w, s, b.header.height));
              if broken.Some? then r == Err(Invalid(broken.value)) && s'.blocks == s.blocks
              else s'.blocks == s.blocks[w.BlockHash(b) := b] && (r.Ok? || r.error.BadUtxo?)
  {
    SyncNeverFails(w, p, s);
    var s1 := EnsureSynced(w, p, s).value;
    SeedIgnoresUtxo(w, s, s1, b.header.height);
    hide Inv, RequiredBits, EpochSeed, ValidateBlock, Replay, ChainTo, EnsureSynced, Choose, Closed;
    if w.BlockHash(b) !in s.blocks && b.header.prev in s1.blocks {
      if ValidateBlock(w, p, Some(s1.blocks[b.header.prev]), b, now,
                       RequiredBits(p, ChainTo(w, s1.blocks, b.header.prev)), EpochSeed(w, s1, b.header.height)).None?
      {
        Stored(w, p, s, s1, b, now);
        ChoiceKeepsStore(w, p, s1.(blocks := s1.blocks[w.BlockHash(b) := b], disconnected := []), b);
      }
    }
  }

  lemma ChoiceKeepsStore(w: World, p: Params, s: State, b: Block)
    requires Closed(w, s.blocks) && w.BlockHash(b) in s.blocks && s.metaTip.Some? && s.metaTip.value in s.blocks
    ensures var (r, s') := Choose(w, p, s, b); s'.blocks == s.blocks && (r.Ok? || r.error.BadUtxo?)
  {
    hide Closed, CheckBlock, Replay, ChainTo, WorkAt, ForkIndex, Effect, Seed;
  }

  /** A block not yet known is stored exactly when its parent is and it keeps every rule; nothing else ever changes in
      the store. Refused before that, it is refused for the first rule it breaks; after it, only for its payments. */
  lemma StoredExactly(w: World, p: Params, s: State, b: Block, now: nat)
    requires p.WellFormed() && Inv(w, p, s)
    ensures Closed(w, s.blocks) && (s.metaTip.Some? ==> s.metaTip.value in s.blocks)
    ensures var (r, s') := Submit(w, p, s, b, now);
            if w.BlockHash(b) in s.blocks then r == Err(AlreadyKnown) && s' == s
            else if b.header.prev !in s.blocks then r == Err(UnknownParent) && s'.blocks == s.blocks
            else if KeepsEveryRule(w, p, s, b, now)
            then s'.blocks == s.blocks[w.BlockHash(b) := b] && (r.Ok? || r.error.BadUtxo?)
            else r == Err(Invalid(FirstBroken(w, p, s, b, now))) && s'.blocks == s.blocks
  {
    StoreIsReadable(w, p, s);
    hide *;
    SubmitStores(w, p, s, b, now);
    if b.header.prev in s.blocks { ChecksExactly(w, p, s, b, now); }
  }

  /** In particular a block that only comes too early is refused, and stored once its time is near enough. */
  lemma EarlyBlockRefused(w: World, p: Params, s: State, b: Block, now: nat, later: nat)
    requires p.WellFormed() && Inv(w, p, s) && Closed(w, s.blocks)
    requires s.metaTip.Some? ==> s.metaTip.value in s.blocks
    requires w.BlockHash(b) !in s.blocks && b.header.prev in s.blocks
    requires now + p.maxFuture < b.header.timestamp <= later + p.maxFuture && KeepsEveryRule(w, p, s, b, later)
    ensures Submit(w, p, s, b, now).0 == Err(Invalid(FutureTimestamp)) && Submit(w, p, s, b, now).1.blocks == s.blocks
    ensures w.BlockHash(b) in Submit(w, p, s, b, later).1.blocks
  {
    StoredExactly(w, p, s, b, now);
    StoredExactly(w, p, s, b, later);
    hide Inv, Submit, Closed, RequiredBits, ChainTo, SeedOn, Best;
  }

  // ---- Mining and genesis ---------------------------------------------------

  /** A block mined on the tip pays its subsidy to the miner and nothing to anyone else, carries the required bits, and
      is filed under its hash as the tip, whatever is stored there; without one, every nonce up to the limit fails. */
  ghost predicate MinesAs(w: World, p: Params, s: State, timestamp: nat, miner: string, maxNonce: nat)
    requires p.WellFormed() && Inv(w, p, s) && s.tipCache.Some?
    requires Closed(w, s.blocks) && (s.metaTip.Some? ==> s.metaTip.value in s.blocks)
  {
    var (r, s') := MineNext(w, p, s, timestamp, miner, maxNonce);
    var bits := RequiredBits(p, Best(w, s));
    if r.Err? then r == Err(MiningFailed) && s' == s
    else
      var b := r.value;
      && Frames(w, p, b, s.tipCache, timestamp, [])
      && PaysAll(w, b.txs[0].outputs, Reward(p, b.header.height), miner)
      && b.header.bits == bits && b.header.nonce <= maxNonce
      && w.meetsWork(b.header, SeedOn(w, Best(w, s), b.header.height))
      && (forall i: nat :: i < b.header.nonce ==>
            !w.meetsWork(b.header.(nonce := i), SeedOn(w, Best(w, s), b.header.height)))
      && s'.blocks == s.blocks[w.BlockHash(b) := b] && s'.metaTip == Some(w.BlockHash(b)) && s'.tipCache == Some(b)
      && s'.utxo == s.utxo && s'.utxoTip == s.utxoTip
  }

  lemma MinedCandidate(w: World, p: Params, parent: Block, timestamp: nat, miner: string, bits: u8)
    ensures var c := WithBits(Candidate(w, p, Some(parent), timestamp, miner, [], 0), bits, 0);
            forall nonce: nat ::
              var b := c.(header := c.header.(nonce := nonce));
              && Frames(w, p, b, Some(parent), timestamp, [])
              && PaysAll(w, b.txs[0].outputs, Reward(p, b.header.height), miner) && b.header.bits == bits
              && b.header.height == parent.header.height + 1
              && forall seed :: w.meetsWork(b.header, seed) ==>
                   ValidateBlock(w, p, Some(parent), b, timestamp, bits, seed).None?
  {
    CandidatePays(w, p, Some(parent), timestamp, miner, [], 0);
    SubsidyAlone(p, parent.header.height + 1);
    hide Candidate, Reward, SatAdd, PaysAll;
  }

  lemma SubsidyAlone(p: Params, height: nat)
    ensures SatAdd(Reward(p, height), 0) == Reward(p, height)
  {
    hide Reward;
  }

  /** The block whose nonce is searched for. */
  ghost function Unmined(w: World, p: Params, s: State, timestamp: nat, miner: string): Block
    requires p.WellFormed() && Inv(w, p, s) && s.tipCache.Some?
    requires Closed(w, s.blocks) && (s.metaTip.Some? ==> s.metaTip.value in s.blocks)
  {
    WithBits(Candidate(w, p, s.tipCache, timestamp, miner, [], 0), RequiredBits(p, Best(w, s)), 0)
  }

  /** Mining is that search, and the filing of what it finds. */
  lemma MinesBySearch(w: World, p: Params, s: State, timestamp: nat, miner: string, maxNonce: nat)
    requires p.WellFormed() && Inv(w, p, s) && s.tipCache.Some?
    requires Closed(w, s.blocks) && (s.metaTip.Some? ==> s.metaTip.value in s.blocks)
    ensures var c := Unmined(w, p, s, timestamp, miner);
            var found := MineHeader(w, c.header, SeedOn(w, Best(w, s), s.tipCache.value.header.height + 1), 0,
                                    maxNonce);
            MineNext(w, p, s, timestamp, miner, maxNonce) ==
              if found.None? then (Err(MiningFailed), s)
              else (Ok(Block(found.value, c.txs)), PutBlock(w, s, Block(found.value, c.txs)))
  {
    var parent, bits := s.tipCache.value, RequiredBits(p, Best(w, s));
    var c := Unmined(w, p, s, timestamp, miner);
    var seed := EpochSeed(w, s, parent.header.height + 1);
    MinedCandidate(w, p, parent, timestamp, miner, bits);
    SeedIsSeedOn(w, p, s, parent.header.height + 1);
    MineHeaderFirst(w, c.header, seed, 0, maxNonce);
    hide Inv, Closed, Candidate, RequiredBits, EpochSeed, SeedOn, Best, Reward, ValidateBlock, PaysAll, MineHeader,
         Frames, PutBlock;
  }

  /** What the search starts from, at any nonce. */
  lemma UnminedIs(w: World, p: Params, s: State, timestamp: nat, miner: string, nonce: nat)
    requires p.WellFormed() && Inv(w, p, s) && s.tipCache.Some?
    requires Closed(w, s.blocks) && (s.metaTip.Some? ==> s.metaTip.value in s.blocks)
    ensures var c := Unmined(w, p, s, timestamp, miner);
            var b := Block(c.header.(nonce := nonce), c.txs);
            && Frames(w, p, b, s.tipCache, timestamp, []) && b.header.bits == RequiredBits(p, Best(w, s))
            && PaysAll(w, b.txs[0].outputs, Reward(p, b.header.height), miner)
            && b.header.height == s.tipCache.value.header.height + 1
            && b.header.prev == w.BlockHash(s.tipCache.value) && b.header.timestamp == timestamp
  {
    MinedCandidate(w, p, s.tipCache.value, timestamp, miner, RequiredBits(p, Best(w, s)));
    hide Inv, Closed, Candidate, RequiredBits, Best, Reward, ValidateBlock, PaysAll;
    var c := Unmined(w, p, s, timestamp, miner);
    assert Block(c.header.(nonce := nonce), c.txs) == c.(header := c.header.(nonce := nonce));
  }

  lemma MinedExactly(w: World, p: Params, s: State, timestamp: nat, miner: string, maxNonce: nat)
    requires p.WellFormed() && Inv(w, p, s) && s.tipCache.Some?
    ensures Closed(w, s.blocks) && (s.metaTip.Some? ==> s.metaTip.value in s.blocks)
    ensures MinesAs(w, p, s, timestamp, miner, maxNonce)
    ensures MineNext(w, p, s, timestamp, miner, maxNonce).0.Err? ==>
              var parent, bits := s.tipCache.value, RequiredBits(p, Best(w, s));
              exists c: BlockHeader ::
                && c.height == parent.header.height + 1 && c.prev == w.BlockHash(parent) && c.bits == bits
                && c.timestamp == timestamp
                && forall i: nat :: i <= maxNonce ==> !w.meetsWork(c.(nonce := i), SeedOn(w, Best(w, s), c.height))
  {
    StoreIsReadable(w, p, s);
    hide *;
    var c := Unmined(w, p, s, timestamp, miner);
    var seed := SeedOn(w, Best(w, s), s.tipCache.value.header.height + 1);
    MinesBySearch(w, p, s, timestamp, miner, maxNonce);
    MineHeaderFirst(w, c.header, seed, 0, maxNonce);
    var found := MineHeader(w, c.header, seed, 0, maxNonce);
    if found.Some? {
      var nonce := found.value.nonce;
      UnminedIs(w, p, s, timestamp, miner, nonce);
      MinedFound(w, p, s, timestamp, miner, maxNonce, Block(found.value, c.txs));
    } else {
      UnminedIs(w, p, s, timestamp, miner, c.header.nonce);
      assert Block(c.header.(nonce := c.header.nonce), c.txs).header == c.header;
      MinedNothing(w, p, s, timestamp, miner, maxNonce);
    }
  }

  lemma MinedFound(w: World, p: Params, s: State, timestamp: nat, miner: string, maxNonce: nat, b: Block)
    requires p.WellFormed() && Inv(w, p, s) && s.tipCache.Some?
    requires Closed(w, s.blocks) && (s.metaTip.Some? ==> s.metaTip.value in s.blocks)
    requires MineNext(w, p, s, timestamp, miner, maxNonce) == (Ok(b), PutBlock(w, s, b))
    requires Frames(w, p, b, s.tipCache, timestamp, []) && b.txs != []
    requires b.header.bits == RequiredBits(p, Best(w, s)) && b.header.nonce <= maxNonce
    requires PaysAll(w, b.txs[0].outputs, Reward(p, b.header.height), miner)
    requires var seed := SeedOn(w, Best(w, s), b.header.height);
             && w.meetsWork(b.header, seed)
             && forall i: nat :: i < b.header.nonce ==> !w.meetsWork(b.header.(nonce := i), seed)
    ensures MinesAs(w, p, s, timestamp, miner, maxNonce)
  {
    hide Inv, Closed, RequiredBits, SeedOn, Best, Reward, PaysAll, Frames, MineNext;
  }

  lemma MinedNothing(w: World, p: Params, s: State, timestamp: nat, miner: string, maxNonce: nat)
    requires p.WellFormed() && Inv(w, p, s) && s.tipCache.Some?
    requires Closed(w, s.blocks) && (s.metaTip.Some? ==> s.metaTip.value in s.blocks)
    requires MineNext(w, p, s, timestamp, miner, maxNonce) == (Err(MiningFailed), s)
    ensures MinesAs(w, p, s, timestamp, miner, maxNonce)
  {
    hide Inv, Closed, RequiredBits, SeedOn, Best, Reward, PaysAll, Frames, MineNext;
  }

  /** Genesis is made only once, when its nonce meets the initial target, and pays the miner "genesis" and the
      premint. */
  lemma GenesisExactly(w: World, p: Params, s: State, timestamp: nat, nonce: nat)
    requires p.WellFormed()
    ensures var (r, s') := InitGenesis(w, p, s, timestamp, nonce);
            if r.Err? then s' == s && r.error == (if s.heightCache.Some? then GenesisAlreadyExists else MiningFailed)
            else
              var b := r.value;
              var reward := Reward(p, 0);
              var n := if reward == 0 then 0 else 1;
              && s.heightCache.None? && s' == PutBlock(w, s, b)
              && Frames(w, p, b, None, timestamp, []) && b.header.nonce == nonce && b.header.bits == RequiredBits(p, [])
              && w.meetsWork(b.header, ZERO) && n <= |b.txs[0].outputs|
              && PaysAll(w, b.txs[0].outputs[..n], reward, "genesis")
              && var premint := b.txs[0].outputs[n..];
                 if !p.HasPremint() then premint == []
                 else if p.genesisAllocations != [] then PaysAllocations(w, premint, p.genesisAllocations)
                 else PaysAll(w, premint, p.founderAllocation, p.founderAddress)
  {
    CandidatePays(w, p, None, timestamp, "genesis", [], 0);
    SubsidyAlone(p, 0);
    if p.HasPremint() { GenesisPays(w, p, timestamp, "genesis", [], 0); }
    hide Candidate, Reward, SatAdd, RequiredBits, PaysAllocations;
  }
}
