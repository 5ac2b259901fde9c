/** Catching up with one peer: backward search for a common ancestor, forward batches, and when the loop ends. */
module Sync {
  import opened Prelude
  import opened Types
  import opened Utxo
  import opened Validation
  import opened Store
  import opened Difficulty
  import opened ForkChoice
  import opened Consensus
  import opened Submission
  import opened Runs

  const BATCH: nat := 50
  const MAX_FORK_SEARCH_DEPTH: nat := 1000

  // ---- The loop, one round at a time ----------------------------------------

  /** The peer's blocks from a height on, at most one batch. */
  function Fetch(peer: Chain, from: nat): Chain {
    if from >= |peer| then [] else peer[from..Min(from + BATCH, |peer|)]
  }

  /** What the wall clock reads at each submission. */
  type Clock = nat -> nat

  /** How a batch went, and how often the clock has been read. */
  datatype Batch = Applied(s: State, count: nat, tick: nat) | Forked(s: State, tick: nat) | Failed(s: State)

  ghost function SubmitBatch(w: World, p: Params, s: State, bs: Chain, from: nat, clock: Clock, tick: nat, count: nat)
    : (r: Batch)
    requires p.WellFormed() && Inv(w, p, s)
    ensures Inv(w, p, r.s)
    decreases |bs|
  {
    hide Inv, Submit;
    if bs == [] then Applied(s, count, tick)
    else
      SubmitKeepsInv(w, p, s, bs[0], clock(tick));
      var (r, s') := Submit(w, p, s, bs[0], clock(tick));
      if r.Ok? || r.error == AlreadyKnown then SubmitBatch(w, p, s', bs[1..], from, clock, tick + 1, count + 1)
      else if r.error == UnknownParent && from > 1 then Forked(s', tick + 1)
      else Failed(s')
  }

  datatype Cursor = Cursor(s: State, from: nat, backtrack: nat, synced: nat, tick: nat)

  datatype Outcome = Continue(cursor: Cursor) | Done(s: State, synced: nat) | Aborted(s: State)

  function Height(s: State): nat { if s.heightCache.Some? then s.heightCache.value else 0 }

  /** One turn of the loop on whatever was fetched. */
  ghost function RoundWith(w: World, p: Params, c: Cursor, bs: Chain, remote: nat, clock: Clock): (r: Outcome)
    requires p.WellFormed() && Inv(w, p, c.s)
    ensures !r.Aborted? ==> Inv(w, p, if r.Continue? then r.cursor.s else r.s)
  {
    hide Inv, SubmitBatch;
    if bs == [] then Done(c.s, c.synced)
    else
      match SubmitBatch(w, p, c.s, bs, c.from, clock, c.tick, 0)
      case Failed(s') => Aborted(s')
      case Forked(s', tick) =>
        if c.backtrack + 1 > MAX_FORK_SEARCH_DEPTH || c.from == 0 then Aborted(s')
        else Continue(Cursor(s', c.from - 1, c.backtrack + 1, c.synced, tick))
      case Applied(s', n, tick) =>
        if Height(s') >= remote then Done(s', c.synced + n)
        else Continue(Cursor(s', Height(s') + 1, 0, c.synced + n, tick))
  }

  /** One turn on what the peer's chain gives. */
  ghost function Round(w: World, p: Params, c: Cursor, peer: Chain, remote: nat, clock: Clock): (r: Outcome)
    requires p.WellFormed() && Inv(w, p, c.s)
    ensures r.Continue? ==> Inv(w, p, r.cursor.s)
  {
    RoundWith(w, p, c, Fetch(peer, c.from), remote, clock)
  }

  // ---- What is assumed of the peer ------------------------------------------

  /** A replayable chain whose blocks keep every rule but the proof of work, with distinct hashes and work within 128
      bits. */
  ghost predicate Honest(w: World, p: Params, peer: Chain, now: nat)
    requires p.WellFormed()
  {
    && Linked(w, peer)
    && Work(peer) <= U128_MAX
    && Replay(w, p, peer).Ok?
    && (forall i, j :: 0 <= i < j < |peer| ==> w.BlockHash(peer[i]) != w.BlockHash(peer[j]))
    && (forall i :: 1 <= i < |peer| ==> KeepsRules(w, p, peer, now, i))
  }

  /** The chain's block keeps every rule but the proof of work. */
  ghost predicate KeepsRules(w: World, p: Params, chain: Chain, now: nat, i: nat)
    requires p.WellFormed() && i < |chain|
  {
    Accepted(w, p, chain[..i], chain[i]) && chain[i].header.timestamp <= now + p.maxFuture
  }

  /** Honest at every reading of the clock. */
  ghost predicate HonestBy(w: World, p: Params, peer: Chain, clock: Clock)
    requires p.WellFormed()
  {
    forall t: nat {:trigger clock(t)} :: Honest(w, p, peer, clock(t))
  }

  lemma HonestAt(w: World, p: Params, peer: Chain, clock: Clock, t: nat)
    requires p.WellFormed() && HonestBy(w, p, peer, clock)
    ensures Honest(w, p, peer, clock(t)) && peer != [] && Work(peer) <= U128_MAX
  {
    assert Honest(w, p, peer, clock(t));
    hide Replay, KeepsRules;
  }

  /** The proof-of-work seed a node following `chain` reads for a height. */
  function SeedOn(w: World, chain: Chain, height: nat): Hash256 {
    var epoch := height / EPOCH_LENGTH;
    if epoch == 0 then ZERO
    else if epoch * EPOCH_LENGTH - 1 < |chain| then w.BlockHash(chain[epoch * EPOCH_LENGTH - 1])
    else ZERO
  }

  /** Our store holds exactly the peer's blocks up to height `k`. */
  ghost predicate Knows(w: World, blocks: Blocks, peer: Chain, k: nat) {
    && k < |peer|
    && (forall i :: 0 <= i < |peer| ==> (w.BlockHash(peer[i]) in blocks <==> i <= k))
    && (forall i :: 0 <= i <= k ==> w.BlockHash(peer[i]) in blocks && blocks[w.BlockHash(peer[i])] == peer[i])
  }

  lemma ParentKnown(w: World, blocks: Blocks, peer: Chain, n: nat)
    requires Closed(w, blocks) && Linked(w, peer) && 1 <= n < |peer|
    requires w.BlockHash(peer[n]) in blocks && blocks[w.BlockHash(peer[n])] == peer[n]
    ensures w.BlockHash(peer[n - 1]) in blocks
  {
    assert Filed(w, blocks, w.BlockHash(peer[n]));
  }

  /** With a shared genesis and no colliding hashes, what we know of the peer's chain is a prefix. */
  lemma KnownIsPrefix(w: World, p: Params, blocks: Blocks, peer: Chain, now: nat) returns (k: nat)
    requires p.WellFormed() && Closed(w, blocks) && Honest(w, p, peer, now)
    requires w.BlockHash(peer[0]) in blocks
    requires forall i :: 0 <= i < |peer| && w.BlockHash(peer[i]) in blocks ==> blocks[w.BlockHash(peer[i])] == peer[i]
    ensures Knows(w, blocks, peer, k)
  {
    hide Replay, Accepted;
    k := 0;
    while k + 1 < |peer| && w.BlockHash(peer[k + 1]) in blocks
      invariant k < |peer|
      invariant forall i :: 0 <= i <= k ==> w.BlockHash(peer[i]) in blocks
    {
      k := k + 1;
    }
    var n := k + 1;
    while n < |peer|
      invariant k + 1 <= n <= |peer|
      invariant forall i :: k < i < n ==> w.BlockHash(peer[i]) !in blocks
    {
      if w.BlockHash(peer[n]) in blocks {
        ParentKnown(w, blocks, peer, n);
        assert false;
      }
      n := n + 1;
    }
  }

  predicate Outweighs(a: Chain, b: Chain) { ChainWork(a) > ChainWork(b) }

  /** Which of two chains fork choice follows, the first being followed already. */
  function Heavier(best: Chain, chain: Chain): Chain { if Outweighs(chain, best) then chain else best }

  /** The chain followed once the peer's first `k + 1` blocks have been through fork choice. */
  function After(ours: Chain, peer: Chain, k: nat): Chain
    requires k < |peer|
  {
    Heavier(ours, peer[..k + 1])
  }

  /** The peer's block meets its target under the seed that a node following `best` reads. */
  predicate MeetsOn(w: World, best: Chain, peer: Chain, i: nat)
    requires i < |peer|
  {
    w.meetsWork(peer[i].header, SeedOn(w, best, i))
  }

  /** So it does under the seed read from the chain followed when its turn comes. */
  predicate SeedMet(w: World, ours: Chain, peer: Chain, i: nat)
    requires 1 <= i < |peer|
  {
    MeetsOn(w, After(ours, peer, i - 1), peer, i)
  }

  /** So do all the peer's blocks above `k` and below `n`. */
  ghost predicate SeedsMet(w: World, ours: Chain, peer: Chain, k: nat, n: nat)
    requires n <= |peer|
  {
    forall i {:trigger SeedMet(w, ours, peer, i)} :: k < i < n ==> SeedMet(w, ours, peer, i)
  }

  /** The node follows `best` and holds the peer's first `k + 1` blocks. */
  ghost predicate FollowsBest(w: World, p: Params, s: State, best: Chain, peer: Chain, k: nat)
    requires p.WellFormed()
  {
    && Inv(w, p, s) && s.metaTip.Some?
    && Knows(w, s.blocks, peer, k)
    && Best(w, s) == best
  }

  ghost predicate SyncInv(w: World, p: Params, s: State, ours: Chain, peer: Chain, k: nat)
    requires p.WellFormed()
  {
    k < |peer| && FollowsBest(w, p, s, After(ours, peer, k), peer, k)
  }

  // ---- One submission of a peer block ---------------------------------------

  /** The height whose block hash seeds an epoch after the first. */
  function SeedHeight(height: nat): nat
    requires height >= EPOCH_LENGTH
  {
    height / EPOCH_LENGTH * EPOCH_LENGTH - 1
  }

  lemma SeedFromBlock(w: World, s: State, chain: Chain, height: nat)
    requires height >= EPOCH_LENGTH ==>
               BlockAtHeight(s, SeedHeight(height))
                 == if SeedHeight(height) < |chain| then Some(chain[SeedHeight(height)]) else None
    ensures EpochSeed(w, s, height) == SeedOn(w, chain, height)
  {
    hide BlockAtHeight;
    assert height / EPOCH_LENGTH == 0 <==> height < EPOCH_LENGTH;
  }

  lemma SeedIsSeedOn(w: World, p: Params, s: State, height: nat)
    requires p.WellFormed() && Inv(w, p, s)
    ensures EpochSeed(w, s, height) == SeedOn(w, Best(w, s), height)
  {
    var best := Best(w, s);
    hide *;
    if height >= EPOCH_LENGTH { IndexIsExact(w, p, s, SeedHeight(height)); }
    SeedFromBlock(w, s, best, height);
  }

  lemma PeerPrefix(w: World, p: Params, blocks: Blocks, peer: Chain, now: nat, k: nat, i: nat)
    requires p.WellFormed() && Closed(w, blocks) && Honest(w, p, peer, now) && Knows(w, blocks, peer, k) && i <= k
    ensures ChainTo(w, blocks, w.BlockHash(peer[i])) == peer[..i + 1]
  {
    hide Replay, Accepted, ChainTo;
    ChainToUnique(w, blocks, peer[..i + 1]);
  }

  lemma {:induction false} ReplayPrefix(w: World, p: Params, chain: Chain, n: nat)
    requires n <= |chain| && Replay(w, p, chain).Ok?
    ensures Replay(w, p, chain[..n]).Ok?
    decreases |chain|
  {
    if n == |chain| {
      assert chain[..n] == chain;
    } else {
      ReplayPrefix(w, p, chain[..|chain| - 1], n);
      assert chain[..|chain| - 1][..n] == chain[..n];
    }
  }

  /** Of the rules the node checks on the peer's next block, only the proof of work depends on what we follow. */
  lemma PeerBlockChecks(w: World, p: Params, s: State, best: Chain, peer: Chain, now: nat, k: nat)
    requires p.WellFormed() && FollowsBest(w, p, s, best, peer, k) && k + 1 < |peer| && Honest(w, p, peer, now)
    ensures var b := peer[k + 1];
            && b.header.prev == w.BlockHash(peer[k])
            && ValidateBlock(w, p, Some(peer[k]), b, now, RequiredBits(p, peer[..k + 1]),
                             EpochSeed(w, s, b.header.height))
               == if MeetsOn(w, best, peer, k + 1) then None else Some(InvalidProofOfWork)
  {
    var b := peer[k + 1];
    assert b.header.height == k + 1 && peer[k].header.height == k;
    assert KeepsRules(w, p, peer, now, k + 1);
    SeedIsSeedOn(w, p, s, k + 1);
    hide Inv, EpochSeed, RequiredBits, SeedOn, Knows, ChainWork;
  }

  lemma KnowsNext(w: World, p: Params, blocks: Blocks, peer: Chain, now: nat, k: nat)
    requires p.WellFormed() && Honest(w, p, peer, now) && Knows(w, blocks, peer, k) && k + 1 < |peer|
    ensures Knows(w, blocks[w.BlockHash(peer[k + 1]) := peer[k + 1]], peer, k + 1)
  {
  }

  lemma AfterStep(ours: Chain, peer: Chain, k: nat)
    requires k + 1 < |peer| && Work(peer) <= U128_MAX
    ensures After(ours, peer, k + 1) == Heavier(After(ours, peer, k), peer[..k + 2])
  {
    WorkStrict(peer, k + 1, k + 2);
  }

  /** The naive machine takes a valid, replayable block and follows the heavier chain. */
  lemma NaiveTakes(w: World, p: Params, n: Naive, b: Block, now: nat, seed: Hash256)
    requires p.WellFormed() && StoreInv(w, p, n.blocks) && n.tip in n.blocks
    requires w.BlockHash(b) !in n.blocks && b.header.prev in n.blocks
    requires var past := ChainTo(w, n.blocks, b.header.prev);
             && ValidateBlock(w, p, Some(n.blocks[b.header.prev]), b, now, RequiredBits(p, past), seed).None?
             && Replay(w, p, past + [b]).Ok?
    ensures var (r, n') := NaiveSubmit(w, p, n, b, now, seed);
            var chain, best := ChainTo(w, n.blocks, b.header.prev) + [b], ChainTo(w, n.blocks, n.tip);
            && r.Ok? && n'.blocks == n.blocks[w.BlockHash(b) := b] && Closed(w, n'.blocks) && n'.tip in n'.blocks
            && ChainTo(w, n'.blocks, n'.tip) == if ChainWork(chain) > ChainWork(best) then chain else best
  {
    assert b.header.height == n.blocks[b.header.prev].header.height + 1;
    ZeroIsNotStored(w, n.blocks);
    hide RequiredBits, ValidateBlock, Replay, AcceptedAt, OneGenesis, ChainWork;
    Insert(w, n.blocks, b);
  }

  /** So it takes the peer's next block and follows whichever of the two chains is heavier. */
  lemma NaiveTakesNext(w: World, p: Params, n: Naive, best: Chain, peer: Chain, now: nat, k: nat, seed: Hash256)
    requires p.WellFormed() && StoreInv(w, p, n.blocks) && n.tip in n.blocks
    requires Honest(w, p, peer, now) && Knows(w, n.blocks, peer, k) && k + 1 < |peer|
    requires ChainTo(w, n.blocks, n.tip) == best
    requires var b := peer[k + 1];
             && b.header.prev == w.BlockHash(peer[k])
             && ValidateBlock(w, p, Some(peer[k]), b, now, RequiredBits(p, peer[..k + 1]), seed).None?
    ensures var (r, n') := NaiveSubmit(w, p, n, peer[k + 1], now, seed);
            && r.Ok? && Closed(w, n'.blocks) && n'.tip in n'.blocks
            && Knows(w, n'.blocks, peer, k + 1)
            && ChainTo(w, n'.blocks, n'.tip) == Heavier(best, peer[..k + 2])
  {
    hide RequiredBits, ValidateBlock, Replay, Honest, ChainWork, NaiveSubmit, Knows;
    NextFacts(w, p, n.blocks, peer, now, k);
    NaiveTakes(w, p, n, peer[k + 1], now, seed);
  }

  lemma NextFacts(w: World, p: Params, blocks: Blocks, peer: Chain, now: nat, k: nat)
    requires p.WellFormed() && Closed(w, blocks)
    requires Honest(w, p, peer, now) && Knows(w, blocks, peer, k) && k + 1 < |peer|
    ensures var b := peer[k + 1];
            && w.BlockHash(b) !in blocks
            && w.BlockHash(peer[k]) in blocks && blocks[w.BlockHash(peer[k])] == peer[k]
            && ChainTo(w, blocks, w.BlockHash(peer[k])) == peer[..k + 1]
            && peer[..k + 1] + [b] == peer[..k + 2]
            && Replay(w, p, peer[..k + 2]).Ok?
            && Knows(w, blocks[w.BlockHash(b) := b], peer, k + 1)
  {
    hide *;
    NextIsNew(w, p, blocks, peer, now, k);
    PeerPrefix(w, p, blocks, peer, now, k, k);
    HonestReplays(w, p, peer, now, k + 2);
    KnowsNext(w, p, blocks, peer, now, k);
    assert peer[..k + 1] + [peer[k + 1]] == peer[..k + 2];
  }

  lemma NextIsNew(w: World, p: Params, blocks: Blocks, peer: Chain, now: nat, k: nat)
    requires p.WellFormed() && Honest(w, p, peer, now) && Knows(w, blocks, peer, k) && k + 1 < |peer|
    ensures w.BlockHash(peer[k + 1]) !in blocks
    ensures w.BlockHash(peer[k]) in blocks && blocks[w.BlockHash(peer[k])] == peer[k]
  {
    hide Honest;
  }

  lemma HonestReplays(w: World, p: Params, peer: Chain, now: nat, n: nat)
    requires p.WellFormed() && Honest(w, p, peer, now) && n <= |peer|
    ensures Replay(w, p, peer[..n]).Ok? && Work(peer) <= U128_MAX
  {
    hide Replay, Linked;
    ReplayPrefix(w, p, peer, n);
  }

  /** The naive machine refuses a block that breaks a rule. */
  lemma NaiveRefuses(w: World, p: Params, n: Naive, b: Block, now: nat, seed: Hash256, rule: ValidationError)
    requires p.WellFormed() && StoreInv(w, p, n.blocks) && n.tip in n.blocks
    requires w.BlockHash(b) !in n.blocks && b.header.prev in n.blocks
    requires var past := ChainTo(w, n.blocks, b.header.prev);
             ValidateBlock(w, p, Some(n.blocks[b.header.prev]), b, now, RequiredBits(p, past), seed) == Some(rule)
    ensures NaiveSubmit(w, p, n, b, now, seed) == (Err(Invalid(rule)), n)
  {
    hide RequiredBits, ValidateBlock, Replay, AcceptedAt, OneGenesis, ChainWork;
  }

  lemma NaiveRefusesNext(w: World, p: Params, n: Naive, peer: Chain, now: nat, k: nat, seed: Hash256,
                         rule: ValidationError)
    requires p.WellFormed() && StoreInv(w, p, n.blocks) && n.tip in n.blocks
    requires Honest(w, p, peer, now) && Knows(w, n.blocks, peer, k) && k + 1 < |peer|
    requires var b := peer[k + 1];
             && b.header.prev == w.BlockHash(peer[k])
             && ValidateBlock(w, p, Some(peer[k]), b, now, RequiredBits(p, peer[..k + 1]), seed) == Some(rule)
    ensures NaiveSubmit(w, p, n, peer[k + 1], now, seed) == (Err(Invalid(rule)), n)
  {
    hide *;
    NextIsNew(w, p, n.blocks, peer, now, k);
    ClosedStore(w, p, n.blocks);
    PeerPrefix(w, p, n.blocks, peer, now, k, k);
    NaiveRefuses(w, p, n, peer[k + 1], now, seed, rule);
  }

  lemma ClosedStore(w: World, p: Params, blocks: Blocks)
    requires p.WellFormed() && StoreInv(w, p, blocks)
    ensures Closed(w, blocks)
  {
    hide AcceptedAt, OneGenesis;
  }

  lemma InSync(w: World, p: Params, s: State, best: Chain, peer: Chain, k: nat)
    requires p.WellFormed() && FollowsBest(w, p, s, best, peer, k)
    ensures Inv(w, p, s) && s.metaTip.Some? && Knows(w, s.blocks, peer, k) && k < |peer|
    ensures var n := Naive(s.blocks, s.metaTip.value);
            && Follows(w, p, s, n) && StoreInv(w, p, n.blocks) && Closed(w, n.blocks) && n.tip in n.blocks
            && ChainTo(w, n.blocks, n.tip) == best && Best(w, s) == best
  {
    assert k < |peer|;
    hide AcceptedAt, OneGenesis, Replay, ChainWork, Index, Knows;
  }

  lemma SyncedAs(w: World, p: Params, s: State, n: Naive, best: Chain, peer: Chain, k: nat)
    requires p.WellFormed() && Follows(w, p, s, n) && Knows(w, n.blocks, peer, k)
    requires Closed(w, n.blocks) && n.tip in n.blocks && ChainTo(w, n.blocks, n.tip) == best
    ensures FollowsBest(w, p, s, best, peer, k)
  {
    hide Inv, Replay, Knows;
  }

  /** A block we hold is already known; one whose parent we lack has an unknown parent. */
  lemma SubmitOutOfTurn(w: World, p: Params, s: State, best: Chain, peer: Chain, now: nat, k: nat, i: nat)
    requires p.WellFormed() && FollowsBest(w, p, s, best, peer, k) && i < |peer| && i != k + 1
    requires Honest(w, p, peer, now) && Inv(w, p, s)
    ensures var (r, s') := Submit(w, p, s, peer[i], now);
            if i <= k then r == Err(AlreadyKnown) && s' == s
            else r == Err(UnknownParent) && FollowsBest(w, p, s', best, peer, k)
  {
    var n := Naive(s.blocks, s.metaTip.value);
    InSync(w, p, s, best, peer, k);
    if i > k { assert peer[i].header.prev == w.BlockHash(peer[i - 1]); }
    if i <= k {
      hide Inv, Follows, Honest, EpochSeed, RequiredBits, ValidateBlock, Replay, ChainWork, EnsureSynced, Choose;
    } else {
      SubmitRefines(w, p, s, n, peer[i], now);
      hide Inv, Follows, Honest, EpochSeed, RequiredBits, ValidateBlock, Replay, ChainWork, Submit;
      SyncedAs(w, p, Submit(w, p, s, peer[i], now).1, n, best, peer, k);
    }
  }

  /** The peer's next block is accepted when it meets its target under the seed we read, and else refused for its
      proof of work. */
  lemma SubmitNext(w: World, p: Params, s: State, best: Chain, peer: Chain, now: nat, k: nat)
    requires p.WellFormed() && FollowsBest(w, p, s, best, peer, k) && k + 1 < |peer|
    requires Honest(w, p, peer, now) && Inv(w, p, s)
    ensures var (r, s') := Submit(w, p, s, peer[k + 1], now);
            if MeetsOn(w, best, peer, k + 1)
            then r.Ok? && FollowsBest(w, p, s', Heavier(best, peer[..k + 2]), peer, k + 1)
            else r == Err(Invalid(InvalidProofOfWork)) && FollowsBest(w, p, s', best, peer, k)
  {
    hide *;
    InSync(w, p, s, best, peer, k);
    var n := Naive(s.blocks, s.metaTip.value);
    var b := peer[k + 1];
    var seed := EpochSeed(w, s, b.header.height);
    SubmitRefines(w, p, s, n, b, now);
    PeerBlockChecks(w, p, s, best, peer, now, k);
    var s' := Submit(w, p, s, b, now).1;
    if MeetsOn(w, best, peer, k + 1) {
      NaiveTakesNext(w, p, n, best, peer, now, k, seed);
      SyncedAs(w, p, s', NaiveSubmit(w, p, n, b, now, seed).1, Heavier(best, peer[..k + 2]), peer, k + 1);
    } else {
      NaiveRefusesNext(w, p, n, peer, now, k, seed, InvalidProofOfWork);
      SyncedAs(w, p, s', n, best, peer, k);
    }
  }

  /** Whatever chain we follow, a peer block is known, or next and accepted or refused by its seed, or ahead and refused
      for its parent; nothing else can happen. */
  lemma SubmitPeerBlock(w: World, p: Params, s: State, best: Chain, peer: Chain, now: nat, k: nat, i: nat)
    requires p.WellFormed() && FollowsBest(w, p, s, best, peer, k) && i < |peer| && Honest(w, p, peer, now)
    ensures Inv(w, p, s)
    ensures var (r, s') := Submit(w, p, s, peer[i], now);
            if i <= k then r == Err(AlreadyKnown) && s' == s
            else if i > k + 1 then r == Err(UnknownParent) && FollowsBest(w, p, s', best, peer, k)
            else if MeetsOn(w, best, peer, i)
            then r.Ok? && FollowsBest(w, p, s', Heavier(best, peer[..i + 1]), peer, i)
            else r == Err(Invalid(InvalidProofOfWork)) && FollowsBest(w, p, s', best, peer, k)
  {
    hide *;
    InSync(w, p, s, best, peer, k);
    if i == k + 1 {
      SubmitNext(w, p, s, best, peer, now, k);
    } else {
      SubmitOutOfTurn(w, p, s, best, peer, now, k, i);
    }
  }

  lemma SyncInvIs(w: World, p: Params, s: State, ours: Chain, peer: Chain, k: nat)
    requires p.WellFormed()
    ensures SyncInv(w, p, s, ours, peer, k) <==> k < |peer| && FollowsBest(w, p, s, After(ours, peer, k), peer, k)
    ensures SyncInv(w, p, s, ours, peer, k) ==> Inv(w, p, s)
  {
    hide Inv, Best, Knows, After;
  }

  lemma SeedMetIs(w: World, ours: Chain, peer: Chain, i: nat)
    requires 1 <= i < |peer|
    ensures SeedMet(w, ours, peer, i) <==> MeetsOn(w, After(ours, peer, i - 1), peer, i)
  {
    hide After, MeetsOn;
  }

  /** From a settled start: the same, with the chain that the peer's blocks so far have left us on. */
  lemma SubmitInTurn(w: World, p: Params, s: State, ours: Chain, peer: Chain, now: nat, k: nat, i: nat)
    requires p.WellFormed() && SyncInv(w, p, s, ours, peer, k) && i < |peer| && Honest(w, p, peer, now)
    ensures Inv(w, p, s)
    ensures var (r, s') := Submit(w, p, s, peer[i], now);
            if i <= k then r == Err(AlreadyKnown) && s' == s
            else if i > k + 1 then r == Err(UnknownParent) && SyncInv(w, p, s', ours, peer, k)
            else if SeedMet(w, ours, peer, i) then r.Ok? && SyncInv(w, p, s', ours, peer, k + 1)
            else r == Err(Invalid(InvalidProofOfWork)) && SyncInv(w, p, s', ours, peer, k)
  {
    hide *;
    SyncInvIs(w, p, s, ours, peer, k);
    SubmitPeerBlock(w, p, s, After(ours, peer, k), peer, now, k, i);
    var s' := Submit(w, p, s, peer[i], now).1;
    SyncInvIs(w, p, s', ours, peer, k);
    if i == k + 1 {
      SeedMetIs(w, ours, peer, i);
      HonestReplays(w, p, peer, now, 0);
      AfterStep(ours, peer, k);
      SyncInvIs(w, p, s', ours, peer, k + 1);
    }
  }

  // ---- When the seeds are met -----------------------------------------------

  /** The peer's block meets its target under the seed its own branch gives. */
  predicate OwnSeedMet(w: World, peer: Chain, i: nat)
    requires 1 <= i < |peer|
  {
    MeetsOn(w, peer, peer, i)
  }

  /** Whether the height index seeds this height as the peer's branch does: the epoch is the first one, or the peer's
      branch is already followed, or ours holds the peer's block at the seed height. */
  predicate SameSeed(w: World, ours: Chain, peer: Chain, i: nat)
    requires 1 <= i < |peer|
  {
    || i < EPOCH_LENGTH
    || Outweighs(peer[..i], ours)
    || (SeedHeight(i) < |ours| && w.BlockHash(ours[SeedHeight(i)]) == w.BlockHash(peer[SeedHeight(i)]))
  }

  /** Those are exactly the cases in which the two seeds are the same. */
  lemma SameSeedExactly(w: World, ours: Chain, peer: Chain, i: nat)
    requires 1 <= i < |peer|
    ensures SameSeed(w, ours, peer, i) <==> SeedOn(w, After(ours, peer, i - 1), i) == SeedOn(w, peer, i)
    ensures SameSeed(w, ours, peer, i) ==> (SeedMet(w, ours, peer, i) <==> OwnSeedMet(w, peer, i))
  {
    hide ChainWork;
    SeedBelow(i);
    if i >= EPOCH_LENGTH {
      var id: BlockId := w.BlockHash(peer[SeedHeight(i)]);
      assert id != ZERO;
      assert peer[..i][SeedHeight(i)] == peer[SeedHeight(i)];
    }
  }

  lemma SeedBelow(i: nat)
    ensures i < EPOCH_LENGTH <==> i / EPOCH_LENGTH == 0
    ensures i >= EPOCH_LENGTH ==> SeedHeight(i) < i
  {
  }

  // ---- One round ------------------------------------------------------------

  /** What a batch makes of its first block. */
  lemma BatchHead(w: World, p: Params, s: State, bs: Chain, from: nat, clock: Clock, tick: nat, count: nat)
    requires p.WellFormed() && Inv(w, p, s) && bs != []
    ensures Inv(w, p, Submit(w, p, s, bs[0], clock(tick)).1)
    ensures var (r, s') := Submit(w, p, s, bs[0], clock(tick));
            SubmitBatch(w, p, s, bs, from, clock, tick, count) ==
              if r.Ok? || r.error == AlreadyKnown then SubmitBatch(w, p, s', bs[1..], from, clock, tick + 1, count + 1)
              else if r.error == UnknownParent && from > 1 then Forked(s', tick + 1)
              else Failed(s')
  {
    hide Inv, Submit;
    SubmitKeepsInv(w, p, s, bs[0], clock(tick));
  }

  /** And of none. */
  lemma BatchEmpty(w: World, p: Params, s: State, from: nat, clock: Clock, tick: nat, count: nat)
    requires p.WellFormed() && Inv(w, p, s)
    ensures SubmitBatch(w, p, s, [], from, clock, tick, count) == Applied(s, count, tick)
  {
    hide Inv;
  }

  lemma MetBelow(w: World, ours: Chain, peer: Chain, k: nat, hi: nat)
    requires hi <= |peer| && SeedsMet(w, ours, peer, k, hi)
    ensures k + 1 < hi ==> SeedMet(w, ours, peer, k + 1) && SeedsMet(w, ours, peer, k + 1, hi)
  {
    hide SeedMet;
  }

  /** From a known parent on, the whole rest of a batch is taken, if its seeds are met. */
  lemma {:induction false} BatchApplies(w: World, p: Params, s: State, ours: Chain, peer: Chain, clock: Clock,
                                        tick: nat, k: nat, from: nat, i: nat, hi: nat, count: nat)
    requires p.WellFormed() && SyncInv(w, p, s, ours, peer, k) && HonestBy(w, p, peer, clock)
    requires i <= k + 1 && i <= hi <= |peer| && SeedsMet(w, ours, peer, k, hi)
    ensures Inv(w, p, s)
    ensures var r := SubmitBatch(w, p, s, peer[i..hi], from, clock, tick, count);
            var k' := if hi > k + 1 then hi - 1 else k;
            r.Applied? && r.count == count + (hi - i) && SyncInv(w, p, r.s, ours, peer, k')
    decreases hi - i
  {
    hide *;
    SyncInvIs(w, p, s, ours, peer, k);
    if i == hi {
      assert peer[i..hi] == [];
      BatchEmpty(w, p, s, from, clock, tick, count);
    } else {
      MetBelow(w, ours, peer, k, hi);
      HonestAt(w, p, peer, clock, tick);
      SubmitInTurn(w, p, s, ours, peer, clock(tick), k, i);
      BatchHead(w, p, s, peer[i..hi], from, clock, tick, count);
      assert peer[i..hi][0] == peer[i] && peer[i..hi][1..] == peer[i + 1..hi];
      var s' := Submit(w, p, s, peer[i], clock(tick)).1;
      if i <= k {
        BatchApplies(w, p, s, ours, peer, clock, tick + 1, k, from, i + 1, hi, count + 1);
      } else {
        BatchApplies(w, p, s', ours, peer, clock, tick + 1, k + 1, from, i + 1, hi, count + 1);
      }
    }
  }

  /** The first unmet seed is at the next block or above it. */
  lemma UnmetAbove(w: World, ours: Chain, peer: Chain, k: nat, hi: nat)
    requires hi <= |peer| && !SeedsMet(w, ours, peer, k, hi)
    ensures k + 1 < hi
    ensures SeedMet(w, ours, peer, k + 1) ==> !SeedsMet(w, ours, peer, k + 1, hi)
  {
    hide SeedMet;
  }

  /** If one is not, the batch fails there. */
  lemma {:induction false} BatchFails(w: World, p: Params, s: State, ours: Chain, peer: Chain, clock: Clock,
                                      tick: nat, k: nat, from: nat, i: nat, hi: nat, count: nat)
    requires p.WellFormed() && SyncInv(w, p, s, ours, peer, k) && HonestBy(w, p, peer, clock)
    requires i <= k + 1 && i <= hi <= |peer| && !SeedsMet(w, ours, peer, k, hi)
    ensures Inv(w, p, s)
    ensures SubmitBatch(w, p, s, peer[i..hi], from, clock, tick, count).Failed?
    decreases hi - i
  {
    hide *;
    UnmetAbove(w, ours, peer, k, hi);
    HonestAt(w, p, peer, clock, tick);
    SubmitInTurn(w, p, s, ours, peer, clock(tick), k, i);
    BatchHead(w, p, s, peer[i..hi], from, clock, tick, count);
    assert peer[i..hi][0] == peer[i] && peer[i..hi][1..] == peer[i + 1..hi];
    var s' := Submit(w, p, s, peer[i], clock(tick)).1;
    if i <= k {
      BatchFails(w, p, s, ours, peer, clock, tick + 1, k, from, i + 1, hi, count + 1);
    } else if SeedMet(w, ours, peer, i) {
      BatchFails(w, p, s', ours, peer, clock, tick + 1, k + 1, from, i + 1, hi, count + 1);
    }
  }

  /** Ahead of what we know, the first block of a batch is refused and the search steps back. */
  lemma BatchForks(w: World, p: Params, s: State, best: Chain, peer: Chain, clock: Clock,
                   tick: nat, k: nat, from: nat, hi: nat, count: nat)
    requires p.WellFormed() && FollowsBest(w, p, s, best, peer, k) && HonestBy(w, p, peer, clock)
    requires k + 1 < from < hi <= |peer|
    ensures Inv(w, p, s)
    ensures var r := SubmitBatch(w, p, s, peer[from..hi], from, clock, tick, count);
            r.Forked? && FollowsBest(w, p, r.s, best, peer, k)
  {
    hide *;
    HonestAt(w, p, peer, clock, tick);
    SubmitPeerBlock(w, p, s, best, peer, clock(tick), k, from);
    BatchHead(w, p, s, peer[from..hi], from, clock, tick, count);
    assert peer[from..hi][0] == peer[from];
  }

  /** The cursor's place: still on our chain and searching or waiting at its top, or on the peer's chain. */
  predicate CursorAt(from: nat, backtrack: nat, ours: Chain, peer: Chain, k: nat)
  {
    && k < |peer| && 0 < |ours| < |peer|
    && SatSub(|ours|, k + 1) <= MAX_FORK_SEARCH_DEPTH
    && if Outweighs(peer[..k + 1], ours) then from == k + 1 && k + 1 < |peer|
       else 1 <= from <= |ours| && (from >= k + 1 || from == |ours|)
            && backtrack + SatSub(from, k + 1) <= MAX_FORK_SEARCH_DEPTH
  }

  /** Where the loop stands. */
  ghost predicate CursorInv(w: World, p: Params, c: Cursor, ours: Chain, peer: Chain, k: nat)
    requires p.WellFormed()
  {
    SyncInv(w, p, c.s, ours, peer, k) && CursorAt(c.from, c.backtrack, ours, peer, k)
  }

  /** Where the next batch ends. */
  function BatchEnd(from: nat, peer: Chain): nat { Min(from + BATCH, |peer|) }

  /** What we know after one round that is not aborted. */
  function NextKnown(from: nat, k: nat, peer: Chain): nat {
    if from > k + 1 || BatchEnd(from, peer) <= k + 1 then k else BatchEnd(from, peer) - 1
  }

  /** The batch starts at a known parent and holds a block whose seed is not met. */
  ghost predicate Refuses(w: World, from: nat, ours: Chain, peer: Chain, k: nat) {
    from <= k + 1 && !SeedsMet(w, ours, peer, k, BatchEnd(from, peer))
  }

  lemma HeightOfBest(w: World, p: Params, s: State)
    requires p.WellFormed() && Inv(w, p, s) && s.metaTip.Some?
    ensures Height(s) == |Best(w, s)| - 1
  {
  }

  /** Stepping back stays within the search depth. */
  lemma StepBack(from: nat, backtrack: nat, ours: Chain, peer: Chain, k: nat)
    requires CursorAt(from, backtrack, ours, peer, k) && from > k + 1
    ensures from < |peer| && backtrack + 1 <= MAX_FORK_SEARCH_DEPTH && CursorAt(from - 1, backtrack + 1, ours, peer, k)
    ensures NextKnown(from, k, peer) == k
  {
    hide ChainWork;
  }

  /** After a batch the loop is at the top of the chain followed then, which is the peer's whole chain or calls for
      more. */
  lemma MoveOn(from: nat, backtrack: nat, ours: Chain, peer: Chain, k: nat)
    requires CursorAt(from, backtrack, ours, peer, k) && from <= k + 1
    ensures var k' := NextKnown(from, k, peer);
            var hi := BatchEnd(from, peer);
            && from < hi && k <= k' < |peer| && k' == (if hi > k + 1 then hi - 1 else k)
            && var at := |After(ours, peer, k')|;
               && at > 0
               && (at >= |peer| <==> k' == |peer| - 1 && Outweighs(peer, ours))
               && (at >= |peer| ==> After(ours, peer, k') == peer)
               && (at < |peer| ==> CursorAt(at, 0, ours, peer, k'))
  {
    hide ChainWork;
    assert peer[..|peer|] == peer;
  }

  /** What a round makes of a batch whose first parent is unknown. */
  lemma RoundOnFork(w: World, p: Params, c: Cursor, peer: Chain, remote: nat, clock: Clock)
    requires p.WellFormed() && Inv(w, p, c.s) && Fetch(peer, c.from) != [] && c.from > 0
    requires SubmitBatch(w, p, c.s, Fetch(peer, c.from), c.from, clock, c.tick, 0).Forked?
    ensures var r := SubmitBatch(w, p, c.s, Fetch(peer, c.from), c.from, clock, c.tick, 0);
            Round(w, p, c, peer, remote, clock) ==
              if c.backtrack + 1 > MAX_FORK_SEARCH_DEPTH then Aborted(r.s)
              else Continue(Cursor(r.s, c.from - 1, c.backtrack + 1, c.synced, r.tick))
  {
    hide Inv, SubmitBatch, Fetch;
  }

  /** Of a batch that was taken whole. */
  lemma RoundOnApply(w: World, p: Params, c: Cursor, peer: Chain, remote: nat, clock: Clock)
    requires p.WellFormed() && Inv(w, p, c.s) && Fetch(peer, c.from) != []
    requires SubmitBatch(w, p, c.s, Fetch(peer, c.from), c.from, clock, c.tick, 0).Applied?
    ensures var r := SubmitBatch(w, p, c.s, Fetch(peer, c.from), c.from, clock, c.tick, 0);
            Round(w, p, c, peer, remote, clock) ==
              if Height(r.s) >= remote then Done(r.s, c.synced + r.count)
              else Continue(Cursor(r.s, Height(r.s) + 1, 0, c.synced + r.count, r.tick))
  {
    hide Inv, SubmitBatch, Fetch;
  }

  /** And of a batch that failed. */
  lemma RoundOnFailure(w: World, p: Params, c: Cursor, peer: Chain, remote: nat, clock: Clock)
    requires p.WellFormed() && Inv(w, p, c.s) && Fetch(peer, c.from) != []
    requires SubmitBatch(w, p, c.s, Fetch(peer, c.from), c.from, clock, c.tick, 0).Failed?
    ensures Round(w, p, c, peer, remote, clock).Aborted?
  {
    hide Inv, SubmitBatch, Fetch;
  }

  lemma RoundForks(w: World, p: Params, c: Cursor, ours: Chain, peer: Chain, clock: Clock, k: nat)
    requires p.WellFormed() && CursorInv(w, p, c, ours, peer, k) && HonestBy(w, p, peer, clock) && c.from > k + 1
    ensures Inv(w, p, c.s)
    ensures var r := Round(w, p, c, peer, |peer| - 1, clock);
            r.Continue? && r.cursor.from == c.from - 1 && CursorInv(w, p, r.cursor, ours, peer, k)
  {
    hide *;
    UnfoldCursor(w, p, c, ours, peer, k);
    SyncInvIs(w, p, c.s, ours, peer, k);
    StepBack(c.from, c.backtrack, ours, peer, k);
    BatchRefused(w, p, c.s, After(ours, peer, k), peer, clock, c.tick, k, c.from);
    RoundOnFork(w, p, c, peer, |peer| - 1, clock);
    var next := Round(w, p, c, peer, |peer| - 1, clock).cursor;
    SyncInvIs(w, p, next.s, ours, peer, k);
    UnfoldCursor(w, p, next, ours, peer, k);
  }

  lemma BatchRefused(w: World, p: Params, s: State, best: Chain, peer: Chain, clock: Clock, tick: nat, k: nat,
                     from: nat)
    requires p.WellFormed() && FollowsBest(w, p, s, best, peer, k) && HonestBy(w, p, peer, clock)
    requires k + 1 < from < |peer|
    ensures Inv(w, p, s)
    ensures var r := SubmitBatch(w, p, s, Fetch(peer, from), from, clock, tick, 0);
            Fetch(peer, from) != [] && r.Forked? && FollowsBest(w, p, r.s, best, peer, k)
  {
    hide HonestBy, FollowsBest, SubmitBatch, Inv;
    var hi := BatchEnd(from, peer);
    assert Fetch(peer, from) == peer[from..hi];
    BatchForks(w, p, s, best, peer, clock, tick, k, from, hi, 0);
  }

  lemma TopOfSync(w: World, p: Params, s: State, ours: Chain, peer: Chain, k: nat)
    requires p.WellFormed() && SyncInv(w, p, s, ours, peer, k) && k < |peer|
    ensures Inv(w, p, s) && Closed(w, s.blocks) && s.metaTip.Some? && s.metaTip.value in s.blocks
    ensures Best(w, s) == After(ours, peer, k) && Height(s) == |After(ours, peer, k)| - 1
  {
    HeightOfBest(w, p, s);
    hide Inv;
  }

  lemma UnfoldCursor(w: World, p: Params, c: Cursor, ours: Chain, peer: Chain, k: nat)
    requires p.WellFormed()
    ensures CursorInv(w, p, c, ours, peer, k) <==>
              SyncInv(w, p, c.s, ours, peer, k) && CursorAt(c.from, c.backtrack, ours, peer, k)
    ensures SyncInv(w, p, c.s, ours, peer, k) ==> Inv(w, p, c.s) && k < |peer|
    ensures CursorAt(c.from, c.backtrack, ours, peer, k) ==> k < |peer| && 0 < |ours| < |peer|
  {
    SyncInvIs(w, p, c.s, ours, peer, k);
    hide Inv, SyncInv, Best, After, Outweighs;
  }

  lemma BatchTaken(w: World, p: Params, s: State, ours: Chain, peer: Chain, clock: Clock, tick: nat, k: nat,
                     from: nat)
    requires p.WellFormed() && SyncInv(w, p, s, ours, peer, k) && HonestBy(w, p, peer, clock)
    requires from <= k + 1 && from < BatchEnd(from, peer) && SeedsMet(w, ours, peer, k, BatchEnd(from, peer))
    requires NextKnown(from, k, peer) < |peer|
    ensures Inv(w, p, s)
    ensures var r, k' := SubmitBatch(w, p, s, Fetch(peer, from), from, clock, tick, 0), NextKnown(from, k, peer);
            && Fetch(peer, from) != [] && r.Applied? && SyncInv(w, p, r.s, ours, peer, k')
            && Inv(w, p, r.s) && Closed(w, r.s.blocks) && r.s.metaTip.Some? && r.s.metaTip.value in r.s.blocks
            && Best(w, r.s) == After(ours, peer, k') && Height(r.s) == |After(ours, peer, k')| - 1
  {
    hide HonestBy, SeedsMet, SyncInv, SubmitBatch, Inv, After, Best, Height;
    var hi := BatchEnd(from, peer);
    assert Fetch(peer, from) == peer[from..hi];
    BatchApplies(w, p, s, ours, peer, clock, tick, k, from, from, hi, 0);
    TopOfSync(w, p, SubmitBatch(w, p, s, peer[from..hi], from, clock, tick, 0).s, ours, peer, NextKnown(from, k, peer));
  }

  lemma RoundApplies(w: World, p: Params, c: Cursor, ours: Chain, peer: Chain, clock: Clock, k: nat)
    requires p.WellFormed() && CursorInv(w, p, c, ours, peer, k) && HonestBy(w, p, peer, clock)
    requires c.from <= k + 1 && SeedsMet(w, ours, peer, k, BatchEnd(c.from, peer))
    ensures Inv(w, p, c.s)
    ensures var r := Round(w, p, c, peer, |peer| - 1, clock);
            var k' := NextKnown(c.from, k, peer);
            && (r.Done? <==> k' == |peer| - 1 && Outweighs(peer, ours))
            && match r
               case Done(s', _) => Inv(w, p, s') && Best(w, s') == peer
               case Continue(c') => CursorInv(w, p, c', ours, peer, k')
               case Aborted(_) => false
  {
    hide *;
    UnfoldCursor(w, p, c, ours, peer, k);
    MoveOn(c.from, c.backtrack, ours, peer, k);
    BatchTaken(w, p, c.s, ours, peer, clock, c.tick, k, c.from);
    RoundOnApply(w, p, c, peer, |peer| - 1, clock);
    var r := Round(w, p, c, peer, |peer| - 1, clock);
    if r.Continue? { UnfoldCursor(w, p, r.cursor, ours, peer, NextKnown(c.from, k, peer)); }
  }

  lemma RefusesIs(w: World, from: nat, ours: Chain, peer: Chain, k: nat)
    ensures BatchEnd(from, peer) <= |peer|
    ensures Refuses(w, from, ours, peer, k) <==> from <= k + 1 && !SeedsMet(w, ours, peer, k, BatchEnd(from, peer))
  {
    hide SeedsMet;
  }

  lemma RoundRefuses(w: World, p: Params, c: Cursor, ours: Chain, peer: Chain, clock: Clock, k: nat)
    requires p.WellFormed() && CursorInv(w, p, c, ours, peer, k) && HonestBy(w, p, peer, clock)
    requires Refuses(w, c.from, ours, peer, k)
    ensures Inv(w, p, c.s) && Round(w, p, c, peer, |peer| - 1, clock).Aborted?
  {
    hide *;
    UnfoldCursor(w, p, c, ours, peer, k);
    RefusesIs(w, c.from, ours, peer, k);
    MoveOn(c.from, c.backtrack, ours, peer, k);
    var hi := BatchEnd(c.from, peer);
    FetchIs(peer, c.from);
    BatchFails(w, p, c.s, ours, peer, clock, c.tick, k, c.from, c.from, hi, 0);
    RoundOnFailure(w, p, c, peer, |peer| - 1, clock);
  }

  lemma FetchIs(peer: Chain, from: nat)
    ensures BatchEnd(from, peer) <= |peer|
    ensures from < BatchEnd(from, peer) ==> Fetch(peer, from) == peer[from..BatchEnd(from, peer)] != []
  {
  }

  /** One round aborts exactly when its batch holds a block whose seed is not met; it is the last exactly when the batch
      brings the rest of a chain that outweighs ours; otherwise the loop stands well again. */
  lemma RoundStep(w: World, p: Params, c: Cursor, ours: Chain, peer: Chain, clock: Clock, k: nat)
    requires p.WellFormed() && CursorInv(w, p, c, ours, peer, k) && HonestBy(w, p, peer, clock)
    ensures Inv(w, p, c.s)
    ensures var r := Round(w, p, c, peer, |peer| - 1, clock);
            var k' := NextKnown(c.from, k, peer);
            && (r.Aborted? <==> Refuses(w, c.from, ours, peer, k))
            && (r.Done? <==> !r.Aborted? && k' == |peer| - 1 && c.from <= k + 1 && Outweighs(peer, ours))
            && (r.Done? ==> Inv(w, p, r.s) && Best(w, r.s) == peer)
            && (r.Continue? ==>
                  CursorInv(w, p, r.cursor, ours, peer, k') && (c.from > k + 1 ==> r.cursor.from == c.from - 1))
  {
    hide *;
    RefusesIs(w, c.from, ours, peer, k);
    UnfoldCursor(w, p, c, ours, peer, k);
    if c.from > k + 1 {
      StepBack(c.from, c.backtrack, ours, peer, k);
      RoundForks(w, p, c, ours, peer, clock, k);
    } else if Refuses(w, c.from, ours, peer, k) {
      RoundRefuses(w, p, c, ours, peer, clock, k);
    } else {
      RoundApplies(w, p, c, ours, peer, clock, k);
    }
  }

  // ---- Any number of rounds -------------------------------------------------

  /** The outcome after at most `n` rounds. */
  ghost function Rounds(w: World, p: Params, c: Cursor, peer: Chain, remote: nat, clock: Clock, n: nat): Outcome
    requires p.WellFormed() && Inv(w, p, c.s)
    decreases n
  {
    if n == 0 then Continue(c)
    else
      hide Inv, Round;
      match Round(w, p, c, peer, remote, clock)
      case Continue(c') => Rounds(w, p, c', peer, remote, clock, n - 1)
      case end => end
  }

  /** The peer's block one batch above our height, or its tip if that is nearer. */
  function Horizon(ours: Chain, peer: Chain): nat { Min(|ours| + BATCH, |peer|) }

  /** The peer's chain up to the horizon has more work than ours. */
  predicate Heavy(ours: Chain, peer: Chain) { Outweighs(peer[..Horizon(ours, peer)], ours) }

  /** How much of the peer's chain the loop gets to try. */
  function Reach(ours: Chain, peer: Chain): (n: nat)
    ensures n <= |peer|
  {
    if Heavy(ours, peer) then |peer| else Horizon(ours, peer)
  }

  lemma WorkGrows(chain: Chain, i: nat, j: nat)
    requires i <= j <= |chain| && Work(chain) <= U128_MAX
    ensures ChainWork(chain[..i]) <= ChainWork(chain[..j])
  {
    if i < j { WorkStrict(chain, i, j); }
  }

  /** Below its reach the loop learns blocks by every batch it takes. */
  lemma RoundProgress(from: nat, backtrack: nat, ours: Chain, peer: Chain, k: nat)
    requires CursorAt(from, backtrack, ours, peer, k) && Work(peer) <= U128_MAX && from <= k + 1
    requires Heavy(ours, peer) || k + 1 < Horizon(ours, peer)
    ensures NextKnown(from, k, peer) > k
  {
    hide ChainWork;
    if k + 1 >= Horizon(ours, peer) {
      WorkGrows(peer, Horizon(ours, peer), k + 1);
      assert Outweighs(peer[..k + 1], ours);
    }
  }

  /** A batch taken whole leaves the unmet seeds to those that follow. */
  lemma StillUnmet(w: World, from: nat, ours: Chain, peer: Chain, k: nat, n: nat)
    requires n <= |peer| && k < |peer| && !Refuses(w, from, ours, peer, k)
    ensures SeedsMet(w, ours, peer, NextKnown(from, k, peer), n) <==> SeedsMet(w, ours, peer, k, n)
  {
    hide SeedMet;
  }

  /** Whether the loop ends, seen from a cursor: the peer is heavy, or a seed within reach is not met. */
  ghost predicate Ends(w: World, ours: Chain, peer: Chain, k: nat) {
    Heavy(ours, peer) || !SeedsMet(w, ours, peer, k, Horizon(ours, peer))
  }

  lemma EndsIs(w: World, from: nat, ours: Chain, peer: Chain, k: nat)
    requires k < |peer|
    ensures Horizon(ours, peer) <= |peer|
    ensures Ends(w, ours, peer, k) <==> Heavy(ours, peer) || !SeedsMet(w, ours, peer, k, Horizon(ours, peer))
    ensures Reach(ours, peer) == if Heavy(ours, peer) then |peer| else Horizon(ours, peer)
    ensures Ends(w, ours, peer, k) && !Heavy(ours, peer) ==> k + 1 < Horizon(ours, peer)
    ensures SeedsMet(w, ours, peer, k, |peer|) ==> SeedsMet(w, ours, peer, k, Reach(ours, peer))
    ensures SeedsMet(w, ours, peer, |peer| - 1, |peer|)
    ensures Refuses(w, from, ours, peer, k) ==> !SeedsMet(w, ours, peer, k, |peer|)
  {
    hide SeedMet, Heavy;
  }

  /** Then each round learns blocks, steps back, or ends as it should. */
  lemma RoundAdvances(w: World, p: Params, c: Cursor, ours: Chain, peer: Chain, clock: Clock, k: nat)
    requires p.WellFormed() && CursorInv(w, p, c, ours, peer, k) && Work(peer) <= U128_MAX
             && HonestBy(w, p, peer, clock)
    requires Ends(w, ours, peer, k)
    ensures k < |peer| && Inv(w, p, c.s)
    ensures var k' := NextKnown(c.from, k, peer);
            match Round(w, p, c, peer, |peer| - 1, clock)
            case Done(s', _) => SeedsMet(w, ours, peer, k, Reach(ours, peer)) && Inv(w, p, s') && Best(w, s') == peer
            case Aborted(_) => !SeedsMet(w, ours, peer, k, Reach(ours, peer))
            case Continue(c') =>
              && CursorInv(w, p, c', ours, peer, k') && (k' > k || (k' == k && c'.from < c.from))
              && Ends(w, ours, peer, k')
              && (SeedsMet(w, ours, peer, k', Reach(ours, peer)) <==> SeedsMet(w, ours, peer, k, Reach(ours, peer)))
  {
    hide *;
    UnfoldCursor(w, p, c, ours, peer, k);
    EndsIs(w, c.from, ours, peer, k);
    RoundStep(w, p, c, ours, peer, clock, k);
    var r := Round(w, p, c, peer, |peer| - 1, clock);
    if c.from <= k + 1 { RoundProgress(c.from, c.backtrack, ours, peer, k); }
    if !r.Aborted? {
      var k' := NextKnown(c.from, k, peer);
      NextKnownIs(c.from, k, peer);
      EndsIs(w, c.from, ours, peer, k');
      StillUnmet(w, c.from, ours, peer, k, Horizon(ours, peer));
      StillUnmet(w, c.from, ours, peer, k, |peer|);
    }
  }

  lemma NextKnownIs(from: nat, k: nat, peer: Chain)
    requires k < |peer|
    ensures k <= NextKnown(from, k, peer) < |peer|
    ensures from > k + 1 ==> NextKnown(from, k, peer) == k
  {
  }

  lemma RoundsUnfold(w: World, p: Params, c: Cursor, peer: Chain, remote: nat, clock: Clock, n: nat)
    requires p.WellFormed() && Inv(w, p, c.s)
    ensures Rounds(w, p, c, peer, remote, clock, n) ==
              if n == 0 then Continue(c)
              else match Round(w, p, c, peer, remote, clock)
              case Continue(c') => Rounds(w, p, c', peer, remote, clock, n - 1)
              case end => end
  {
    hide Inv, Round;
  }

  /** Then the loop ends: on the peer's chain if all its seeds are met, and else with an error. */
  lemma {:induction false} SyncEnds(w: World, p: Params, c: Cursor, ours: Chain, peer: Chain, clock: Clock, k: nat)
    returns (n: nat)
    requires p.WellFormed() && CursorInv(w, p, c, ours, peer, k) && Work(peer) <= U128_MAX
             && HonestBy(w, p, peer, clock)
    requires Ends(w, ours, peer, k)
    ensures Inv(w, p, c.s)
    ensures var r := Rounds(w, p, c, peer, |peer| - 1, clock, n);
            if SeedsMet(w, ours, peer, k, Reach(ours, peer)) then r.Done? && Inv(w, p, r.s) && Best(w, r.s) == peer
            else r.Aborted?
    decreases |peer| - k, c.from
  {
    hide *;
    RoundAdvances(w, p, c, ours, peer, clock, k);
    n := 1;
    var r := Round(w, p, c, peer, |peer| - 1, clock);
    if r.Continue? {
      var m := SyncEnds(w, p, r.cursor, ours, peer, clock, NextKnown(c.from, k, peer));
      n := m + 1;
    }
    RoundsUnfold(w, p, c, peer, |peer| - 1, clock, n);
  }

  /** Against a light peer whose seeds are met within reach, a round leaves the loop on our chain, still running. */
  lemma RoundStays(from: nat, backtrack: nat, ours: Chain, peer: Chain, k: nat)
    requires CursorAt(from, backtrack, ours, peer, k) && Work(peer) <= U128_MAX
    requires !Outweighs(peer[..k + 1], ours) && !Heavy(ours, peer)
    ensures var k' := NextKnown(from, k, peer);
            && k' < |peer| && !Outweighs(peer[..k' + 1], ours)
            && (k' == |peer| - 1 ==> !Outweighs(peer, ours))
    ensures from <= k + 1 ==> BatchEnd(from, peer) <= Horizon(ours, peer)
  {
    hide ChainWork;
    var k' := NextKnown(from, k, peer);
    if k' != k {
      assert k' + 1 <= Horizon(ours, peer);
      WorkGrows(peer, k' + 1, Horizon(ours, peer));
    }
    assert peer[..|peer|] == peer;
  }

  lemma RoundIdles(w: World, p: Params, c: Cursor, ours: Chain, peer: Chain, clock: Clock, k: nat)
    requires p.WellFormed() && CursorInv(w, p, c, ours, peer, k) && Work(peer) <= U128_MAX
             && HonestBy(w, p, peer, clock)
    requires k < |peer| && !Outweighs(peer[..k + 1], ours) && !Ends(w, ours, peer, k)
    ensures Inv(w, p, c.s)
    ensures var r, k' := Round(w, p, c, peer, |peer| - 1, clock), NextKnown(c.from, k, peer);
            && r.Continue? && CursorInv(w, p, r.cursor, ours, peer, k')
            && k' < |peer| && !Outweighs(peer[..k' + 1], ours) && !Ends(w, ours, peer, k')
  {
    hide *;
    UnfoldCursor(w, p, c, ours, peer, k);
    EndsIs(w, c.from, ours, peer, k);
    RoundStays(c.from, c.backtrack, ours, peer, k);
    NeverRefuses(w, c.from, ours, peer, k);
    RoundStep(w, p, c, ours, peer, clock, k);
    var k' := NextKnown(c.from, k, peer);
    EndsIs(w, c.from, ours, peer, k');
    StillUnmet(w, c.from, ours, peer, k, Horizon(ours, peer));
  }

  lemma NeverRefuses(w: World, from: nat, ours: Chain, peer: Chain, k: nat)
    requires k < |peer| && !Ends(w, ours, peer, k) && (from <= k + 1 ==> BatchEnd(from, peer) <= Horizon(ours, peer))
    ensures !Refuses(w, from, ours, peer, k)
  {
    hide SeedMet, Heavy;
  }

  /** Otherwise it never ends: the same batch is fetched for ever. */
  lemma {:induction false} SyncLivelock(w: World, p: Params, c: Cursor, ours: Chain, peer: Chain, clock: Clock, k: nat,
                                        n: nat)
    requires p.WellFormed() && CursorInv(w, p, c, ours, peer, k) && Work(peer) <= U128_MAX
             && HonestBy(w, p, peer, clock)
    requires k < |peer| && !Outweighs(peer[..k + 1], ours) && !Ends(w, ours, peer, k)
    ensures Inv(w, p, c.s) && Rounds(w, p, c, peer, |peer| - 1, clock, n).Continue?
    decreases n
  {
    hide *;
    RoundIdles(w, p, c, ours, peer, clock, k);
    RoundsUnfold(w, p, c, peer, |peer| - 1, clock, n);
    if n > 0 {
      var next := Round(w, p, c, peer, |peer| - 1, clock).cursor;
      SyncLivelock(w, p, next, ours, peer, clock, NextKnown(c.from, k, peer), n - 1);
    }
  }

  lemma RoundSearches(w: World, p: Params, c: Cursor, best: Chain, peer: Chain, clock: Clock, k: nat)
    requires p.WellFormed() && FollowsBest(w, p, c.s, best, peer, k) && HonestBy(w, p, peer, clock)
    requires k + 1 < c.from < |peer|
    ensures Inv(w, p, c.s)
    ensures match Round(w, p, c, peer, |peer| - 1, clock)
            case Continue(c') =>
              && c.backtrack < MAX_FORK_SEARCH_DEPTH && FollowsBest(w, p, c'.s, best, peer, k)
              && c'.from == c.from - 1 && c'.backtrack == c.backtrack + 1
            case Aborted(_) => c.backtrack >= MAX_FORK_SEARCH_DEPTH
            case Done(_, _) => false
  {
    hide *;
    BatchRefused(w, p, c.s, best, peer, clock, c.tick, k, c.from);
    RoundOnFork(w, p, c, peer, |peer| - 1, clock);
  }

  /** Too far above the fork to find it. */
  predicate TooFar(from: nat, backtrack: nat, peer: Chain, k: nat) {
    && k + 1 < from < |peer| && backtrack <= MAX_FORK_SEARCH_DEPTH
    && MAX_FORK_SEARCH_DEPTH + k + 1 < backtrack + from
  }

  /** Too deep a fork exhausts the backward search. */
  lemma {:induction false} SyncGivesUp(w: World, p: Params, c: Cursor, best: Chain, peer: Chain, clock: Clock, k: nat)
    returns (n: nat)
    requires p.WellFormed() && FollowsBest(w, p, c.s, best, peer, k) && HonestBy(w, p, peer, clock)
    requires TooFar(c.from, c.backtrack, peer, k)
    ensures Inv(w, p, c.s) && Rounds(w, p, c, peer, |peer| - 1, clock, n).Aborted?
    decreases MAX_FORK_SEARCH_DEPTH - c.backtrack
  {
    SearchOn(c.from, c.backtrack, peer, k);
    hide *;
    RoundSearches(w, p, c, best, peer, clock, k);
    n := 1;
    var r := Round(w, p, c, peer, |peer| - 1, clock);
    if r.Continue? {
      SearchOn(r.cursor.from, r.cursor.backtrack, peer, k);
      var m := SyncGivesUp(w, p, r.cursor, best, peer, clock, k);
      n := m + 1;
    }
    RoundsUnfold(w, p, c, peer, |peer| - 1, clock, n);
  }

  lemma SearchOn(from: nat, backtrack: nat, peer: Chain, k: nat)
    ensures TooFar(from, backtrack, peer, k) ==> k + 1 < from < |peer| && backtrack <= MAX_FORK_SEARCH_DEPTH
    ensures TooFar(from, backtrack, peer, k) && backtrack < MAX_FORK_SEARCH_DEPTH && from > 0 ==>
              TooFar(from - 1, backtrack + 1, peer, k)
  {
  }

  /** An outcome that has ended stays what it is. */
  lemma {:induction false} RoundsSettle(w: World, p: Params, c: Cursor, peer: Chain, remote: nat, clock: Clock, n: nat,
                                        m: nat)
    requires p.WellFormed() && Inv(w, p, c.s)
    requires n <= m && !Rounds(w, p, c, peer, remote, clock, n).Continue?
    ensures Rounds(w, p, c, peer, remote, clock, m) == Rounds(w, p, c, peer, remote, clock, n)
    decreases n
  {
    hide *;
    RoundsUnfold(w, p, c, peer, remote, clock, n);
    RoundsUnfold(w, p, c, peer, remote, clock, m);
    var r := Round(w, p, c, peer, remote, clock);
    if n > 0 && r.Continue? {
      RoundsSettle(w, p, r.cursor, peer, remote, clock, n - 1, m - 1);
    }
  }

  /** So a loop has at most one end. */
  lemma OnlyOneEnd(w: World, p: Params, c: Cursor, peer: Chain, remote: nat, clock: Clock, m: nat, n: nat)
    requires p.WellFormed() && Inv(w, p, c.s) && !Rounds(w, p, c, peer, remote, clock, m).Continue?
    ensures var r := Rounds(w, p, c, peer, remote, clock, n);
            r.Continue? || r == Rounds(w, p, c, peer, remote, clock, m)
  {
    hide *;
    if n > m {
      RoundsSettle(w, p, c, peer, remote, clock, m, n);
    } else if !Rounds(w, p, c, peer, remote, clock, n).Continue? {
      RoundsSettle(w, p, c, peer, remote, clock, n, m);
    }
  }
}
