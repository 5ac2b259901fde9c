/** Runs that follow any honest chain from nothing, and branches of simple blocks to build such chains from. */
module ChainExamples {
  import opened Prelude
  import opened Types
  import opened Emission
  import opened Utxo
  import opened Validation
  import opened Store
  import opened Difficulty
  import opened ForkChoice
  import opened Consensus
  import opened Runs
  import opened Sync
  import opened SyncFate

  // ---- Every honest chain can be followed from nothing -----------------------

  ghost predicate OwnSeedsMet(w: World, chain: Chain) {
    forall i {:trigger OwnSeedMet(w, chain, i)} :: 1 <= i < |chain| ==> OwnSeedMet(w, chain, i)
  }

  /** From genesis alone, the seeds read are the peer's own: its branch is followed from its second block on. */
  lemma FreshSeeds(w: World, peer: Chain, n: nat)
    requires 1 <= n <= |peer| && Work(peer) <= U128_MAX && OwnSeedsMet(w, peer)
    ensures SeedsMet(w, peer[..1], peer, 0, n)
  {
    forall i | 0 < i < n ensures SeedMet(w, peer[..1], peer, i) {
      if i > 1 { WorkStrict(peer, 1, i); }
      hide ChainWork, SeedMet;
      SameSeedExactly(w, peer[..1], peer, i);
      assert OwnSeedMet(w, peer, i);
    }
  }

  lemma RunExtends(w: World, p: Params, states: seq<State>, events: seq<Event>, e: Event, s': State)
    requires p.WellFormed() && Run(w, p, states, events)
    requires var s := states[|events|]; Inv(w, p, s) && Steps(w, p, s, e, s')
    ensures Run(w, p, states + [s'], events + [e])
  {
    hide Inv, Steps;
  }

  /** Every stored block is one of the chain's first `n`. */
  ghost predicate OnlyHolds(w: World, blocks: Blocks, chain: Chain, n: nat)
    requires n <= |chain|
  {
    forall h :: h in blocks ==> exists i :: 0 <= i < n && w.BlockHash(chain[i]) == h
  }

  lemma GenesisStored(w: World, p: Params, b: Block, timestamp: nat, nonce: nat)
    requires p.WellFormed() && b.header.prev == ZERO && b.header.height == 0
    requires InitGenesis(w, p, EMPTY, timestamp, nonce).0 == Ok(b)
    ensures var s := InitGenesis(w, p, EMPTY, timestamp, nonce).1;
            && s.blocks == map[w.BlockHash(b) := b] && s.metaTip == Some(w.BlockHash(b)) && Inv(w, p, s)
            && Closed(w, s.blocks) && ChainTo(w, s.blocks, w.BlockHash(b)) == [b]
  {
    EmptyInv(w, p);
    GenesisKeepsInv(w, p, EMPTY, timestamp, nonce);
    hide RequiredBits, ValidateBlock, EpochSeed, Candidate, Replay, AcceptedAt, Index;
  }

  lemma GenesisHolds(w: World, p: Params, chain: Chain, now: nat, timestamp: nat, nonce: nat)
    requires p.WellFormed() && Honest(w, p, chain, now)
    requires InitGenesis(w, p, EMPTY, timestamp, nonce).0 == Ok(chain[0])
    ensures var s := InitGenesis(w, p, EMPTY, timestamp, nonce).1;
            SyncInv(w, p, s, chain[..1], chain, 0) && OnlyHolds(w, s.blocks, chain, 1)
  {
    hide Inv, InitGenesis, Replay, Accepted, ChainTo, Closed, Work;
    GenesisStored(w, p, chain[0], timestamp, nonce);
    assert [chain[0]] == chain[..1];
  }

  lemma HoldsNext(w: World, p: Params, s: State, s': State, chain: Chain, n: nat)
    requires p.WellFormed() && 0 < n < |chain| && OnlyHolds(w, s.blocks, chain, n)
    requires Inv(w, p, s) && Inv(w, p, s') && Grows(w, p, s, s', w.BlockHash(chain[n]))
    ensures OnlyHolds(w, s'.blocks, chain, n + 1)
  {
    hide Inv, ChainTo, WorkAt;
    forall h | h in s'.blocks ensures exists i :: 0 <= i < n + 1 && w.BlockHash(chain[i]) == h {
      if h in s.blocks {
        var i :| 0 <= i < n && w.BlockHash(chain[i]) == h;
      } else {
        assert w.BlockHash(chain[n]) == h;
      }
    }
  }

  lemma HonestStep(w: World, p: Params, s: State, chain: Chain, now: nat, n: nat) returns (s': State)
    requires p.WellFormed() && Honest(w, p, chain, now) && OwnSeedsMet(w, chain) && 0 < n < |chain|
    requires Work(chain) <= U128_MAX
    requires SyncInv(w, p, s, chain[..1], chain, n - 1) && OnlyHolds(w, s.blocks, chain, n)
    ensures Inv(w, p, s) && Steps(w, p, s, Receive(chain[n], now), s')
    ensures SyncInv(w, p, s', chain[..1], chain, n) && OnlyHolds(w, s'.blocks, chain, n + 1)
  {
    hide *;
    SyncInvIs(w, p, s, chain[..1], chain, n - 1);
    FreshSeeds(w, chain, n + 1);
    MetAt(w, chain[..1], chain, 0, n + 1, n);
    SubmitInTurn(w, p, s, chain[..1], chain, now, n - 1, n);
    SyncInvIs(w, p, Submit(w, p, s, chain[n], now).1, chain[..1], chain, n);
    SubmitGrows(w, p, s, chain[n], now);
    s' := Submit(w, p, s, chain[n], now).1;
    HoldsNext(w, p, s, s', chain, n);
    ReceiveSteps(w, p, s, chain[n], now);
  }

  /** A run without crashes that ends in a state following the chain's first `n + 1` blocks and holding no others. */
  ghost predicate Reaches(w: World, p: Params, states: seq<State>, events: seq<Event>, chain: Chain, n: nat)
    requires p.WellFormed() && n < |chain|
  {
    && Run(w, p, states, events) && |states| == |events| + 1 == n + 2
    && (forall j :: 0 <= j < |events| ==> !events[j].Crash?)
    && SyncInv(w, p, states[n + 1], chain[..1], chain, n) && OnlyHolds(w, states[n + 1].blocks, chain, n + 1)
  }

  /** Creating genesis and submitting an honest chain block by block is such a run. */
  lemma {:induction false} HonestReachable(w: World, p: Params, chain: Chain, now: nat, timestamp: nat, nonce: nat,
                                           n: nat)
    returns (states: seq<State>, events: seq<Event>)
    requires p.WellFormed() && Honest(w, p, chain, now) && OwnSeedsMet(w, chain) && n < |chain|
    requires InitGenesis(w, p, EMPTY, timestamp, nonce).0 == Ok(chain[0])
    ensures Reaches(w, p, states, events, chain, n)
  {
    hide *;
    if n == 0 {
      states, events := GenesisReaches(w, p, chain, now, timestamp, nonce);
    } else {
      var before, past := HonestReachable(w, p, chain, now, timestamp, nonce, n - 1);
      states, events := ReachesNext(w, p, before, past, chain, now, n);
    }
  }

  lemma GenesisReaches(w: World, p: Params, chain: Chain, now: nat, timestamp: nat, nonce: nat)
    returns (states: seq<State>, events: seq<Event>)
    requires p.WellFormed() && Honest(w, p, chain, now)
    requires InitGenesis(w, p, EMPTY, timestamp, nonce).0 == Ok(chain[0])
    ensures Reaches(w, p, states, events, chain, 0)
  {
    GenesisHolds(w, p, chain, now, timestamp, nonce);
    GenesisRun(w, p, timestamp, nonce);
    hide Inv, InitGenesis, Run, SyncInv, OnlyHolds;
    states, events := [EMPTY, InitGenesis(w, p, EMPTY, timestamp, nonce).1], [Genesis(timestamp, nonce)];
  }

  lemma ReachesNext(w: World, p: Params, states: seq<State>, events: seq<Event>, chain: Chain, now: nat, n: nat)
    returns (states': seq<State>, events': seq<Event>)
    requires p.WellFormed() && Honest(w, p, chain, now) && OwnSeedsMet(w, chain) && 0 < n < |chain|
    requires Reaches(w, p, states, events, chain, n - 1)
    ensures Reaches(w, p, states', events', chain, n)
  {
    hide *;
    HonestReplays(w, p, chain, now, 0);
    var e := Receive(chain[n], now);
    ReachesIs(w, p, states, events, chain, n - 1);
    var s' := HonestStep(w, p, states[n], chain, now, n);
    RunExtends(w, p, states, events, e, s');
    states', events' := states + [s'], events + [e];
    ReachesJoin(w, p, states', events', chain, n);
  }

  lemma ReachesJoin(w: World, p: Params, states: seq<State>, events: seq<Event>, chain: Chain, n: nat)
    requires p.WellFormed() && n < |chain|
    requires Run(w, p, states, events) && |states| == |events| + 1 == n + 2
    requires forall j :: 0 <= j < |events| ==> !events[j].Crash?
    requires SyncInv(w, p, states[n + 1], chain[..1], chain, n) && OnlyHolds(w, states[n + 1].blocks, chain, n + 1)
    ensures Reaches(w, p, states, events, chain, n)
  {
    hide Run, SyncInv, OnlyHolds;
  }

  lemma GenesisRun(w: World, p: Params, timestamp: nat, nonce: nat)
    requires p.WellFormed()
    ensures Run(w, p, [EMPTY, InitGenesis(w, p, EMPTY, timestamp, nonce).1], [Genesis(timestamp, nonce)])
  {
    hide Inv, InitGenesis;
  }

  lemma MetAt(w: World, ours: Chain, peer: Chain, k: nat, n: nat, i: nat)
    requires n <= |peer| && SeedsMet(w, ours, peer, k, n) && k < i < n
    ensures SeedMet(w, ours, peer, i)
  {
    hide SeedMet;
  }

  lemma ReceiveSteps(w: World, p: Params, s: State, b: Block, now: nat)
    requires p.WellFormed() && Inv(w, p, s)
    ensures Steps(w, p, s, Receive(b, now), Submit(w, p, s, b, now).1)
  {
    hide Inv, Submit;
  }

  /** Where such a run leaves a node: on the chain, with nothing above it. */
  lemma Followed(w: World, p: Params, chain: Chain, now: nat, timestamp: nat, nonce: nat)
    returns (states: seq<State>, events: seq<Event>)
    requires p.WellFormed() && Honest(w, p, chain, now) && OwnSeedsMet(w, chain)
    requires InitGenesis(w, p, EMPTY, timestamp, nonce).0 == Ok(chain[0])
    ensures Run(w, p, states, events) && |states| == |events| + 1 == |chain| + 1
    ensures forall j :: 0 <= j < |events| ==> !events[j].Crash?
    ensures var s := states[|chain|];
            && Inv(w, p, s) && Topped(w, p, s, {}) && s.metaTip.Some? && Closed(w, s.blocks)
            && s.metaTip.value in s.blocks && Best(w, s) == chain
            && OnlyHolds(w, s.blocks, chain, |chain|) && Knows(w, s.blocks, chain, |chain| - 1)
  {
    assert Work(chain) <= U128_MAX && chain != [];
    hide *;
    var n := |chain| - 1;
    states, events := HonestReachable(w, p, chain, now, timestamp, nonce, n);
    ReachesIs(w, p, states, events, chain, n);
    SyncInvIs(w, p, states[n + 1], chain[..1], chain, n);
    TopOfSync(w, p, states[n + 1], chain[..1], chain, n);
    AfterAll(chain);
    InSync(w, p, states[n + 1], chain, chain, n);
    RunHeaviest(w, p, states, events, n + 1);
  }

  lemma ReachesIs(w: World, p: Params, states: seq<State>, events: seq<Event>, chain: Chain, n: nat)
    requires p.WellFormed() && n < |chain| && Reaches(w, p, states, events, chain, n)
    ensures Run(w, p, states, events) && |states| == |events| + 1 == n + 2
    ensures forall j :: 0 <= j < |events| ==> !events[j].Crash?
    ensures SyncInv(w, p, states[n + 1], chain[..1], chain, n) && OnlyHolds(w, states[n + 1].blocks, chain, n + 1)
  {
    hide Run, SyncInv, OnlyHolds;
  }

  lemma AfterAll(chain: Chain)
    requires chain != [] && Work(chain) <= U128_MAX
    ensures After(chain[..1], chain, |chain| - 1) == chain
  {
    assert chain[..|chain|] == chain;
    if |chain| > 1 { WorkStrict(chain, 1, |chain|); }
  }

  // ---- Two branches from one genesis -----------------------------------------

  const PLAIN_COINBASE: Transaction := Transaction(0, [], [], COINBASE_TAG)

  /** A hash that tells apart heights and three branches, named by nonce. */
  function HashOf(height: nat, nonce: nat): BlockId { 1 + 3 * height + Min(nonce, 2) }

  function SampleWorld(meets: (BlockHeader, Hash256) -> bool): World {
    World((h: BlockHeader) => HashOf(h.height, h.nonce), ids => ZERO, (ins, outs, data) => ZERO, meets,
          (sig, spk, msg, height) => true, (height, reward, miner) => [], addr => None, spk => None, data => data)
  }

  function SampleGenesis(w: World, p: Params): Block
    requires p.WellFormed()
  {
    WithBits(Candidate(w, p, None, 0, "genesis", [], 0), RequiredBits(p, []), 0)
  }

  /** A branch off genesis: where it parts, its name, and each block's bits, time and transactions. */
  datatype Plan = Plan(fork: pos, tag: nat, bits: nat -> u8, time: nat -> nat, txs: nat -> seq<Transaction>) {
    function Tag(height: nat): nat { if height < fork then 0 else tag }
  }

  /** Blocks with nothing but an empty coinbase. */
  function Plain(i: nat): seq<Transaction> { [PLAIN_COINBASE] }

  function PlannedBlock(p: Params, height: pos, plan: Plan): Block {
    Block(BlockHeader(1, p.chainId, height, HashOf(height - 1, plan.Tag(height - 1)), ZERO, plan.time(height),
                      plan.bits(height), plan.Tag(height)),
          plan.txs(height))
  }

  /** Genesis and the plan's blocks. */
  function Branch(w: World, p: Params, n: nat, plan: Plan): Chain
    requires p.WellFormed()
  {
    seq(n, (i: nat) => if i == 0 then SampleGenesis(w, p) else PlannedBlock(p, i, plan))
  }

  lemma GenesisFacts(meets: (BlockHeader, Hash256) -> bool, p: Params)
    requires p.WellFormed()
    requires var w := SampleWorld(meets); w.meetsWork(SampleGenesis(w, p).header, ZERO)
    ensures var w := SampleWorld(meets);
            var g := SampleGenesis(w, p);
            && InitGenesis(w, p, EMPTY, 0, 0).0 == Ok(g)
            && g.header.height == 0 && g.header.nonce == 0 && g.header.prev == ZERO
            && g.header.bits == RequiredBits(p, [])
            && Replay(w, p, [g]).Ok?
  {
    var w := SampleWorld(meets);
    var g := SampleGenesis(w, p);
    CandidateCoinbase(w, p, None, 0, "genesis", [], 0);
    CandidateApplies(w, p, map[], None, 0, "genesis", [], 0);
    assert ApplyBlock(w, p, map[], g).Ok?;
    assert [g][..0] == [] && Replay(w, p, []) == Ok(map[]);
    hide Candidate, ApplyBlock, RequiredBits;
  }

  const GENESIS_OUT: OutPoint := OutPoint(ZERO, 0)

  function GenesisEntry(p: Params): UtxoEntry { UtxoEntry(TxOutput(Reward(p, 0), []), 0, true) }

  /** Without a premint, genesis leaves its subsidy and nothing else. */
  lemma GenesisSet(w: World, p: Params)
    requires p.WellFormed() && w == SampleWorld(w.meetsWork) && !p.HasPremint() && Reward(p, 0) > 0
    ensures Replay(w, p, [SampleGenesis(w, p)]) == Ok(map[GENESIS_OUT := GenesisEntry(p)])
  {
    var g := SampleGenesis(w, p);
    var reward := Reward(p, 0);
    var coinbase := CoinbaseTx(w, 0, reward, "genesis");
    assert g.txs == [coinbase] && g.header.height == 0;
    assert coinbase == Transaction(ZERO, [], [TxOutput(reward, [])], COINBASE_TAG);
    hide Reward, RequiredBits, SampleGenesis, CoinbaseTx, SampleWorld;
    OneOutput(w, p, map[], g, coinbase, TxOutput(reward, []));
    assert [g][..0] == [] && Replay(w, p, []) == Ok(map[]);
    assert map[][GENESIS_OUT := GenesisEntry(p)] == map[GENESIS_OUT := GenesisEntry(p)];
  }

  /** A block with one coinbase of one output puts that output, over whatever had its outpoint. */
  lemma OneOutput(w: World, p: Params, m: UtxoMap, b: Block, coinbase: Transaction, out: TxOutput)
    requires b.txs == [coinbase] && coinbase == Transaction(ZERO, [], [out], COINBASE_TAG) && out.script == []
    requires out.value <= Reward(p, b.header.height)
    ensures ApplyBlock(w, p, m, b) == Ok(m[GENESIS_OUT := UtxoEntry(out, b.header.height, true)])
    ensures SpentBy(b.txs[1..]) == {}
  {
    hide Reward;
    var h := b.header.height;
    assert b.txs[1..] == [] && b.txs[..0] == [] && SpentBy([]) == {} && m - {} == m;
    assert AddTxs(m, [], h) == m;
    assert AddOutputs(m, coinbase, h, 0) == m;
    assert AddOutputs(m, coinbase, h, 1) == m[GENESIS_OUT := UtxoEntry(out, h, true)];
    assert AddTxs(m, b.txs, h) == AddOutputs(m, coinbase, h, 1);
    assert OutputSum([out]) == out.value by { assert [out][..0] == []; }
  }

  /** Plain blocks leave the UTXO set as it is. */
  lemma {:induction false} PlainReplay(w: World, p: Params, chain: Chain)
    requires chain != [] && Replay(w, p, chain[..1]).Ok?
    requires forall i :: 1 <= i < |chain| ==> chain[i].txs == [PLAIN_COINBASE]
    ensures Replay(w, p, chain) == Replay(w, p, chain[..1])
    decreases |chain|
  {
    var n := |chain| - 1;
    if n == 0 {
      assert chain == chain[..1];
    } else {
      assert chain[..n][..1] == chain[..1];
      PlainReplay(w, p, chain[..n]);
      PlainApplies(w, p, Replay(w, p, chain[..n]).value, chain[n]);
    }
  }

  lemma PlainApplies(w: World, p: Params, m: UtxoMap, b: Block)
    requires b.txs == [PLAIN_COINBASE]
    ensures ApplyBlock(w, p, m, b) == Ok(m)
  {
    assert b.txs[1..] == [] && b.txs[..0] == [] && SpentBy([]) == {} && m - {} == m;
    assert AddTxs(m, [], b.header.height) == m;
    assert AddTxs(m, b.txs, b.header.height) == AddOutputs(m, PLAIN_COINBASE, b.header.height, 0);
  }

  lemma BranchDistinct(w: World, chain: Chain, plan: Plan)
    requires forall i :: 0 <= i < |chain| ==> w.BlockHash(chain[i]) == HashOf(i, plan.Tag(i))
    ensures forall i, j :: 0 <= i < j < |chain| ==> w.BlockHash(chain[i]) != w.BlockHash(chain[j])
  {
    hide HashOf;
    forall i, j | 0 <= i < j < |chain| ensures w.BlockHash(chain[i]) != w.BlockHash(chain[j]) {
      HashesDiffer(i, plan.Tag(i), j, plan.Tag(j));
    }
  }

  lemma HonestIs(w: World, p: Params, chain: Chain, now: nat)
    requires p.WellFormed() && Linked(w, chain) && Work(chain) <= U128_MAX && Replay(w, p, chain).Ok?
    requires forall i, j :: 0 <= i < j < |chain| ==> w.BlockHash(chain[i]) != w.BlockHash(chain[j])
    requires forall i :: 1 <= i < |chain| ==> KeepsRules(w, p, chain, now, i)
    ensures Honest(w, p, chain, now)
  {
    hide Linked, Work, Replay, KeepsRules;
  }

  /** The plan's block at a height keeps the rules. */
  ghost predicate Lawful(p: Params, plan: Plan, past: Chain, now: nat, i: nat)
    requires p.WellFormed()
  {
    && plan.bits(i) == RequiredBits(p, past) && plan.time(i) <= now + p.maxFuture
    && plan.txs(i) != [] && plan.txs(i)[0].IsCoinbase()
  }

  lemma BranchHonest(meets: (BlockHeader, Hash256) -> bool, p: Params, n: pos, plan: Plan, now: nat)
    requires p.WellFormed()
    requires var w := SampleWorld(meets); w.meetsWork(SampleGenesis(w, p).header, ZERO)
    requires var chain := Branch(SampleWorld(meets), p, n, plan);
             && |chain| == n && Work(chain) <= U128_MAX && Replay(SampleWorld(meets), p, chain).Ok?
             && forall i :: 1 <= i < n ==> Lawful(p, plan, chain[..i], now, i)
    ensures Honest(SampleWorld(meets), p, Branch(SampleWorld(meets), p, n, plan), now)
  {
    var w := SampleWorld(meets);
    var chain := Branch(w, p, n, plan);
    assert SampleWorld(w.meetsWork) == w;
    hide *;
    GenesisFacts(meets, p);
    BranchShape(w, p, n, plan);
    BranchDistinct(w, chain, plan);
    forall i | 1 <= i < n ensures KeepsRules(w, p, chain, now, i) {
      PlannedAccepted(meets, p, chain, plan, now, i);
    }
    HonestIs(w, p, chain, now);
  }

  lemma PlainIs(p: Params, plan: Plan, past: Chain, now: nat, i: nat)
    requires p.WellFormed() && plan.txs(i) == [PLAIN_COINBASE]
    requires plan.bits(i) == RequiredBits(p, past) && plan.time(i) <= now + p.maxFuture
    ensures Lawful(p, plan, past, now, i)
  {
    hide RequiredBits;
    assert COINBASE_TAG <= PLAIN_COINBASE.payload;
  }

  /** A plain branch replays to what genesis leaves. */
  lemma PlainBranch(meets: (BlockHeader, Hash256) -> bool, p: Params, n: pos, plan: Plan)
    requires p.WellFormed() && plan.txs == Plain
    requires var w := SampleWorld(meets); w.meetsWork(SampleGenesis(w, p).header, ZERO)
    ensures var w := SampleWorld(meets);
            && Replay(w, p, [SampleGenesis(w, p)]).Ok?
            && Replay(w, p, Branch(w, p, n, plan)) == Replay(w, p, [SampleGenesis(w, p)])
  {
    var w := SampleWorld(meets);
    assert SampleWorld(w.meetsWork) == w;
    assert forall i :: Plain(i) == [PLAIN_COINBASE];
    hide *;
    GenesisFacts(meets, p);
    BranchShape(w, p, n, plan);
    PlainReplay(w, p, Branch(w, p, n, plan));
  }

  lemma HashesDiffer(i: nat, a: nat, j: nat, b: nat)
    requires i != j || Min(a, 2) != Min(b, 2)
    ensures HashOf(i, a) != HashOf(j, b)
  {
  }

  lemma PlannedAccepted(meets: (BlockHeader, Hash256) -> bool, p: Params, chain: Chain, plan: Plan, now: nat, i: nat)
    requires p.WellFormed() && i < |chain| && Lawful(p, plan, chain[..i], now, i)
    requires chain[i].txs == plan.txs(i) && chain[i].header.merkleRoot == ZERO
    requires chain[i].header.chainId == p.chainId && chain[i].header.bits == plan.bits(i)
    requires chain[i].header.timestamp == plan.time(i)
    ensures KeepsRules(SampleWorld(meets), p, chain, now, i)
  {
    hide RequiredBits;
  }

  lemma SampleHash(meets: (BlockHeader, Hash256) -> bool)
    ensures forall b: Block :: SampleWorld(meets).BlockHash(b) == HashOf(b.header.height, b.header.nonce)
  {
    hide HashOf;
  }

  lemma BranchBlock(w: World, p: Params, n: pos, plan: Plan, i: nat)
    requires p.WellFormed() && i < n
    ensures var chain := Branch(w, p, n, plan);
            && |chain| == n && chain[i] == if i == 0 then SampleGenesis(w, p) else PlannedBlock(p, i, plan)
  {
    hide SampleGenesis, PlannedBlock;
  }

  /** The block at a height above genesis is the plan's, on the block below. */
  ghost predicate Planned(w: World, p: Params, b: Block, plan: Plan, i: pos) {
    && w.BlockHash(b) == HashOf(i, plan.Tag(i)) && b.header.height == i
    && b.header.prev == HashOf(i - 1, plan.Tag(i - 1))
    && b.txs == plan.txs(i) && b.header.merkleRoot == ZERO
    && b.header.chainId == p.chainId && b.header.bits == plan.bits(i) && b.header.timestamp == plan.time(i)
  }

  lemma PlannedShape(w: World, p: Params, i: pos, plan: Plan)
    requires w == SampleWorld(w.meetsWork)
    ensures Planned(w, p, PlannedBlock(p, i, plan), plan, i)
  {
    SampleHash(w.meetsWork);
    hide HashOf, SampleWorld;
  }

  lemma LinkedIs(w: World, chain: Chain)
    requires chain != [] && chain[0].header.prev == ZERO && chain[0].header.height == 0
    requires forall i :: 1 <= i < |chain| ==>
               chain[i].header.height == i && chain[i].header.prev == w.BlockHash(chain[i - 1])
    ensures Linked(w, chain)
  {
  }

  lemma BranchShape(w: World, p: Params, n: pos, plan: Plan)
    requires p.WellFormed() && w == SampleWorld(w.meetsWork)
    requires var g := SampleGenesis(w, p).header; g.height == 0 && g.nonce == 0 && g.prev == ZERO
    ensures var chain := Branch(w, p, n, plan);
            && |chain| == n && chain[..1] == [SampleGenesis(w, p)] && Linked(w, chain)
            && (forall i :: 0 <= i < n ==> w.BlockHash(chain[i]) == HashOf(i, plan.Tag(i)))
            && (forall i :: 1 <= i < n ==>
                  && chain[i].txs == plan.txs(i) && chain[i].header.merkleRoot == ZERO
                  && chain[i].header.chainId == p.chainId && chain[i].header.bits == plan.bits(i)
                  && chain[i].header.timestamp == plan.time(i))
  {
    var chain := Branch(w, p, n, plan);
    assert plan.Tag(0) == 0;
    hide Branch, SampleGenesis, PlannedBlock, HashOf, Linked, SampleWorld;
    SampleHash(w.meetsWork);
    BranchBlock(w, p, n, plan, 0);
    forall i | 1 <= i < n ensures Planned(w, p, chain[i], plan, i) {
      BranchBlock(w, p, n, plan, i);
      PlannedShape(w, p, i, plan);
    }
    LinkedIs(w, chain);
    assert chain[..1] == [chain[0]];
  }

  /** A node that has followed one branch knows of the other exactly what lies below the fork. */
  lemma KnowsBelowFork(w: World, blocks: Blocks, ours: Chain, peer: Chain, fork: pos)
    requires fork <= |ours| && fork < |peer|
    requires Knows(w, blocks, ours, |ours| - 1) && OnlyHolds(w, blocks, ours, |ours|)
    requires forall i :: 0 <= i < fork ==> ours[i] == peer[i]
    requires forall i, j :: 0 <= i < |ours| && fork <= j < |peer| ==> w.BlockHash(ours[i]) != w.BlockHash(peer[j])
    ensures Knows(w, blocks, peer, fork - 1)
  {
    forall j | 0 <= j < |peer| ensures w.BlockHash(peer[j]) in blocks <==> j < fork {
      if j < fork { assert ours[j] == peer[j]; }
    }
  }

  /** Two plans that part at one height, under different names. */
  predicate Part(a: Plan, b: Plan) {
    a.fork == b.fork && Min(a.tag, 2) != Min(b.tag, 2) && a.tag != 0 && b.tag != 0
  }

  lemma BranchesDiffer(w: World, p: Params, n: pos, m: pos, a: Plan, b: Plan)
    requires p.WellFormed() && Part(a, b) && w == SampleWorld(w.meetsWork)
    requires var g := SampleGenesis(w, p).header; g.height == 0 && g.nonce == 0 && g.prev == ZERO
    ensures var ours, peer := Branch(w, p, n, a), Branch(w, p, m, b);
            && |ours| == n && |peer| == m
            && forall i, j :: 0 <= i < n && a.fork <= j < m ==> w.BlockHash(ours[i]) != w.BlockHash(peer[j])
  {
    var ours, peer := Branch(w, p, n, a), Branch(w, p, m, b);
    hide SampleGenesis, SampleWorld, Branch, HashOf, Linked;
    SampleHash(w.meetsWork);
    BranchShape(w, p, n, a);
    BranchShape(w, p, m, b);
    forall i, j | 0 <= i < n && a.fork <= j < m ensures w.BlockHash(ours[i]) != w.BlockHash(peer[j]) {
      HashesDiffer(i, a.Tag(i), j, b.Tag(j));
    }
  }

  /** Plans that agree below the fork make branches that agree there. */
  lemma BranchesShare(w: World, p: Params, n: pos, m: pos, a: Plan, b: Plan)
    requires p.WellFormed() && Part(a, b) && a.fork <= n && a.fork < m
    requires forall i :: 1 <= i < a.fork ==> a.bits(i) == b.bits(i) && a.time(i) == b.time(i) && a.txs(i) == b.txs(i)
    ensures var ours, peer := Branch(w, p, n, a), Branch(w, p, m, b);
            && |ours| == n && |peer| == m && ours[0] == SampleGenesis(w, p)
            && forall i :: 0 <= i < a.fork ==> ours[i] == peer[i]
  {
    hide SampleGenesis, HashOf;
  }

  /** A crash-free run ends in `s`. */
  ghost predicate Reachable(w: World, p: Params, states: seq<State>, events: seq<Event>, s: State)
    requires p.WellFormed()
  {
    && Run(w, p, states, events) && states != [] && states[|states| - 1] == s
    && (forall j :: 0 <= j < |events| ==> !events[j].Crash?)
  }

  /** A node that follows `ours`, reached without a crash, and meets what catching up with `peer` assumes. */
  ghost predicate Offered(w: World, p: Params, states: seq<State>, events: seq<Event>, s: State,
                          ours: Chain, peer: Chain, clock: Clock, k: nat)
    requires p.WellFormed()
  {
    Reachable(w, p, states, events, s) && Meets(w, p, s, peer, clock, k) && Topped(w, p, s, {}) && Best(w, s) == ours
  }

  /** A clock that stands still. */
  function At(now: nat): Clock { (tick: nat) => now }

  lemma HonestStill(w: World, p: Params, peer: Chain, now: nat)
    requires p.WellFormed() && Honest(w, p, peer, now)
    ensures HonestBy(w, p, peer, At(now)) && At(now)(0) == now
  {
    hide Honest;
  }

  /** Any two honest chains that part at a height, the other one taller, make such a start. */
  lemma OfferedBranch(w: World, p: Params, ours: Chain, peer: Chain, fork: pos, now: nat)
    returns (s: State, states: seq<State>, events: seq<Event>)
    requires p.WellFormed() && Honest(w, p, ours, now) && OwnSeedsMet(w, ours) && Honest(w, p, peer, now)
    requires ours != [] && InitGenesis(w, p, EMPTY, 0, 0).0 == Ok(ours[0])
    requires fork <= |ours| < |peer| && forall i :: 0 <= i < fork ==> ours[i] == peer[i]
    requires forall i, j :: 0 <= i < |ours| && fork <= j < |peer| ==> w.BlockHash(ours[i]) != w.BlockHash(peer[j])
    ensures Offered(w, p, states, events, s, ours, peer, At(now), fork - 1)
    ensures Closed(w, s.blocks) && s.metaTip.Some? && s.metaTip.value in s.blocks && StartSettled(ours, peer, fork - 1)
  {
    hide *;
    states, events := Followed(w, p, ours, now, 0, 0);
    s := states[|ours|];
    KnowsBelowFork(w, s.blocks, ours, peer, fork);
    MeetsIs(w, p, states, events, s, ours, peer, now, fork);
  }

  lemma MeetsIs(w: World, p: Params, states: seq<State>, events: seq<Event>, s: State, ours: Chain, peer: Chain,
                now: nat, fork: pos)
    requires p.WellFormed() && Inv(w, p, s) && s.metaTip.Some? && Closed(w, s.blocks) && s.metaTip.value in s.blocks
    requires Best(w, s) == ours && |ours| < |peer| && Honest(w, p, peer, now) && Topped(w, p, s, {})
    requires fork < |peer| && Knows(w, s.blocks, peer, fork - 1)
    requires Run(w, p, states, events) && |states| == |ours| + 1 && states[|ours|] == s
    requires forall j :: 0 <= j < |events| ==> !events[j].Crash?
    ensures Offered(w, p, states, events, s, ours, peer, At(now), fork - 1)
    ensures Closed(w, s.blocks) && s.metaTip.Some? && s.metaTip.value in s.blocks && StartSettled(ours, peer, fork - 1)
  {
    hide Inv, Best, Knows, Honest, HonestBy, StartSettled, Run, Topped;
    HonestStill(w, p, peer, now);
    SettledUnlessStranded(w, p, s, peer, now, fork - 1);
  }
}
