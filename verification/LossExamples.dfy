/** Reachable states in which something is lost: a payment by catching up, a block by a crash, a subsidy by a shared
    transaction id. */
module LossExamples {
  import opened Prelude
  import opened Types
  import opened Emission
  import opened Utxo
  import opened Supply
  import opened Validation
  import opened Store
  import opened Difficulty
  import opened ForkChoice
  import opened Consensus
  import opened Submission
  import opened Runs
  import opened Sync
  import opened SyncFate
  import opened SyncDrops
  import opened ChainExamples
  import opened PeerExamples

  // ---- A payment lost by catching up -----------------------------------------

  /** Spends the genesis subsidy once it has matured. */
  const PAYMENT: Transaction := Transaction(1, [TxInput(GENESIS_OUT, [])], [TxOutput(1, [])], [])

  function Paying(i: nat): seq<Transaction> { if i == 11 then [PLAIN_COINBASE, PAYMENT] else [PLAIN_COINBASE] }

  const PAYER: Plan := Plan(1, 1, EasyBits, EveryMinute, Paying)
  const RIVAL: Plan := Plan(1, 2, EasyBits, EveryMinute, Plain)

  /** Our chain's last block holds the payment; the peer's chain has two blocks more and does not hold it. */
  function Payer(w: World): Chain { Branch(w, TESTNET, 12, PAYER) }

  function Rival(w: World): Chain { Branch(w, TESTNET, 14, RIVAL) }

  lemma TestnetGenesis(w: World)
    requires w == SampleWorld(AnyWork)
    ensures TESTNET.WellFormed() && SampleWorld(w.meetsWork) == w
    ensures var g := SampleGenesis(w, TESTNET);
            && InitGenesis(w, TESTNET, EMPTY, 0, 0).0 == Ok(g)
            && g.header.height == 0 && g.header.nonce == 0 && g.header.prev == ZERO && g.header.bits == 20
            && Replay(w, TESTNET, [g]) == Ok(map[GENESIS_OUT := GenesisEntry(TESTNET)]) && Reward(TESTNET, 0) > 1
            && g.txs == [CoinbaseTx(w, 0, Reward(TESTNET, 0), "genesis")]
  {
    assert AnyWork(SampleGenesis(w, TESTNET).header, ZERO);
    GenesisFacts(AnyWork, TESTNET);
    EasyFollowsBits([]);
    assert Reward(TESTNET, 0) > 1;
    GenesisSet(w, TESTNET);
    hide Reward, RequiredBits;
  }

  lemma PayerShape(w: World)
    requires w == SampleWorld(AnyWork)
    ensures var ours, peer := Payer(w), Rival(w);
            && |ours| == 12 && |peer| == 14 && ours[0] == peer[0] == SampleGenesis(w, TESTNET)
            && Linked(w, ours) && Linked(w, peer)
            && (forall i :: 1 <= i < 12 ==> ours[i].txs == Paying(i))
            && (forall i :: 1 <= i < 14 ==> peer[i].txs == [PLAIN_COINBASE])
            && (forall i :: 0 <= i < 12 ==> ours[i].header.bits == 20)
            && (forall i :: 0 <= i < 14 ==> peer[i].header.bits == 20)
            && forall i, j :: 0 <= i < 12 && 1 <= j < 14 ==> w.BlockHash(ours[i]) != w.BlockHash(peer[j])
  {
    TestnetGenesis(w);
    hide Branch, SampleGenesis, SampleWorld, HashOf, Linked, Reward, Replay, CoinbaseTx, InitGenesis;
    BranchShape(w, TESTNET, 12, PAYER);
    BranchShape(w, TESTNET, 14, RIVAL);
    BranchesShare(w, TESTNET, 12, 14, PAYER, RIVAL);
    BranchesDiffer(w, TESTNET, 12, 14, PAYER, RIVAL);
  }

  lemma PaymentChecks(w: World, height: nat)
    requires w == SampleWorld(AnyWork) && height >= 10
    ensures var m := map[GENESIS_OUT := GenesisEntry(TESTNET)];
            && CheckTx(w, TESTNET, m, PAYMENT, height, {}).Ok? && ValidateTx(w, TESTNET, m, PAYMENT, height).Ok?
  {
    var m := map[GENESIS_OUT := GenesisEntry(TESTNET)];
    assert Reward(TESTNET, 0) > 1;
    hide Reward;
    var input := PAYMENT.inputs[0];
    var sigHash := w.SignatureHash(PAYMENT);
    assert CheckInput(w, TESTNET, m, input, sigHash, height, {}).None?;
    assert PAYMENT.inputs[1..] == [];
    var c := Claim({} + {GENESIS_OUT}, SatAdd(0, Reward(TESTNET, 0)));
    assert CheckInputs(w, TESTNET, m, [], sigHash, height, c) == Ok(c);
    assert CheckInputs(w, TESTNET, m, PAYMENT.inputs, sigHash, height, Claim({}, 0)) == Ok(c);
    assert OutputSum(PAYMENT.outputs) == 1 by { assert PAYMENT.outputs[..0] == []; }
  }

  lemma PayerReplays(w: World)
    requires w == SampleWorld(AnyWork)
    ensures Replay(w, TESTNET, Payer(w)).Ok?
    ensures Replay(w, TESTNET, Rival(w)) == Ok(map[GENESIS_OUT := GenesisEntry(TESTNET)])
  {
    TestnetGenesis(w);
    PayerShape(w);
    PaymentChecks(w, 11);
    var ours, peer := Payer(w), Rival(w);
    hide Branch, Payer, Rival, SampleGenesis, SampleWorld, HashOf, Linked, Reward, CoinbaseTx, InitGenesis, CheckTx,
         GenesisEntry;
    assert peer[..1] == [peer[0]];
    PlainReplay(w, TESTNET, peer);
    assert ours[..11][..1] == [ours[0]];
    PlainReplay(w, TESTNET, ours[..11]);
    LastPays(w, map[GENESIS_OUT := GenesisEntry(TESTNET)], ours[11]);
  }

  lemma LastPays(w: World, m: UtxoMap, b: Block)
    requires b.txs == [PLAIN_COINBASE, PAYMENT] && CheckTx(w, TESTNET, m, PAYMENT, b.header.height, {}).Ok?
    ensures ApplyBlock(w, TESTNET, m, b).Ok?
  {
    hide CheckTx;
    assert b.txs[1..] == [PAYMENT] && [PAYMENT][1..] == [];
    var c := CheckTx(w, TESTNET, m, PAYMENT, b.header.height, {}).value;
    assert CheckTxs(w, TESTNET, m, [], b.header.height, Claim(c.seen, SatAdd(0, c.sum))).Ok?;
  }

  lemma PayerLawful(past: Chain, i: nat)
    requires |past| < 10_000 && i < 12
    ensures Lawful(TESTNET, PAYER, past, 840, i)
  {
    EasyFollowsBits(past);
    hide RequiredBits;
    assert COINBASE_TAG <= PLAIN_COINBASE.payload;
  }

  lemma AnyMeetsGenesis(w: World, p: Params)
    requires w == SampleWorld(AnyWork) && p.WellFormed()
    ensures w.meetsWork(SampleGenesis(w, p).header, ZERO)
  {
    hide SampleGenesis;
  }

  lemma PayerHonest(w: World)
    requires w == SampleWorld(AnyWork)
    ensures Honest(w, TESTNET, Payer(w), 840) && Honest(w, TESTNET, Rival(w), 840)
    ensures Work(Payer(w)) == 12 * 0x10_0000 && Work(Rival(w)) == 14 * 0x10_0000
  {
    TestnetGenesis(w);
    PayerShape(w);
    var ours, peer := Branch(w, TESTNET, 12, PAYER), Branch(w, TESTNET, 14, RIVAL);
    assert Payer(w) == ours && Rival(w) == peer;
    assert U128_MAX >= 14 * 0x10_0000;
    hide *;
    AnyMeetsGenesis(w, TESTNET);
    PayerReplays(w);
    EasyWork(ours);
    EasyWork(peer);
    RivalPlan();
    EasyHonest(AnyWork, 14, RIVAL, 840);
    forall i | 1 <= i < 12 ensures Lawful(TESTNET, PAYER, ours[..i], 840, i) {
      PayerLawful(ours[..i], i);
    }
    BranchHonest(AnyWork, TESTNET, 12, PAYER, 840);
  }

  lemma RivalPlan()
    ensures RIVAL.bits == EasyBits && RIVAL.time == EveryMinute && RIVAL.txs == Plain
  {
  }

  lemma OwnSeedsAllMet(chain: Chain)
    ensures OwnSeedsMet(SampleWorld(AnyWork), chain)
  {
    var w := SampleWorld(AnyWork);
    assert forall h, seed :: w.meetsWork(h, seed);
    hide SampleWorld, SeedOn;
  }

  /** The peer outweighs us one block before its last. */
  lemma RivalMoves(w: World)
    requires w == SampleWorld(AnyWork)
    ensures var ours, peer := Payer(w), Rival(w);
            Shallow(ours, 0) && Heavy(ours, peer) && !SwitchesLast(ours, peer, 0) && Horizon(ours, peer) == |peer| == 14
  {
    PayerShape(w);
    PayerHonest(w);
    var ours, peer := Payer(w), Rival(w);
    hide Payer, Rival, Work, Honest, SampleGenesis, SampleWorld;
    EasyWork(peer[..13]);
    assert peer[..14] == peer;
  }

  /** The payment is on our chain and not on the peer's. */
  lemma PaymentOnOurs(w: World)
    requires w == SampleWorld(AnyWork)
    ensures OnChain(PAYMENT, Payer(w)) && !OnChain(PAYMENT, Rival(w)) && !PAYMENT.IsCoinbase()
  {
    TestnetGenesis(w);
    PayerShape(w);
    var ours, peer := Payer(w), Rival(w);
    hide Payer, Rival, SampleWorld, Linked, Replay, Reward, SampleGenesis, InitGenesis;
    assert ours[11].txs[1] == PAYMENT && ours[11] in ours;
    forall b | b in peer ensures PAYMENT !in b.txs {
      var j :| 0 <= j < 14 && peer[j] == b;
    }
  }

  lemma PayerOffer(w: World) returns (s: State, states: seq<State>, events: seq<Event>)
    requires w == SampleWorld(AnyWork)
    ensures TESTNET.WellFormed() && Offered(w, TESTNET, states, events, s, Payer(w), Rival(w), At(840), 0)
    ensures Closed(w, s.blocks) && s.metaTip.Some? && s.metaTip.value in s.blocks
    ensures StartSettled(Payer(w), Rival(w), 0)
  {
    hide *;
    TestnetGenesis(w);
    PayerShape(w);
    PayerHonest(w);
    OwnSeedsAllMet(Payer(w));
    s, states, events := OfferedBranch(w, TESTNET, Payer(w), Rival(w), 1, 840);
  }

  /** After `n` rounds the catch-up is on the peer's chain, and the payment is nowhere. */
  ghost predicate Loses(w: World, p: Params, s: State, peer: Chain, clock: Clock, n: nat, tx: Transaction)
    requires p.WellFormed()
  {
    && Inv(w, p, s) && peer != [] && CompletesIn(w, p, s, peer, clock, n)
    && var r := SyncAfter(w, p, s, peer, clock, n);
       r.Done? && r.s.disconnected == [] && !HasHome(tx, peer, r.s.disconnected)
  }

  /** So a node can reach, without any crash, a start from which catching up with an honest, taller, heavier peer loses
      a payment of its own chain, although it would still be valid on the peer's. */
  lemma PaymentLost()
    returns (w: World, s: State, states: seq<State>, events: seq<Event>, ours: Chain, peer: Chain, n: nat)
    ensures Offered(w, TESTNET, states, events, s, ours, peer, At(840), 0)
    ensures OnChain(PAYMENT, ours) && !PAYMENT.IsCoinbase() && Loses(w, TESTNET, s, peer, At(840), n, PAYMENT)
    ensures var set' := Replay(w, TESTNET, peer); set'.Ok? && ValidateTx(w, TESTNET, set'.value, PAYMENT, |peer|).Ok?
  {
    w := SampleWorld(AnyWork);
    ours, peer := Payer(w), Rival(w);
    hide *;
    PayerShape(w);
    s, states, events := PayerOffer(w);
    OfferedIs(w, TESTNET, states, events, s, ours, peer, At(840), 0);
    RivalMoves(w);
    MovesIs(ours, peer, 0);
    TurnsAllMet(ours, peer, 0, |peer|);
    SyncTheorem(w, TESTNET, s, peer, At(840), 0);
    n := CompletesWhen(w, TESTNET, s, peer, At(840));
    CatchUpLeaves(w, TESTNET, s, peer, At(840), 0, n);
    PaymentOnOurs(w);
    NothingLeft(w, ours, peer, 0, PAYMENT);
    LosesIs(w, TESTNET, s, peer, At(840), n, PAYMENT);
    PayerReplays(w);
    PaymentChecks(w, |peer|);
  }

  lemma NothingLeft(w: World, ours: Chain, peer: Chain, k: nat, tx: Transaction)
    requires k < |peer| && !SwitchesLast(ours, peer, k) && !OnChain(tx, peer)
    ensures LeftOver(w, ours, peer, k) == [] && !HasHome(tx, peer, [])
  {
    hide SwitchesLast, OnChain;
  }

  lemma LosesIs(w: World, p: Params, s: State, peer: Chain, clock: Clock, n: nat, tx: Transaction)
    requires p.WellFormed() && Inv(w, p, s) && peer != [] && CompletesIn(w, p, s, peer, clock, n)
    requires SyncAfter(w, p, s, peer, clock, n).Done? && SyncAfter(w, p, s, peer, clock, n).s.disconnected == []
    requires !HasHome(tx, peer, [])
    ensures Loses(w, p, s, peer, clock, n, tx)
  {
    hide Inv, SyncAfter, CompletesIn, HasHome;
  }

  // ---- A block stranded by a crash -------------------------------------------

  lemma CutFollows(w: World, p: Params, s: State, best: Chain, chain: Chain, now: nat, n: nat)
    requires p.WellFormed() && FollowsBest(w, p, s, best, chain, n) && n + 1 < |chain| && Honest(w, p, chain, now)
    requires Inv(w, p, s) && Closed(w, s.blocks) && Stores(w, p, s, chain[n + 1], now)
    ensures FollowsBest(w, p, CutShort(w, p, s, chain[n + 1], now), best, chain, n + 1)
  {
    var s' := CutShort(w, p, s, chain[n + 1], now);
    InSync(w, p, s, best, chain, n);
    CutShortGrows(w, p, s, chain[n + 1], now);
    KnowsNext(w, p, s.blocks, chain, now, n);
    assert s'.metaTip == s.metaTip && ChainTo(w, s'.blocks, s'.metaTip.value) == best;
    hide CutShort, Stores, Honest, Knows, ChainTo, AcceptedAt, OneGenesis, Replay, Index;
  }

  /** A crash strands the next block of an honest chain whenever that block would have made the chain outweigh ours. */
  lemma CutStrands(w: World, p: Params, s: State, best: Chain, chain: Chain, now: nat, n: nat)
    requires p.WellFormed() && FollowsBest(w, p, s, best, chain, n) && n + 1 < |chain| && Honest(w, p, chain, now)
    requires Inv(w, p, s) && Topped(w, p, s, {})
    requires MeetsOn(w, best, chain, n + 1) && Outweighs(chain[..n + 2], best)
    ensures var s' := CutShort(w, p, s, chain[n + 1], now);
            Inv(w, p, s') && !Topped(w, p, s', {}) && FollowsBest(w, p, s', best, chain, n + 1)
  {
    hide *;
    var b := chain[n + 1];
    InSync(w, p, s, best, chain, n);
    SubmitPeerBlock(w, p, s, best, chain, now, n, n + 1);
    HeavierIs(best, chain[..n + 2]);
    InSync(w, p, Submit(w, p, s, b, now).1, chain[..n + 2], chain, n + 1);
    TipMovesUpOnly(w, p, s, b, now);
    CrashStrands(w, p, s, b, now);
    CutFollows(w, p, s, best, chain, now, n);
  }

  lemma HeavierIs(best: Chain, chain: Chain)
    requires Outweighs(chain, best)
    ensures Heavier(best, chain) == chain && chain != best
  {
    hide ChainWork;
  }

  lemma CrashSteps(w: World, p: Params, s: State, b: Block, now: nat)
    requires p.WellFormed() && Inv(w, p, s)
    ensures Steps(w, p, s, Crash(b, now), CutShort(w, p, s, b, now))
  {
    hide Inv, CutShort;
  }

  /** Genesis and one or two plain blocks. */
  function Short(w: World, n: nat): Chain { Branch(w, TESTNET, n, RIVAL) }

  lemma ShortShape(w: World)
    requires w == SampleWorld(AnyWork)
    ensures TESTNET.WellFormed() && |Short(w, 2)| == 2 && |Short(w, 3)| == 3 && Short(w, 3)[..2] == Short(w, 2)
    ensures InitGenesis(w, TESTNET, EMPTY, 0, 0).0 == Ok(Short(w, 3)[0])
    ensures forall i :: 0 <= i < 3 ==> Short(w, 3)[i].header.bits == 20
  {
    TestnetGenesis(w);
    hide SampleGenesis, SampleWorld, HashOf, Linked, Reward, Replay, CoinbaseTx, InitGenesis, PlannedBlock;
    BranchShape(w, TESTNET, 3, RIVAL);
  }

  lemma ShortHonest(w: World)
    requires w == SampleWorld(AnyWork)
    ensures Honest(w, TESTNET, Short(w, 2), 180) && Honest(w, TESTNET, Short(w, 3), 180)
    ensures Work(Short(w, 3)) <= U128_MAX
  {
    ShortShape(w);
    TestnetGenesis(w);
    assert AnyWork(SampleGenesis(w, TESTNET).header, ZERO) && w.meetsWork == AnyWork;
    var two, three := Branch(w, TESTNET, 2, RIVAL), Branch(w, TESTNET, 3, RIVAL);
    assert Short(w, 2) == two && Short(w, 3) == three;
    hide Short, Branch, SampleGenesis, SampleWorld, Linked, Reward, CoinbaseTx, InitGenesis, Replay, RequiredBits,
         Honest, Work;
    assert forall i :: 0 <= i < 2 ==> two[i] == three[i];
    EasyWork(three);
    EasyWork(two);
    EasyHonest(AnyWork, 2, RIVAL, 180);
    EasyHonest(AnyWork, 3, RIVAL, 180);
  }

  lemma ShortFates(three: Chain)
    requires |three| == 3 && Work(three) <= U128_MAX
    ensures var ours, two := three[..1], three[..2];
            && Outweighs(two, ours) && After(ours, three, 0) == ours && Shallow(ours, 1)
            && !Moves(ours, two, 1) && Horizon(ours, two) == 2 && Moves(ours, three, 1)
  {
    hide ChainWork;
    WorkStrict(three, 1, 2);
    WorkStrict(three, 1, 3);
    assert three[..2][..2] == three[..2] && three[..3] == three;
  }

  lemma KnowsPrefix(w: World, blocks: Blocks, chain: Chain, n: nat)
    requires Knows(w, blocks, chain, n) && n + 1 <= |chain|
    ensures Knows(w, blocks, chain[..n + 1], n)
  {
  }

  lemma StartMeets(w: World, p: Params, s: State, best: Chain, peer: Chain, now: nat, k: nat)
    requires p.WellFormed() && FollowsBest(w, p, s, best, peer, k) && |best| < |peer| && Honest(w, p, peer, now)
    ensures Meets(w, p, s, peer, At(now), k)
  {
    HonestStill(w, p, peer, now);
    hide Honest, HonestBy, Inv;
  }

  lemma FollowsPrefix(w: World, p: Params, s: State, best: Chain, chain: Chain, n: nat)
    requires p.WellFormed() && FollowsBest(w, p, s, best, chain, n)
    ensures n < |chain| && FollowsBest(w, p, s, best, chain[..n + 1], n)
  {
    KnowsPrefix(w, s.blocks, chain, n);
    hide Inv;
  }

  /** A node that has its first block cut short by a crash. */
  lemma ShortCut(w: World) returns (states: seq<State>, b: Block)
    requires w == SampleWorld(AnyWork)
    ensures TESTNET.WellFormed() && |states| == 3 && |Short(w, 3)| == 3 && b == Short(w, 3)[1]
    ensures Run(w, TESTNET, states, [Genesis(0, 0), Crash(b, 180)])
    ensures Inv(w, TESTNET, states[2]) && !Topped(w, TESTNET, states[2], {})
    ensures FollowsBest(w, TESTNET, states[2], Short(w, 3)[..1], Short(w, 3), 1)
  {
    hide *;
    ShortShape(w);
    ShortHonest(w);
    var three := Short(w, 3);
    b := three[1];
    ShortFates(three);
    GenesisHolds(w, TESTNET, three, 180, 0, 0);
    GenesisRun(w, TESTNET, 0, 0);
    var s := InitGenesis(w, TESTNET, EMPTY, 0, 0).1;
    SyncInvIs(w, TESTNET, s, three[..1], three, 0);
    RunHeaviest(w, TESTNET, [EMPTY, s], [Genesis(0, 0)], 1);
    AnyMeets(w, three[..1], three, 1);
    CutStrands(w, TESTNET, s, three[..1], three, 180, 0);
    CrashSteps(w, TESTNET, s, b, 180);
    var s' := CutShort(w, TESTNET, s, b, 180);
    RunExtends(w, TESTNET, [EMPTY, s], [Genesis(0, 0)], Crash(b, 180), s');
    states := [EMPTY, s, s'];
    assert [EMPTY, s] + [s'] == states && [Genesis(0, 0)] + [Crash(b, 180)] == [Genesis(0, 0), Crash(b, 180)];
  }

  lemma AnyMeets(w: World, best: Chain, peer: Chain, i: nat)
    requires w == SampleWorld(AnyWork) && i < |peer|
    ensures MeetsOn(w, best, peer, i)
  {
    assert forall h, seed :: w.meetsWork(h, seed);
    hide SeedOn, SampleWorld;
  }

  /** One crash leaves a node, on genesis alone, with a heavier chain stored: catching up with the peer that has just
      that chain never ends, and catching up with the same peer one block later completes. */
  lemma CrashStarves()
    returns (w: World, s: State, states: seq<State>, b: Block, two: Chain, three: Chain)
    ensures TESTNET.WellFormed() && |states| == 3 && states[2] == s
    ensures Run(w, TESTNET, states, [Genesis(0, 0), Crash(b, 180)])
    ensures |three| == 3 && two == three[..2] && b == two[1]
    ensures Inv(w, TESTNET, s) && !Topped(w, TESTNET, s, {})
    ensures Meets(w, TESTNET, s, two, At(180), 1) && NeverEnds(w, TESTNET, s, two, At(180))
    ensures Meets(w, TESTNET, s, three, At(180), 1) && Completes(w, TESTNET, s, three, At(180))
  {
    hide *;
    w := SampleWorld(AnyWork);
    two, three := Short(w, 2), Short(w, 3);
    ShortShape(w);
    ShortHonest(w);
    ShortFates(three);
    states, b := ShortCut(w);
    s := states[2];
    var ours := three[..1];
    InSync(w, TESTNET, s, ours, three, 1);
    FollowsPrefix(w, TESTNET, s, ours, three, 1);
    StartMeets(w, TESTNET, s, ours, two, 180, 1);
    StartMeets(w, TESTNET, s, ours, three, 180, 1);
    TurnsAllMet(ours, two, 1, 2);
    TurnsAllMet(ours, three, 1, 3);
    SyncTheorem(w, TESTNET, s, two, At(180), 1);
    SyncTheorem(w, TESTNET, s, three, At(180), 1);
    EndIs(w, TESTNET, s, two, At(180));
  }

  // ---- A subsidy overwritten -------------------------------------------------

  const AGAIN: Transaction := Transaction(ZERO, [], [TxOutput(MAINNET.initialReward, [])], COINBASE_TAG)

  /** Block 1 pays its subsidy by a coinbase with the id of genesis's. */
  function Repeating(i: nat): seq<Transaction> { [AGAIN] }

  const REPEATER: Plan := Plan(1, 1, SteadyBits, EveryMinute, Repeating)

  function Repeater(w: World): Chain { Branch(w, MAINNET, 2, REPEATER) }

  lemma FirstRewards()
    ensures Reward(MAINNET, 0) == Reward(MAINNET, 1) == MAINNET.initialReward > 0
    ensures SupplyBound(MAINNET, 1) == MAINNET.initialReward && SupplyBound(MAINNET, 2) == 2 * MAINNET.initialReward
  {
    assert RewardSum(MAINNET, 0) == 0;
    assert RewardSum(MAINNET, 1) == Reward(MAINNET, 0);
  }

  lemma TotalOne(op: OutPoint, e: UtxoEntry)
    ensures Total(map[op := e]) == e.output.value
  {
    TotalPick(map[op := e], op);
    assert map[op := e] - {op} == map[];
  }

  lemma RepeaterShape(w: World)
    requires w == SampleWorld(AnyWork)
    ensures MAINNET.WellFormed() && SampleWorld(w.meetsWork) == w && w.meetsWork == AnyWork
    ensures w.meetsWork(SampleGenesis(w, MAINNET).header, ZERO)
    ensures var chain := Repeater(w);
            && |chain| == 2 && chain[..1] == [SampleGenesis(w, MAINNET)] && Linked(w, chain)
            && InitGenesis(w, MAINNET, EMPTY, 0, 0).0 == Ok(chain[0])
            && chain[1].txs == [AGAIN] && chain[0].header.bits == chain[1].header.bits == 42
            && chain[1].header.height == 1 && HeightsAreIndices(chain)
            && Replay(w, MAINNET, chain[..1]) == Ok(map[GENESIS_OUT := GenesisEntry(MAINNET)])
  {
    assert AnyWork(SampleGenesis(w, MAINNET).header, ZERO);
    GenesisFacts(AnyWork, MAINNET);
    EarlyBits([]);
    FirstRewards();
    GenesisSet(w, MAINNET);
    hide Reward, RequiredBits, SampleGenesis, InitGenesis, Replay, Branch, SampleWorld, HashOf;
    BranchShape(w, MAINNET, 2, REPEATER);
    assert Repeater(w)[..1][0] == Repeater(w)[0];
  }

  lemma RepeaterReplays(w: World)
    requires w == SampleWorld(AnyWork)
    ensures var chain := Repeater(w);
            && |chain| == 2
            && Replay(w, MAINNET, chain[..1]) == Ok(map[GENESIS_OUT := GenesisEntry(MAINNET)])
            && Replay(w, MAINNET, chain)
            == Ok(map[GENESIS_OUT := UtxoEntry(TxOutput(MAINNET.initialReward, []), 1, true)])
  {
    RepeaterShape(w);
    FirstRewards();
    var chain := Repeater(w);
    var was, entry := GenesisEntry(MAINNET), UtxoEntry(TxOutput(MAINNET.initialReward, []), 1, true);
    hide Repeater, Reward, SampleGenesis, InitGenesis, SampleWorld, Linked, GenesisEntry;
    OneOutput(w, MAINNET, map[GENESIS_OUT := was], chain[1], AGAIN, TxOutput(MAINNET.initialReward, []));
    assert map[GENESIS_OUT := was][GENESIS_OUT := entry] == map[GENESIS_OUT := entry];
    assert chain[..|chain| - 1] == chain[..1];
  }

  lemma RepeaterHonest(w: World)
    requires w == SampleWorld(AnyWork)
    ensures |Repeater(w)| == 2 && Honest(w, MAINNET, Repeater(w), 60)
  {
    RepeaterShape(w);
    RepeaterReplays(w);
    var chain := Repeater(w);
    assert chain == Branch(w, MAINNET, 2, REPEATER);
    PowersAt42();
    hide Repeater, Branch, SampleGenesis, InitGenesis, SampleWorld, Linked, Replay, RequiredBits, Honest, Work, Pow2;
    assert chain[..2] == chain;
    WorkTo(chain, 1);
    WorkTo(chain, 2);
    EarlyBits(chain[..1]);
    assert COINBASE_TAG <= AGAIN.payload;
    BranchHonest(AnyWork, MAINNET, 2, REPEATER, 60);
  }

  lemma OverwritesOne(m: UtxoMap, b: Block, e: UtxoEntry)
    requires b.txs == [AGAIN] && m == map[GENESIS_OUT := e]
    ensures SpentBy(b.txs[1..]) == {} && LostBy(m, b.txs, b.header.height) == e.output.value
  {
    var h := b.header.height;
    assert b.txs[1..] == [] && b.txs[..0] == [];
    assert AddTxs(m, [], h) == m && LostBy(m, [], h) == 0;
    assert AddOutputs(m, AGAIN, h, 0) == m && Lost(m, AGAIN, h, 0) == 0;
  }

  /** Value is lost below the schedule: transaction ids are not recomputed, so a MAINNET node can reach, without any
      crash, a chain on which two coinbases that share an id and claim their whole subsidies leave one entry where there
      were two. */
  lemma CoinbaseOverwritten()
    returns (w: World, s: State, states: seq<State>, events: seq<Event>, chain: Chain)
    ensures Reachable(w, MAINNET, states, events, s) && Inv(w, MAINNET, s) && Closed(w, s.blocks)
    ensures s.metaTip.Some? && s.metaTip.value in s.blocks && Best(w, s) == chain
    ensures HeightsAreIndices(chain) && |chain| == 2
    ensures var first := Replay(w, MAINNET, chain[..1]);
            && first.Ok? && Total(first.value) == SupplyBound(MAINNET, 1)
            && chain[1].txs != [] && SpentBy(chain[1].txs[1..]) == {}
            && LostBy(first.value, chain[1].txs, 1) == Reward(MAINNET, 0)
    ensures var last := Replay(w, MAINNET, chain);
            last.Ok? && Total(last.value) == Reward(MAINNET, 1) < SupplyBound(MAINNET, 2)
  {
    w := SampleWorld(AnyWork);
    chain := Repeater(w);
    hide *;
    RepeaterShape(w);
    RepeaterReplays(w);
    RepeaterHonest(w);
    OwnSeedsAllMet(chain);
    FirstRewards();
    states, events := Followed(w, MAINNET, chain, 60, 0, 0);
    s := states[2];
    ReachableIs(w, MAINNET, states, events, s);
    GenesisEntryIs();
    OverwritesOne(map[GENESIS_OUT := GenesisEntry(MAINNET)], chain[1], GenesisEntry(MAINNET));
    TotalOne(GENESIS_OUT, GenesisEntry(MAINNET));
    TotalOne(GENESIS_OUT, UtxoEntry(TxOutput(MAINNET.initialReward, []), 1, true));
  }

  lemma GenesisEntryIs()
    ensures GenesisEntry(MAINNET).output.value == Reward(MAINNET, 0)
  {
  }

  lemma ReachableIs(w: World, p: Params, states: seq<State>, events: seq<Event>, s: State)
    requires p.WellFormed() && Run(w, p, states, events) && states != [] && states[|states| - 1] == s
    requires forall j :: 0 <= j < |events| ==> !events[j].Crash?
    ensures Reachable(w, p, states, events, s)
  {
    hide Run;
  }
}
