/** First download of an honest chain, and reachable starts from which catching up goes wrong. */
module PeerExamples {
  import opened Prelude
  import opened Types
  import opened Emission
  import opened Utxo
  import opened Validation
  import opened Store
  import opened Difficulty
  import opened ForkChoice
  import opened Consensus
  import opened Runs
  import opened Sync
  import opened SyncFate
  import opened ChainExamples

  /** A node that holds nothing but the shared genesis completes its download of any honest chain whose blocks meet
      their targets on their own branch, however many epochs long, and counts each of its blocks once. */
  lemma FirstDownload(w: World, p: Params, s: State, peer: Chain, clock: Clock)
    requires p.WellFormed() && Meets(w, p, s, peer, clock, 0) && Best(w, s) == peer[..1] && OwnSeedsMet(w, peer)
    ensures Completes(w, p, s, peer, clock)
    ensures forall n :: CompletesIn(w, p, s, peer, clock, n) ==>
              var r := SyncAfter(w, p, s, peer, clock, n); r.Done? && r.synced == |peer| - 1
  {
    hide *;
    StartsHere(w, p, s, peer, clock, 0);
    SyncTheorem(w, p, s, peer, clock, 0);
    FreshSeeds(w, peer, |peer|);
    FreshMoves(peer);
    SettledTurns(w, peer[..1], peer, 0, |peer|);
    SettledStart(w, p, s, peer, clock, 0);
    forall n: nat | CompletesIn(w, p, s, peer, clock, n)
      ensures var r := SyncAfter(w, p, s, peer, clock, n); r.Done? && r.synced == |peer| - 1
    {
      SyncAfterIs(w, p, s, peer, clock, n);
      StartIs(s);
      DownloadCounts(w, p, Start(s), peer, clock, 0, n);
    }
  }

  /** Along a first download the loop stands one above what it holds, and has counted that. */
  lemma DownloadRound(w: World, p: Params, c: Cursor, peer: Chain, clock: Clock, k: nat)
    requires |peer| > 1 && Work(peer) <= U128_MAX && c.from == k + 1 && c.synced == k
    requires p.WellFormed() && CursorInv(w, p, c, peer[..1], peer, k) && HonestBy(w, p, peer, clock)
    ensures Inv(w, p, c.s) && k < |peer|
    ensures var r, k' := Round(w, p, c, peer, |peer| - 1, clock), NextKnown(c.from, k, peer);
            && (r.Done? ==> r.synced == |peer| - 1)
            && (r.Continue? ==>
                  k' < |peer| && CursorInv(w, p, r.cursor, peer[..1], peer, k') && r.cursor.from == k' + 1
                  && r.cursor.synced == k')
  {
    hide *;
    var ours := peer[..1];
    UnfoldCursor(w, p, c, ours, peer, k);
    RefusesIs(w, c.from, ours, peer, k);
    RoundStep(w, p, c, ours, peer, clock, k);
    var r := Round(w, p, c, peer, |peer| - 1, clock);
    if !r.Aborted? {
      MoveOn(c.from, c.backtrack, ours, peer, k);
      var hi, k' := BatchEnd(c.from, peer), NextKnown(c.from, k, peer);
      BatchTaken(w, p, c.s, ours, peer, clock, c.tick, k, c.from);
      FetchIs(peer, c.from);
      BatchApplies(w, p, c.s, ours, peer, clock, c.tick, k, c.from, c.from, hi, 0);
      RoundOnApply(w, p, c, peer, |peer| - 1, clock);
      FreshAfter(peer, k');
    }
  }

  lemma FreshAfter(peer: Chain, k: nat)
    requires 1 <= k < |peer| && Work(peer) <= U128_MAX
    ensures After(peer[..1], peer, k) == peer[..k + 1] && |After(peer[..1], peer, k)| == k + 1
  {
    hide ChainWork;
    WorkStrict(peer, 1, k + 1);
  }

  lemma {:induction false} DownloadCounts(w: World, p: Params, c: Cursor, peer: Chain, clock: Clock, k: nat, n: nat)
    requires |peer| > 1 && Work(peer) <= U128_MAX && c.from == k + 1 && c.synced == k
    requires p.WellFormed() && CursorInv(w, p, c, peer[..1], peer, k) && HonestBy(w, p, peer, clock)
    ensures Inv(w, p, c.s)
    ensures var r := Rounds(w, p, c, peer, |peer| - 1, clock, n); r.Done? ==> r.synced == |peer| - 1
    decreases n
  {
    hide *;
    DownloadRound(w, p, c, peer, clock, k);
    RoundsUnfold(w, p, c, peer, |peer| - 1, clock, n);
    var r := Round(w, p, c, peer, |peer| - 1, clock);
    if n > 0 && r.Continue? {
      DownloadCounts(w, p, r.cursor, peer, clock, NextKnown(c.from, k, peer), n - 1);
    }
  }

  lemma FreshMoves(peer: Chain)
    requires |peer| > 1 && Work(peer) <= U128_MAX
    ensures Shallow(peer[..1], 0) && Moves(peer[..1], peer, 0) && After(peer[..1], peer, 0) == peer[..1]
    ensures StartSettled(peer[..1], peer, 0) && |peer[..1]| == 1
  {
    hide ChainWork;
    WorkStrict(peer, 1, Horizon(peer[..1], peer));
  }

  /** The loop, offered the peer's chain in `s`, ends with an error. */
  ghost predicate GivesUp(w: World, p: Params, s: State, peer: Chain, clock: Clock)
    requires p.WellFormed()
  {
    Inv(w, p, s) && peer != [] && Aborts(w, p, s, peer, clock)
  }

  /** It never ends. */
  ghost predicate NeverEnds(w: World, p: Params, s: State, peer: Chain, clock: Clock)
    requires p.WellFormed()
  {
    Inv(w, p, s) && peer != [] && forall n :: SyncAfter(w, p, s, peer, clock, n).Continue?
  }

  lemma EndIs(w: World, p: Params, s: State, peer: Chain, clock: Clock)
    requires p.WellFormed() && Inv(w, p, s) && peer != []
    ensures GivesUp(w, p, s, peer, clock) <==> Aborts(w, p, s, peer, clock)
    ensures NeverEnds(w, p, s, peer, clock) <==> forall n :: SyncAfter(w, p, s, peer, clock, n).Continue?
  {
    hide Inv, Aborts, SyncAfter;
  }

  // ---- A taller, lighter peer ------------------------------------------------

  function HurriedBits(i: nat): u8 { if i < 4 then 42 else if i == 4 then 43 else 44 }

  function SteadyBits(i: nat): u8 { 42 }

  function AtOnce(i: nat): nat { 0 }

  function EveryMinute(i: nat): nat { 60 * i }

  const HURRIED: Plan := Plan(1, 1, HurriedBits, AtOnce, Plain)
  const STEADY: Plan := Plan(1, 2, SteadyBits, EveryMinute, Plain)

  function Hurried(w: World): Chain { Branch(w, MAINNET, 6, HURRIED) }

  function Steady(w: World): Chain { Branch(w, MAINNET, 7, STEADY) }

  predicate AnyWork(h: BlockHeader, seed: Hash256) { true }

  lemma HurriedShape(w: World)
    requires SampleGenesis(w, MAINNET).header.bits == 42
    ensures |Hurried(w)| == 6
    ensures forall i :: 0 <= i < 6 ==> Hurried(w)[i].header.bits == HurriedBits(i)
    ensures forall i :: 1 <= i < 6 ==> Hurried(w)[i].header.height == i && Hurried(w)[i].header.timestamp == 0
  {
    hide SampleGenesis, HashOf, HurriedBits;
    forall i | 1 <= i < 6 ensures Hurried(w)[i] == PlannedBlock(MAINNET, i, HURRIED) {
    }
    FirstBits();
  }

  lemma FirstBits()
    ensures HurriedBits(0) == 42
  {
  }

  lemma SteadyShape(w: World)
    requires SampleGenesis(w, MAINNET).header.bits == 42
    ensures |Steady(w)| == 7
    ensures forall i :: 0 <= i < 7 ==> Steady(w)[i].header.bits == 42
    ensures forall i :: 1 <= i < 7 ==> Steady(w)[i].header.height == i && Steady(w)[i].header.timestamp == 60 * i
  {
    hide SampleGenesis, HashOf;
    forall i | 1 <= i < 7 ensures Steady(w)[i] == PlannedBlock(MAINNET, i, STEADY) {
    }
  }

  /** Six blocks at one instant, ever harder, have more work than seven at the target pace. */
  lemma HurriedWorks(w: World)
    requires SampleGenesis(w, MAINNET).header.bits == 42
    ensures Work(Hurried(w)) == 10 * Pow2(42) && Work(Steady(w)) == 7 * Pow2(42) && Pow2(42) == 0x400_0000_0000
  {
    hide Work, Pow2, Hurried, Steady, SampleGenesis;
    HurriedShape(w);
    SteadyShape(w);
    PowersAt42();
    var ours, peer := Hurried(w), Steady(w);
    assert ours[..6] == ours && peer[..7] == peer;
    WorkTo(ours, 6); WorkTo(ours, 5); WorkTo(ours, 4); WorkTo(ours, 3); WorkTo(ours, 2); WorkTo(ours, 1);
    WorkTo(peer, 7); WorkTo(peer, 6); WorkTo(peer, 5); WorkTo(peer, 4); WorkTo(peer, 3); WorkTo(peer, 2);
    WorkTo(peer, 1);
  }

  lemma PowersAt42()
    ensures Pow2(42) == 0x400_0000_0000 && Pow2(43) == 2 * Pow2(42) && Pow2(44) == 4 * Pow2(42)
  {
    assert Pow2(14) == 0x4000 && Pow2(28) == 0x1000_0000;
  }

  lemma WorkTo(chain: Chain, n: pos)
    requires n <= |chain|
    ensures Work(chain[..n]) == Work(chain[..n - 1]) + Pow2(chain[n - 1].header.bits)
    ensures Work(chain[..0]) == 0
  {
    assert chain[..n][..n - 1] == chain[..n - 1];
  }

  lemma EarlySample(past: Chain)
    requires 4 <= |past| < 62
    ensures var first, last := past[2].header, past[|past| - 1].header;
            SampleFor(MAINNET, past)
              == Some(Sample(first.timestamp, last.timestamp, last.bits, SatSub(last.height, first.height) + 1))
  {
    assert EpochOf(MAINNET, |past|) == 0;
  }

  lemma EarlyBits(past: Chain)
    requires |past| < 4
    ensures RequiredBits(MAINNET, past) == 42
  {
    if |past| >= 2 { assert EpochOf(MAINNET, |past|) == 0; }
  }

  lemma HurriedFollowsBits(w: World, i: nat)
    requires SampleGenesis(w, MAINNET).header.bits == 42 && 1 <= i < 6
    ensures |Hurried(w)| == 6 && RequiredBits(MAINNET, Hurried(w)[..i]) == HurriedBits(i)
  {
    HurriedShape(w);
    hide Hurried, SampleGenesis, SampleFor, EpochOf;
    var past := Hurried(w)[..i];
    if i < 4 {
      EarlyBits(past);
    } else {
      EarlySample(past);
      assert SatMul(60, 2) == 120 && SatMul(60, 3) == 180;
    }
  }

  lemma SteadyFollowsBits(w: World, i: nat)
    requires SampleGenesis(w, MAINNET).header.bits == 42 && 1 <= i < 7
    ensures |Steady(w)| == 7 && RequiredBits(MAINNET, Steady(w)[..i]) == 42
  {
    SteadyShape(w);
    hide Steady, SampleGenesis, SampleFor, EpochOf;
    var past := Steady(w)[..i];
    if i < 4 {
      EarlyBits(past);
    } else {
      EarlySample(past);
      assert SatMul(60, 2) == 120 && SatMul(60, 3) == 180 && SatMul(60, 4) == 240;
    }
  }

  lemma HurriedHonest()
    ensures var w := SampleWorld(AnyWork);
            && SampleGenesis(w, MAINNET).header.bits == 42
            && Honest(w, MAINNET, Hurried(w), 0) && OwnSeedsMet(w, Hurried(w))
            && Honest(w, MAINNET, Steady(w), 0) && OwnSeedsMet(w, Steady(w))
            && InitGenesis(w, MAINNET, EMPTY, 0, 0).0 == Ok(SampleGenesis(w, MAINNET)) && MAINNET.WellFormed()
  {
    var w := SampleWorld(AnyWork);
    var ours, peer := Hurried(w), Steady(w);
    assert forall h, seed :: w.meetsWork(h, seed);
    GenesisFacts(AnyWork, MAINNET);
    EarlyBits([]);
    assert U128_MAX >= 10 * 0x400_0000_0000 && MAINNET.WellFormed();
    hide SampleGenesis, RequiredBits, Work, Honest, SampleWorld, Hurried, Steady, SeedOn;
    HurriedWorks(w);
    HurriedIs(w);
    PlainBranch(AnyWork, MAINNET, 6, HURRIED);
    PlainBranch(AnyWork, MAINNET, 7, STEADY);
    forall i | 1 <= i < 6 ensures Lawful(MAINNET, HURRIED, ours[..i], 0, i) {
      HurriedFollowsBits(w, i);
      PlainIs(MAINNET, HURRIED, ours[..i], 0, i);
    }
    forall i | 1 <= i < 7 ensures Lawful(MAINNET, STEADY, peer[..i], 0, i) {
      SteadyFollowsBits(w, i);
      PlainIs(MAINNET, STEADY, peer[..i], 0, i);
    }
    BranchHonest(AnyWork, MAINNET, 6, HURRIED, 0);
    BranchHonest(AnyWork, MAINNET, 7, STEADY, 0);
  }

  lemma HurriedIs(w: World)
    requires w == SampleWorld(AnyWork)
    ensures var ours, peer := Hurried(w), Steady(w);
            && ours == Branch(w, MAINNET, 6, HURRIED) && peer == Branch(w, MAINNET, 7, STEADY)
            && |ours| == 6 && |peer| == 7 && ours[0] == peer[0] == SampleGenesis(w, MAINNET)
            && forall i, j :: 0 <= i < 6 && 1 <= j < 7 ==> w.BlockHash(ours[i]) != w.BlockHash(peer[j])
  {
    GenesisFacts(AnyWork, MAINNET);
    hide Branch, SampleGenesis, SampleWorld;
    assert SampleWorld(w.meetsWork) == w;
    BranchesShare(w, MAINNET, 6, 7, HURRIED, STEADY);
    BranchesDiffer(w, MAINNET, 6, 7, HURRIED, STEADY);
  }

  lemma LightAndShallow(w: World)
    requires SampleGenesis(w, MAINNET).header.bits == 42
    ensures Shallow(Hurried(w), 0) && !Heavy(Hurried(w), Steady(w))
    ensures Horizon(Hurried(w), Steady(w)) == |Steady(w)| == 7
  {
    HurriedWorks(w);
    SteadyShape(w);
    HurriedShape(w);
    hide Work, Hurried, Steady, SampleGenesis;
    assert Steady(w)[..7] == Steady(w);
  }

  lemma OfferedIs(w: World, p: Params, states: seq<State>, events: seq<Event>, s: State,
                  ours: Chain, peer: Chain, clock: Clock, k: nat)
    requires p.WellFormed() && Offered(w, p, states, events, s, ours, peer, clock, k)
    ensures Meets(w, p, s, peer, clock, k) && Inv(w, p, s) && Closed(w, s.blocks) && peer != []
    ensures s.metaTip.Some? && s.metaTip.value in s.blocks && Best(w, s) == ours && Reachable(w, p, states, events, s)
  {
    assert s.metaTip.value in s.blocks;
    hide Inv, HonestBy, Topped, Reachable, Outweighs;
  }

  /** So a node can reach, without any crash, a start from which catching up with an honest, taller peer never ends. */
  lemma LighterPeerNeverEnds()
    returns (w: World, s: State, states: seq<State>, events: seq<Event>, ours: Chain, peer: Chain)
    ensures |ours| < |peer| && Shallow(ours, 0) && !Heavy(ours, peer) && OwnSeedsMet(w, peer)
    ensures NeverEnds(w, MAINNET, s, peer, At(0))
    ensures Offered(w, MAINNET, states, events, s, ours, peer, At(0), 0)
  {
    w, ours, peer := SampleWorld(AnyWork), Hurried(SampleWorld(AnyWork)), Steady(SampleWorld(AnyWork));
    hide *;
    HurriedHonest();
    HurriedIs(w);
    LightAndShallow(w);
    s, states, events := OfferedBranch(w, MAINNET, ours, peer, 1, 0);
    OfferedIs(w, MAINNET, states, events, s, ours, peer, At(0), 0);
    TurnsAllMet(ours, peer, 0, Horizon(ours, peer));
    MovesIs(ours, peer, 0);
    SyncTheorem(w, MAINNET, s, peer, At(0), 0);
    EndIs(w, MAINNET, s, peer, At(0));
  }

  lemma TurnsAllMet(ours: Chain, peer: Chain, k: nat, n: nat)
    requires n <= |peer|
    ensures TurnsMet(SampleWorld(AnyWork), ours, peer, k, n)
  {
    var w := SampleWorld(AnyWork);
    assert forall h, seed :: w.meetsWork(h, seed);
    hide SampleWorld, SeedOn, After;
  }

  // ---- A fork across an epoch boundary ---------------------------------------

  function EasyBits(i: nat): u8 { 20 }

  /** Our chain's last block is the one that seeds the second epoch, and the peer's chain forks just there. */
  const LAST_OF_EPOCH: Plan := Plan(8191, 1, EasyBits, EveryMinute, Plain)
  const ACROSS_EPOCH: Plan := Plan(8191, 2, EasyBits, EveryMinute, Plain)

  function LastOfEpoch(w: World): Chain { Branch(w, TESTNET, 8192, LAST_OF_EPOCH) }

  function AcrossEpoch(w: World): Chain { Branch(w, TESTNET, 8194, ACROSS_EPOCH) }

  /** Work is found under every seed but our own branch's. */
  predicate NotUnderOurs(h: BlockHeader, seed: Hash256) { seed != HashOf(8191, 1) }

  lemma {:induction false} EasyWork(chain: Chain)
    requires forall i :: 0 <= i < |chain| ==> chain[i].header.bits == 20
    ensures Work(chain) == |chain| * 0x10_0000
  {
    if chain != [] {
      EasyWork(chain[..|chain| - 1]);
      assert Pow2(10) == 0x400;
      assert Pow2(20) == 0x10_0000;
    }
  }

  lemma EasyFollowsBits(past: Chain)
    requires |past| < 10_000
    ensures RequiredBits(TESTNET, past) == 20
  {
    hide SampleFor;
  }

  /** A plain branch at the TESTNET bits, a block a minute, is honest. */
  lemma EasyHonest(meets: (BlockHeader, Hash256) -> bool, n: pos, plan: Plan, now: nat)
    requires n < 10_000 && now >= 60 * n && plan.bits == EasyBits && plan.time == EveryMinute && plan.txs == Plain
    requires var w := SampleWorld(meets); w.meetsWork(SampleGenesis(w, TESTNET).header, ZERO)
    requires var chain := Branch(SampleWorld(meets), TESTNET, n, plan); |chain| == n && Work(chain) <= U128_MAX
    ensures Honest(SampleWorld(meets), TESTNET, Branch(SampleWorld(meets), TESTNET, n, plan), now)
  {
    var chain := Branch(SampleWorld(meets), TESTNET, n, plan);
    hide SampleGenesis, SampleWorld, RequiredBits, Work, Honest, Branch;
    PlainBranch(meets, TESTNET, n, plan);
    forall i | 1 <= i < n ensures Lawful(TESTNET, plan, chain[..i], now, i) {
      EasyFollowsBits(chain[..i]);
      PlainIs(TESTNET, plan, chain[..i], now, i);
    }
    BranchHonest(meets, TESTNET, n, plan, now);
  }

  lemma EpochShape(w: World)
    requires w == SampleWorld(NotUnderOurs) && SampleGenesis(w, TESTNET).header.bits == 20
    requires InitGenesis(w, TESTNET, EMPTY, 0, 0).0 == Ok(SampleGenesis(w, TESTNET))
    requires var g := SampleGenesis(w, TESTNET).header; g.height == 0 && g.nonce == 0 && g.prev == ZERO
    ensures var ours, peer := LastOfEpoch(w), AcrossEpoch(w);
            && |ours| == 8192 && |peer| == 8194 && ours[0] == SampleGenesis(w, TESTNET)
            && (forall i :: 0 <= i < 8191 ==> ours[i] == peer[i])
            && (forall i, j :: 0 <= i < 8192 && 8191 <= j < 8194 ==> w.BlockHash(ours[i]) != w.BlockHash(peer[j]))
            && w.BlockHash(ours[8191]) == HashOf(8191, 1) && w.BlockHash(peer[8191]) == HashOf(8191, 2)
            && (forall i :: 0 <= i < 8192 ==> ours[i].header.bits == 20)
            && (forall i :: 0 <= i < 8194 ==> peer[i].header.bits == 20)
  {
    assert SampleWorld(w.meetsWork) == w;
    hide Branch, SampleGenesis, SampleWorld, HashOf, Linked;
    BranchesShare(w, TESTNET, 8192, 8194, LAST_OF_EPOCH, ACROSS_EPOCH);
    BranchesDiffer(w, TESTNET, 8192, 8194, LAST_OF_EPOCH, ACROSS_EPOCH);
    BranchShape(w, TESTNET, 8192, LAST_OF_EPOCH);
    BranchShape(w, TESTNET, 8194, ACROSS_EPOCH);
  }

  lemma EpochHonest(w: World, now: nat)
    requires w == SampleWorld(NotUnderOurs) && now >= 60 * 8194
    ensures TESTNET.WellFormed() && SampleGenesis(w, TESTNET).header.bits == 20
    ensures InitGenesis(w, TESTNET, EMPTY, 0, 0).0 == Ok(SampleGenesis(w, TESTNET))
    ensures var g := SampleGenesis(w, TESTNET).header; g.height == 0 && g.nonce == 0 && g.prev == ZERO
    ensures Honest(w, TESTNET, LastOfEpoch(w), now) && Honest(w, TESTNET, AcrossEpoch(w), now)
    ensures Work(LastOfEpoch(w)) == 8192 * 0x10_0000 && Work(AcrossEpoch(w)) == 8194 * 0x10_0000
  {
    var ours, peer := LastOfEpoch(w), AcrossEpoch(w);
    assert NotUnderOurs(SampleGenesis(w, TESTNET).header, ZERO);
    EasyFollowsBits([]);
    GenesisFacts(NotUnderOurs, TESTNET);
    hide SampleGenesis, RequiredBits, Work, Honest, Branch, SampleWorld;
    EpochShape(w);
    EasyWork(ours);
    EasyWork(peer);
    EasyHonest(NotUnderOurs, 8192, LAST_OF_EPOCH, now);
    EasyHonest(NotUnderOurs, 8194, ACROSS_EPOCH, now);
  }

  /** Every block of either chain meets its target on its own branch. */
  lemma EpochOwnSeeds(w: World)
    requires w == SampleWorld(NotUnderOurs)
    requires var ours, peer := LastOfEpoch(w), AcrossEpoch(w);
             |ours| == 8192 && |peer| == 8194 && w.BlockHash(peer[8191]) == HashOf(8191, 2)
    ensures OwnSeedsMet(w, LastOfEpoch(w)) && OwnSeedsMet(w, AcrossEpoch(w))
  {
    var ours, peer := LastOfEpoch(w), AcrossEpoch(w);
    assert HashOf(8191, 1) != HashOf(8191, 2) && HashOf(8191, 1) != ZERO;
    assert forall h, seed :: w.meetsWork(h, seed) <==> seed != HashOf(8191, 1);
    hide LastOfEpoch, AcrossEpoch, SampleWorld, HashOf;
    forall i | 1 <= i < 8192 ensures OwnSeedMet(w, ours, i) { SeedBelow(i); }
    forall i | 1 <= i < 8194 ensures OwnSeedMet(w, peer, i) {
      SeedBelow(i);
      assert i >= EPOCH_LENGTH ==> i / EPOCH_LENGTH == 1;
    }
  }

  /** The peer's first block of the second epoch fails under the seed our index gives. */
  lemma EpochSeedUnmet(w: World)
    requires w == SampleWorld(NotUnderOurs)
    requires var ours, peer := LastOfEpoch(w), AcrossEpoch(w);
             && |ours| == 8192 && |peer| == 8194 && w.BlockHash(ours[8191]) == HashOf(8191, 1)
             && !Outweighs(peer[..8192], ours)
    ensures !SeedMet(w, LastOfEpoch(w), AcrossEpoch(w), 8192)
    ensures !SeedsMet(w, LastOfEpoch(w), AcrossEpoch(w), 8190, 8194)
  {
    var ours, peer := LastOfEpoch(w), AcrossEpoch(w);
    assert forall h, seed :: w.meetsWork(h, seed) <==> seed != HashOf(8191, 1);
    hide LastOfEpoch, AcrossEpoch, SampleWorld, HashOf, ChainWork;
    assert After(ours, peer, 8191) == ours;
    assert SeedOn(w, ours, 8192) == HashOf(8191, 1);
  }

  lemma EpochWork(w: World)
    requires |LastOfEpoch(w)| == 8192 && |AcrossEpoch(w)| == 8194
    requires forall i :: 0 <= i < 8194 ==> AcrossEpoch(w)[i].header.bits == 20
    requires Work(LastOfEpoch(w)) == 8192 * 0x10_0000 && Work(AcrossEpoch(w)) == 8194 * 0x10_0000
    ensures !Outweighs(AcrossEpoch(w)[..8192], LastOfEpoch(w)) && Outweighs(AcrossEpoch(w), LastOfEpoch(w))
    ensures Shallow(LastOfEpoch(w), 8190) && Heavy(LastOfEpoch(w), AcrossEpoch(w))
  {
    hide LastOfEpoch, AcrossEpoch, Work;
    var peer := AcrossEpoch(w);
    EasyWork(peer[..8192]);
    assert peer[..8194] == peer;
  }

  lemma EpochFacts(w: World, now: nat)
    requires w == SampleWorld(NotUnderOurs) && now >= 60 * 8194
    ensures var ours, peer := LastOfEpoch(w), AcrossEpoch(w);
            && |ours| == 8192 && |peer| == 8194
            && Outweighs(peer, ours) && Shallow(ours, 8190) && Heavy(ours, peer)
            && !SeedMet(w, ours, peer, 8192) && OwnSeedsMet(w, peer) && Reach(ours, peer) == |peer|
            && !SeedsMet(w, ours, peer, 8190, 8194)
  {
    hide *;
    EpochHonest(w, now);
    EpochShape(w);
    EpochOwnSeeds(w);
    EpochWork(w);
    EpochSeedUnmet(w);
    HeavyReach(LastOfEpoch(w), AcrossEpoch(w));
  }

  lemma EpochOffer(w: World, now: nat) returns (s: State, states: seq<State>, events: seq<Event>)
    requires w == SampleWorld(NotUnderOurs) && now >= 60 * 8194
    ensures TESTNET.WellFormed()
    ensures Offered(w, TESTNET, states, events, s, LastOfEpoch(w), AcrossEpoch(w), At(now), 8190)
    ensures Closed(w, s.blocks) && s.metaTip.Some? && s.metaTip.value in s.blocks
    ensures StartSettled(LastOfEpoch(w), AcrossEpoch(w), 8190)
  {
    hide *;
    EpochHonest(w, now);
    EpochShape(w);
    EpochOwnSeeds(w);
    s, states, events := OfferedBranch(w, TESTNET, LastOfEpoch(w), AcrossEpoch(w), 8191, now);
  }

  /** And a node can reach, without any crash, a start from which catching up with an honest, taller and heavier peer
      fails, because the peer's chain forks from ours just below an epoch boundary: the peer's block above the boundary
      meets its target under the seed of its own branch, but is judged under the seed of ours. */
  lemma EpochForkRefused()
    returns (w: World, s: State, states: seq<State>, events: seq<Event>, ours: Chain, peer: Chain, now: nat)
    ensures |ours| == 8192 && |peer| == 8194 && Outweighs(peer, ours) && Shallow(ours, 8190) && Heavy(ours, peer)
    ensures !SeedMet(w, ours, peer, 8192) && OwnSeedsMet(w, peer)
    ensures GivesUp(w, TESTNET, s, peer, At(now))
    ensures Offered(w, TESTNET, states, events, s, ours, peer, At(now), 8190)
  {
    w, now := SampleWorld(NotUnderOurs), 60 * 8194;
    ours, peer := LastOfEpoch(w), AcrossEpoch(w);
    hide *;
    EpochFacts(w, now);
    s, states, events := EpochOffer(w, now);
    OfferedIs(w, TESTNET, states, events, s, ours, peer, At(now), 8190);
    MovesIs(ours, peer, 8190);
    SettledPlace(ours, peer, 8190);
    SettledTurns(w, ours, peer, 8190, |peer|);
    SyncTheorem(w, TESTNET, s, peer, At(now), 8190);
    EndIs(w, TESTNET, s, peer, At(now));
  }

  lemma HeavyReach(ours: Chain, peer: Chain)
    requires Heavy(ours, peer)
    ensures Reach(ours, peer) == |peer|
  {
    hide Heavy;
  }
}
