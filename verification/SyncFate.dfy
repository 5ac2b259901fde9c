/** The fate of a catch-up: from any start, when it completes, when it aborts, and when it never ends. */
module SyncFate {
  import opened Prelude
  import opened Types
  import opened Utxo
  import opened Validation
  import opened Store
  import opened ForkChoice
  import opened Consensus
  import opened Runs
  import opened Sync

  // ---- Outcomes -------------------------------------------------------------

  /** The loop's outcome after `n` rounds, started from one above our height. */
  ghost function SyncAfter(w: World, p: Params, s: State, peer: Chain, clock: Clock, n: nat): Outcome
    requires p.WellFormed() && Inv(w, p, s) && peer != []
  {
    Rounds(w, p, Start(s), peer, |peer| - 1, clock, n)
  }

  function Start(s: State): Cursor { Cursor(s, Height(s) + 1, 0, 0, 0) }

  ghost predicate CompletesIn(w: World, p: Params, s: State, peer: Chain, clock: Clock, n: nat)
    requires p.WellFormed() && Inv(w, p, s) && peer != []
  {
    SyncAfter(w, p, s, peer, clock, n).Done?
  }

  ghost predicate AbortsIn(w: World, p: Params, s: State, peer: Chain, clock: Clock, n: nat)
    requires p.WellFormed() && Inv(w, p, s) && peer != []
  {
    SyncAfter(w, p, s, peer, clock, n).Aborted?
  }

  ghost predicate Completes(w: World, p: Params, s: State, peer: Chain, clock: Clock)
    requires p.WellFormed() && Inv(w, p, s) && peer != []
  {
    exists n :: CompletesIn(w, p, s, peer, clock, n)
  }

  ghost predicate Aborts(w: World, p: Params, s: State, peer: Chain, clock: Clock)
    requires p.WellFormed() && Inv(w, p, s) && peer != []
  {
    exists n :: AbortsIn(w, p, s, peer, clock, n)
  }

  lemma StartIs(s: State)
    ensures Start(s) == Cursor(s, Height(s) + 1, 0, 0, 0)
  {
    hide Height;
  }

  lemma SyncAfterIs(w: World, p: Params, s: State, peer: Chain, clock: Clock, n: nat)
    requires p.WellFormed() && Inv(w, p, s) && peer != [] && Start(s).s == s
    ensures SyncAfter(w, p, s, peer, clock, n) == Rounds(w, p, Start(s), peer, |peer| - 1, clock, n)
    ensures CompletesIn(w, p, s, peer, clock, n) <==> SyncAfter(w, p, s, peer, clock, n).Done?
    ensures AbortsIn(w, p, s, peer, clock, n) <==> SyncAfter(w, p, s, peer, clock, n).Aborted?
    ensures CompletesIn(w, p, s, peer, clock, n) ==> Completes(w, p, s, peer, clock)
    ensures AbortsIn(w, p, s, peer, clock, n) ==> Aborts(w, p, s, peer, clock)
  {
    hide Inv, Rounds, Start;
  }

  lemma CompletesWhen(w: World, p: Params, s: State, peer: Chain, clock: Clock) returns (n: nat)
    requires p.WellFormed() && Inv(w, p, s) && peer != [] && Completes(w, p, s, peer, clock)
    ensures CompletesIn(w, p, s, peer, clock, n)
  {
    hide Inv, CompletesIn;
    n :| CompletesIn(w, p, s, peer, clock, n);
  }

  lemma AbortsWhen(w: World, p: Params, s: State, peer: Chain, clock: Clock) returns (n: nat)
    requires p.WellFormed() && Inv(w, p, s) && peer != [] && Aborts(w, p, s, peer, clock)
    ensures AbortsIn(w, p, s, peer, clock, n)
  {
    hide Inv, AbortsIn;
    n :| AbortsIn(w, p, s, peer, clock, n);
  }

  lemma SameEnd(w: World, p: Params, s: State, peer: Chain, clock: Clock, m: nat, n: nat)
    requires p.WellFormed() && Inv(w, p, s) && peer != [] && !SyncAfter(w, p, s, peer, clock, m).Continue?
    ensures var r := SyncAfter(w, p, s, peer, clock, n);
            && (CompletesIn(w, p, s, peer, clock, n) <==> r.Done?)
            && (AbortsIn(w, p, s, peer, clock, n) <==> r.Aborted?)
            && (r.Continue? || r == SyncAfter(w, p, s, peer, clock, m))
  {
    hide *;
    StartIs(s);
    SyncAfterIs(w, p, s, peer, clock, m);
    SyncAfterIs(w, p, s, peer, clock, n);
    OnlyOneEnd(w, p, Start(s), peer, |peer| - 1, clock, m, n);
  }

  /** Once the loop has ended, its end is its only one. */
  lemma EndsOnce(w: World, p: Params, s: State, peer: Chain, clock: Clock, m: nat)
    requires p.WellFormed() && Inv(w, p, s) && peer != [] && !SyncAfter(w, p, s, peer, clock, m).Continue?
    ensures Completes(w, p, s, peer, clock) <==> SyncAfter(w, p, s, peer, clock, m).Done?
    ensures Aborts(w, p, s, peer, clock) <==> SyncAfter(w, p, s, peer, clock, m).Aborted?
    ensures forall n :: CompletesIn(w, p, s, peer, clock, n) ==>
              SyncAfter(w, p, s, peer, clock, n) == SyncAfter(w, p, s, peer, clock, m)
  {
    hide *;
    StartIs(s);
    SyncAfterIs(w, p, s, peer, clock, m);
    if Completes(w, p, s, peer, clock) {
      var n := CompletesWhen(w, p, s, peer, clock);
      SameEnd(w, p, s, peer, clock, m, n);
    }
    if Aborts(w, p, s, peer, clock) {
      var n := AbortsWhen(w, p, s, peer, clock);
      SameEnd(w, p, s, peer, clock, m, n);
    }
    forall n: nat | CompletesIn(w, p, s, peer, clock, n)
      ensures SyncAfter(w, p, s, peer, clock, n) == SyncAfter(w, p, s, peer, clock, m)
    {
      SameEnd(w, p, s, peer, clock, m, n);
    }
  }

  // ---- What is assumed of the start ------------------------------------------

  /** What is assumed throughout: we hold the peer's first `k + 1` blocks, and the peer's chain is honest and taller
      than ours. */
  ghost predicate Meets(w: World, p: Params, s: State, peer: Chain, clock: Clock, k: nat)
    requires p.WellFormed()
  {
    && Inv(w, p, s) && s.metaTip.Some?
    && Knows(w, s.blocks, peer, k) && |Best(w, s)| < |peer|
    && HonestBy(w, p, peer, clock)
  }

  /** No block of the peer's that we hold outweighs our tip, unless a crash has left it behind. */
  predicate StartSettled(ours: Chain, peer: Chain, k: nat)
    requires k < |peer|
  {
    !Outweighs(peer[..k + 1], ours)
  }

  /** In a state no crash has left below a stored chain, the start is settled. */
  lemma SettledUnlessStranded(w: World, p: Params, s: State, peer: Chain, now: nat, k: nat)
    requires p.WellFormed() && Inv(w, p, s) && Topped(w, p, s, {}) && s.metaTip.Some?
    requires Knows(w, s.blocks, peer, k) && Honest(w, p, peer, now)
    ensures Closed(w, s.blocks) && s.metaTip.value in s.blocks && StartSettled(Best(w, s), peer, k)
  {
    PeerPrefix(w, p, s.blocks, peer, now, k, k);
    ReplayPrefix(w, p, peer, k + 1);
    hide ChainTo, Replay, AcceptedAt, ChainWork, KeepsRules;
    var h := w.BlockHash(peer[k]);
    assert WorkAt(w, s.blocks, h) <= WorkAt(w, s.blocks, s.metaTip.value);
  }

  predicate Shallow(ours: Chain, k: nat) { SatSub(|ours|, k + 1) <= MAX_FORK_SEARCH_DEPTH }

  lemma MeetsFacts(w: World, p: Params, s: State, peer: Chain, clock: Clock, k: nat)
    requires p.WellFormed() && Meets(w, p, s, peer, clock, k)
    ensures Inv(w, p, s) && Closed(w, s.blocks) && s.metaTip.Some? && s.metaTip.value in s.blocks
    ensures k < |peer| && Knows(w, s.blocks, peer, k) && HonestBy(w, p, peer, clock)
    ensures 0 < |Best(w, s)| < |peer| && FollowsBest(w, p, s, Best(w, s), peer, k)
  {
    assert s.metaTip.value in s.blocks;
    hide HonestBy, AcceptedAt, OneGenesis, Replay;
  }

  /** The loop starts one above our height. */
  lemma StartsHere(w: World, p: Params, s: State, peer: Chain, clock: Clock, k: nat)
    requires p.WellFormed() && Meets(w, p, s, peer, clock, k)
    ensures Inv(w, p, s) && Closed(w, s.blocks) && s.metaTip.Some? && s.metaTip.value in s.blocks
    ensures k < |peer| && 0 < |Best(w, s)| < |peer| && Work(peer) <= U128_MAX && HonestBy(w, p, peer, clock)
    ensures Start(s) == Cursor(s, |Best(w, s)|, 0, 0, 0) && FollowsBest(w, p, s, Best(w, s), peer, k)
    ensures !Shallow(Best(w, s), k) ==> TooFar(Start(s).from, 0, peer, k)
  {
    hide *;
    MeetsFacts(w, p, s, peer, clock, k);
    HonestAt(w, p, peer, clock, 0);
    HeightOfBest(w, p, s);
    StartIs(s);
    DeepIsFar(Best(w, s), peer, k);
  }

  lemma DeepIsFar(ours: Chain, peer: Chain, k: nat)
    requires |ours| < |peer|
    ensures !Shallow(ours, k) ==> TooFar(|ours|, 0, peer, k)
  {
  }

  lemma TooDeep(w: World, p: Params, s: State, peer: Chain, clock: Clock, k: nat) returns (m: nat)
    requires p.WellFormed() && Meets(w, p, s, peer, clock, k) && !Shallow(Best(w, s), k)
    ensures SyncAfter(w, p, s, peer, clock, m).Aborted?
  {
    hide *;
    StartsHere(w, p, s, peer, clock, k);
    m := SyncGivesUp(w, p, Start(s), Best(w, s), peer, clock, k);
    SyncAfterIs(w, p, s, peer, clock, m);
  }

  // ---- A settled start -------------------------------------------------------

  lemma SettledStart(w: World, p: Params, s: State, peer: Chain, clock: Clock, k: nat)
    requires p.WellFormed() && Meets(w, p, s, peer, clock, k) && k < |peer| && StartSettled(Best(w, s), peer, k)
    requires Shallow(Best(w, s), k)
    ensures CursorInv(w, p, Start(s), Best(w, s), peer, k)
  {
    hide *;
    StartsHere(w, p, s, peer, clock, k);
    SettledPlace(Best(w, s), peer, k);
    SyncInvIs(w, p, s, Best(w, s), peer, k);
    UnfoldCursor(w, p, Start(s), Best(w, s), peer, k);
  }

  lemma SettledPlace(ours: Chain, peer: Chain, k: nat)
    requires k < |peer| && 0 < |ours| < |peer| && StartSettled(ours, peer, k)
    ensures After(ours, peer, k) == ours && !Outweighs(peer[..k + 1], ours)
    ensures Shallow(ours, k) ==> CursorAt(|ours|, 0, ours, peer, k)
  {
    hide Outweighs;
  }

  // ---- A stranded start ------------------------------------------------------

  /** Blocks we hold change nothing. */
  lemma {:induction false} BatchKnown(w: World, p: Params, s: State, best: Chain, peer: Chain, clock: Clock,
                                      tick: nat, k: nat, from: nat, i: nat, hi: nat, count: nat)
    requires p.WellFormed() && FollowsBest(w, p, s, best, peer, k) && HonestBy(w, p, peer, clock)
    requires i <= hi <= k + 1 && k < |peer|
    ensures Inv(w, p, s)
    ensures SubmitBatch(w, p, s, peer[i..hi], from, clock, tick, count)
         == Applied(s, count + (hi - i), tick + (hi - i))
    decreases hi - i
  {
    hide *;
    InSync(w, p, s, best, peer, k);
    if i == hi {
      assert peer[i..hi] == [];
      BatchEmpty(w, p, s, from, clock, tick, count);
    } else {
      HonestAt(w, p, peer, clock, tick);
      SubmitPeerBlock(w, p, s, best, peer, clock(tick), k, i);
      BatchHead(w, p, s, peer[i..hi], from, clock, tick, count);
      assert peer[i..hi][0] == peer[i] && peer[i..hi][1..] == peer[i + 1..hi];
      BatchKnown(w, p, s, best, peer, clock, tick + 1, k, from, i + 1, hi, count + 1);
    }
  }

  /** The first new block settles the start, whatever was stranded below it: from there on, the chain followed is the
      heavier one. */
  lemma {:induction false} BatchTakesOver(w: World, p: Params, s: State, ours: Chain, peer: Chain, clock: Clock,
                                          tick: nat, k: nat, from: nat, i: nat, hi: nat, count: nat)
    requires p.WellFormed() && FollowsBest(w, p, s, ours, peer, k) && HonestBy(w, p, peer, clock)
    requires i <= k + 1 < hi <= |peer|
    ensures Inv(w, p, s)
    ensures var r := SubmitBatch(w, p, s, peer[i..hi], from, clock, tick, count);
            if MeetsOn(w, ours, peer, k + 1) && SeedsMet(w, ours, peer, k + 1, hi)
            then r.Applied? && SyncInv(w, p, r.s, ours, peer, hi - 1) else r.Failed?
    decreases hi - i
  {
    hide *;
    HonestAt(w, p, peer, clock, tick);
    SubmitPeerBlock(w, p, s, ours, peer, clock(tick), k, i);
    BatchHead(w, p, s, peer[i..hi], from, clock, tick, count);
    assert peer[i..hi][0] == peer[i] && peer[i..hi][1..] == peer[i + 1..hi];
    var s' := Submit(w, p, s, peer[i], clock(tick)).1;
    if i <= k {
      BatchTakesOver(w, p, s, ours, peer, clock, tick + 1, k, from, i + 1, hi, count + 1);
    } else if MeetsOn(w, ours, peer, i) {
      AfterIs(ours, peer, i);
      SyncInvIs(w, p, s', ours, peer, i);
      if SeedsMet(w, ours, peer, i, hi) {
        BatchApplies(w, p, s', ours, peer, clock, tick + 1, i, from, i + 1, hi, count + 1);
      } else {
        BatchFails(w, p, s', ours, peer, clock, tick + 1, i, from, i + 1, hi, count + 1);
      }
    }
  }

  lemma AfterIs(ours: Chain, peer: Chain, k: nat)
    requires k < |peer|
    ensures After(ours, peer, k) == Heavier(ours, peer[..k + 1])
  {
    hide Heavier;
  }

  /** A stranded cursor: on our own chain, searching or waiting at its top. */
  predicate StrandedAt(from: nat, backtrack: nat, ours: Chain, peer: Chain, k: nat) {
    && k < |peer| && 1 <= from <= |ours| < |peer| && (from >= k + 1 || from == |ours|)
    && SatSub(|ours|, k + 1) <= MAX_FORK_SEARCH_DEPTH
    && backtrack + SatSub(from, k + 1) <= MAX_FORK_SEARCH_DEPTH
    && Outweighs(peer[..k + 1], ours)
  }

  lemma StrandedFacts(from: nat, backtrack: nat, ours: Chain, peer: Chain, k: nat)
    requires StrandedAt(from, backtrack, ours, peer, k)
    ensures k < |peer| && 1 <= from <= |ours| < |peer| && from < BatchEnd(from, peer) <= |peer|
    ensures Outweighs(peer[..k + 1], ours)
    ensures from > k + 1 ==> backtrack < MAX_FORK_SEARCH_DEPTH && StrandedAt(from - 1, backtrack + 1, ours, peer, k)
    ensures from <= k + 1 && BatchEnd(from, peer) <= k + 1 ==> from == |ours| && k + 1 >= Horizon(ours, peer)
    ensures from <= k + 1 < BatchEnd(from, peer) ==> k + 1 < Horizon(ours, peer)
    ensures from == |ours| <= k + 1 ==> StrandedAt(|ours|, 0, ours, peer, k)
  {
    hide Outweighs;
  }

  /** A round that fetches nothing new leaves everything as it was. */
  lemma StrandedWaits(w: World, p: Params, c: Cursor, ours: Chain, peer: Chain, clock: Clock, k: nat)
    requires p.WellFormed() && FollowsBest(w, p, c.s, ours, peer, k) && HonestBy(w, p, peer, clock)
    requires StrandedAt(c.from, c.backtrack, ours, peer, k) && c.from <= k + 1 && BatchEnd(c.from, peer) <= k + 1
    ensures Inv(w, p, c.s)
    ensures var r := Round(w, p, c, peer, |peer| - 1, clock);
            r.Continue? && r.cursor.s == c.s && r.cursor.from == |ours| && r.cursor.backtrack == 0
  {
    hide *;
    InSync(w, p, c.s, ours, peer, k);
    StrandedFacts(c.from, c.backtrack, ours, peer, k);
    FetchIs(peer, c.from);
    BatchKnown(w, p, c.s, ours, peer, clock, c.tick, k, c.from, c.from, BatchEnd(c.from, peer), 0);
    RoundOnApply(w, p, c, peer, |peer| - 1, clock);
    HeightOfBest(w, p, c.s);
  }

  /** A round that fetches a new block settles the start, or aborts by a seed. */
  lemma StrandedSettles(w: World, p: Params, c: Cursor, ours: Chain, peer: Chain, clock: Clock, k: nat)
    requires p.WellFormed() && FollowsBest(w, p, c.s, ours, peer, k) && HonestBy(w, p, peer, clock)
    requires StrandedAt(c.from, c.backtrack, ours, peer, k) && c.from <= k + 1 < BatchEnd(c.from, peer)
    requires Work(peer) <= U128_MAX
    ensures Inv(w, p, c.s)
    ensures var r, hi := Round(w, p, c, peer, |peer| - 1, clock), BatchEnd(c.from, peer);
            if MeetsOn(w, ours, peer, k + 1) && SeedsMet(w, ours, peer, k + 1, hi)
            then if hi == |peer| then r.Done? && Inv(w, p, r.s) && Best(w, r.s) == peer
                 else r.Continue? && CursorInv(w, p, r.cursor, ours, peer, hi - 1)
            else r.Aborted?
  {
    hide *;
    var hi := BatchEnd(c.from, peer);
    InSync(w, p, c.s, ours, peer, k);
    StrandedFacts(c.from, c.backtrack, ours, peer, k);
    FetchIs(peer, c.from);
    BatchTakesOver(w, p, c.s, ours, peer, clock, c.tick, k, c.from, c.from, hi, 0);
    if MeetsOn(w, ours, peer, k + 1) && SeedsMet(w, ours, peer, k + 1, hi) {
      RoundOnApply(w, p, c, peer, |peer| - 1, clock);
      var s' := SubmitBatch(w, p, c.s, Fetch(peer, c.from), c.from, clock, c.tick, 0).s;
      TopOfSync(w, p, s', ours, peer, hi - 1);
      OnPeers(c.from, c.backtrack, ours, peer, k, hi);
      var r := Round(w, p, c, peer, |peer| - 1, clock);
      if r.Continue? { UnfoldCursor(w, p, r.cursor, ours, peer, hi - 1); }
    } else {
      RoundOnFailure(w, p, c, peer, |peer| - 1, clock);
    }
  }

  /** Once past the stranded blocks we are on the peer's chain. */
  lemma OnPeers(from: nat, backtrack: nat, ours: Chain, peer: Chain, k: nat, hi: nat)
    requires StrandedAt(from, backtrack, ours, peer, k) && k + 1 < hi <= |peer| && Work(peer) <= U128_MAX
    ensures After(ours, peer, hi - 1) == peer[..hi] && peer[..|peer|] == peer
    ensures hi < |peer| ==> CursorAt(hi, 0, ours, peer, hi - 1)
    ensures k + 1 < Horizon(ours, peer) ==> Heavy(ours, peer) && Reach(ours, peer) == |peer|
  {
    hide ChainWork;
    WorkGrows(peer, k + 1, hi);
    if k + 1 < Horizon(ours, peer) { WorkGrows(peer, k + 1, Horizon(ours, peer)); }
  }

  /** With a new block within reach the loop ends: on the peer's chain if all its seeds are met, and else with an
      error. */
  lemma {:induction false} StrandedEnds(w: World, p: Params, c: Cursor, ours: Chain, peer: Chain, clock: Clock, k: nat)
    returns (n: nat)
    requires p.WellFormed() && FollowsBest(w, p, c.s, ours, peer, k) && HonestBy(w, p, peer, clock)
    requires StrandedAt(c.from, c.backtrack, ours, peer, k) && Work(peer) <= U128_MAX && k + 1 < Horizon(ours, peer)
    ensures Inv(w, p, c.s) && k + 1 < |peer|
    ensures var r := Rounds(w, p, c, peer, |peer| - 1, clock, n);
            if MeetsOn(w, ours, peer, k + 1) && SeedsMet(w, ours, peer, k + 1, |peer|)
            then r.Done? && Inv(w, p, r.s) && Best(w, r.s) == peer else r.Aborted?
    decreases c.from
  {
    hide *;
    InSync(w, p, c.s, ours, peer, k);
    StrandedFacts(c.from, c.backtrack, ours, peer, k);
    HorizonWithin(ours, peer);
    var r := Round(w, p, c, peer, |peer| - 1, clock);
    n := 1;
    if c.from > k + 1 {
      RoundSearches(w, p, c, ours, peer, clock, k);
      var m := StrandedEnds(w, p, r.cursor, ours, peer, clock, k);
      n := m + 1;
    } else {
      var hi := BatchEnd(c.from, peer);
      StrandedSettles(w, p, c, ours, peer, clock, k);
      SeedsSplit(w, ours, peer, k + 1, hi);
      if r.Continue? {
        OnPeers(c.from, c.backtrack, ours, peer, k, hi);
        EndsIs(w, c.from, ours, peer, hi - 1);
        var m := SyncEnds(w, p, r.cursor, ours, peer, clock, hi - 1);
        n := m + 1;
      }
    }
    RoundsUnfold(w, p, c, peer, |peer| - 1, clock, n);
  }

  lemma HorizonWithin(ours: Chain, peer: Chain)
    ensures Horizon(ours, peer) <= |peer|
  {
  }

  lemma SeedsSplit(w: World, ours: Chain, peer: Chain, k: nat, hi: nat)
    requires k < hi <= |peer|
    ensures SeedsMet(w, ours, peer, k, |peer|) <==>
              SeedsMet(w, ours, peer, k, hi) && SeedsMet(w, ours, peer, hi - 1, |peer|)
  {
    hide SeedMet;
  }

  /** Without one the loop fetches the same known blocks for ever. */
  lemma {:induction false} StrandedIdles(w: World, p: Params, c: Cursor, ours: Chain, peer: Chain, clock: Clock,
                                         k: nat, n: nat)
    requires p.WellFormed() && FollowsBest(w, p, c.s, ours, peer, k) && HonestBy(w, p, peer, clock)
    requires StrandedAt(c.from, c.backtrack, ours, peer, k) && c.from == |ours| && k + 1 >= Horizon(ours, peer)
    ensures Inv(w, p, c.s) && Rounds(w, p, c, peer, |peer| - 1, clock, n).Continue?
    decreases n
  {
    hide *;
    InSync(w, p, c.s, ours, peer, k);
    StrandedFacts(c.from, c.backtrack, ours, peer, k);
    IdlePlace(ours, peer, k);
    StrandedWaits(w, p, c, ours, peer, clock, k);
    RoundsUnfold(w, p, c, peer, |peer| - 1, clock, n);
    if n > 0 {
      StrandedIdles(w, p, Round(w, p, c, peer, |peer| - 1, clock).cursor, ours, peer, clock, k, n - 1);
    }
  }

  lemma IdlePlace(ours: Chain, peer: Chain, k: nat)
    requires k + 1 >= Horizon(ours, peer) && |ours| < |peer|
    ensures |ours| <= k + 1 && BatchEnd(|ours|, peer) <= k + 1
  {
  }

  // ---- Main theorem ---------------------------------------------------------

  /** The peer's block meets its target under the seed read when its turn comes: the first new one is judged on the
      chain followed at the start, each later one on what fork choice has made of those before it. */
  predicate TurnMet(w: World, ours: Chain, peer: Chain, k: nat, i: nat)
    requires k < i < |peer|
  {
    MeetsOn(w, if i == k + 1 then ours else After(ours, peer, i - 1), peer, i)
  }

  ghost predicate TurnsMet(w: World, ours: Chain, peer: Chain, k: nat, n: nat)
    requires n <= |peer|
  {
    forall i {:trigger TurnMet(w, ours, peer, k, i)} :: k < i < n ==> TurnMet(w, ours, peer, k, i)
  }

  /** The loop can move our tip: the peer's chain up to the horizon outweighs ours, and if what we hold of it does so
      already, a block we do not hold lies below the horizon. */
  predicate Moves(ours: Chain, peer: Chain, k: nat)
    requires k < |peer|
  {
    Heavy(ours, peer) && (StartSettled(ours, peer, k) || k + 1 < Horizon(ours, peer))
  }

  /** How much of the peer's chain the loop gets to try. */
  function Tries(ours: Chain, peer: Chain, k: nat): (n: nat)
    requires k < |peer|
    ensures n <= |peer|
  {
    if Moves(ours, peer, k) then |peer| else Horizon(ours, peer)
  }

  lemma SettledTurns(w: World, ours: Chain, peer: Chain, k: nat, n: nat)
    requires k < |peer| && n <= |peer| && After(ours, peer, k) == ours
    ensures TurnsMet(w, ours, peer, k, n) <==> SeedsMet(w, ours, peer, k, n)
  {
    hide MeetsOn, After;
    forall i | k < i < n ensures TurnMet(w, ours, peer, k, i) <==> SeedMet(w, ours, peer, i) {
    }
    if SeedsMet(w, ours, peer, k, n) {
      forall i | k < i < n ensures TurnMet(w, ours, peer, k, i) { assert SeedMet(w, ours, peer, i); }
    }
    if TurnsMet(w, ours, peer, k, n) {
      forall i | k < i < n ensures SeedMet(w, ours, peer, i) { assert TurnMet(w, ours, peer, k, i); }
    }
  }

  lemma StrandedTurns(w: World, ours: Chain, peer: Chain, k: nat, n: nat)
    requires k < |peer| && n <= |peer|
    ensures k + 1 < n ==>
              (TurnsMet(w, ours, peer, k, n) <==> MeetsOn(w, ours, peer, k + 1) && SeedsMet(w, ours, peer, k + 1, n))
    ensures k + 1 >= n ==> TurnsMet(w, ours, peer, k, n)
  {
    hide MeetsOn, After;
    if k + 1 < n {
      forall i | k + 1 < i < n ensures TurnMet(w, ours, peer, k, i) <==> SeedMet(w, ours, peer, i) {
      }
      assert TurnMet(w, ours, peer, k, k + 1) <==> MeetsOn(w, ours, peer, k + 1);
      if TurnsMet(w, ours, peer, k, n) {
        forall i | k + 1 < i < n ensures SeedMet(w, ours, peer, i) { assert TurnMet(w, ours, peer, k, i); }
      }
      if MeetsOn(w, ours, peer, k + 1) && SeedsMet(w, ours, peer, k + 1, n) {
        forall i | k < i < n ensures TurnMet(w, ours, peer, k, i) {
          if i > k + 1 { assert SeedMet(w, ours, peer, i); }
        }
      }
    }
  }

  /** The fate of a shallow, settled start. */
  lemma SettledFate(w: World, p: Params, s: State, peer: Chain, clock: Clock, k: nat) returns (m: nat)
    requires p.WellFormed() && Meets(w, p, s, peer, clock, k) && k < |peer| && StartSettled(Best(w, s), peer, k)
    requires Shallow(Best(w, s), k)
    ensures Inv(w, p, s) && Fate(w, p, s, peer, clock, k, m)
  {
    hide *;
    StartsHere(w, p, s, peer, clock, k);
    SettledStart(w, p, s, peer, clock, k);
    var ours := Best(w, s);
    SettledPlace(ours, peer, k);
    HorizonWithin(ours, peer);
    SettledTurns(w, ours, peer, k, |peer|);
    SettledTurns(w, ours, peer, k, Horizon(ours, peer));
    MovesIs(ours, peer, k);
    EndsIs(w, 0, ours, peer, k);
    m := 0;
    if Ends(w, ours, peer, k) {
      m := SyncEnds(w, p, Start(s), ours, peer, clock, k);
      SyncAfterIs(w, p, s, peer, clock, m);
    } else {
      forall n: nat ensures SyncAfter(w, p, s, peer, clock, n).Continue? {
        SyncLivelock(w, p, Start(s), ours, peer, clock, k, n);
        SyncAfterIs(w, p, s, peer, clock, n);
      }
    }
    FateIs(w, p, s, peer, clock, k, m);
  }

  /** And of a stranded one. */
  lemma StrandedFate(w: World, p: Params, s: State, peer: Chain, clock: Clock, k: nat) returns (m: nat)
    requires p.WellFormed() && Meets(w, p, s, peer, clock, k) && k < |peer| && !StartSettled(Best(w, s), peer, k)
    requires Shallow(Best(w, s), k)
    ensures Inv(w, p, s) && Fate(w, p, s, peer, clock, k, m)
  {
    hide *;
    StartsHere(w, p, s, peer, clock, k);
    var ours := Best(w, s);
    StrandedPlace(ours, peer, k);
    HorizonWithin(ours, peer);
    StrandedTurns(w, ours, peer, k, |peer|);
    StrandedTurns(w, ours, peer, k, Horizon(ours, peer));
    MovesIs(ours, peer, k);
    m := 0;
    if k + 1 < Horizon(ours, peer) {
      OnPeers(|ours|, 0, ours, peer, k, Horizon(ours, peer));
      m := StrandedEnds(w, p, Start(s), ours, peer, clock, k);
      SyncAfterIs(w, p, s, peer, clock, m);
    } else {
      forall n: nat ensures SyncAfter(w, p, s, peer, clock, n).Continue? {
        StrandedIdles(w, p, Start(s), ours, peer, clock, k, n);
        SyncAfterIs(w, p, s, peer, clock, n);
      }
    }
    FateIs(w, p, s, peer, clock, k, m);
  }

  lemma StrandedPlace(ours: Chain, peer: Chain, k: nat)
    requires k < |peer| && 0 < |ours| < |peer| && !StartSettled(ours, peer, k) && Shallow(ours, k)
    ensures StrandedAt(|ours|, 0, ours, peer, k)
  {
    hide Outweighs;
  }

  lemma MovesIs(ours: Chain, peer: Chain, k: nat)
    requires k < |peer|
    ensures Horizon(ours, peer) <= |peer|
    ensures Moves(ours, peer, k) <==> Heavy(ours, peer) && (StartSettled(ours, peer, k) || k + 1 < Horizon(ours, peer))
    ensures Tries(ours, peer, k) == if Moves(ours, peer, k) then |peer| else Horizon(ours, peer)
  {
    hide Heavy, StartSettled;
  }

  /** After `m` rounds a loop that ends has ended as it should; one that does not never does. */
  ghost predicate Fate(w: World, p: Params, s: State, peer: Chain, clock: Clock, k: nat, m: nat)
    requires p.WellFormed() && Inv(w, p, s) && k < |peer|
  {
    var ours := Best(w, s);
    var r := SyncAfter(w, p, s, peer, clock, m);
    if !TurnsMet(w, ours, peer, k, Tries(ours, peer, k)) then r.Aborted?
    else if Moves(ours, peer, k) then r.Done? && Inv(w, p, r.s) && Best(w, r.s) == peer
    else forall n: nat :: SyncAfter(w, p, s, peer, clock, n).Continue?
  }

  lemma FateIs(w: World, p: Params, s: State, peer: Chain, clock: Clock, k: nat, m: nat)
    requires p.WellFormed() && Inv(w, p, s) && k < |peer|
    ensures Closed(w, s.blocks) && (s.metaTip.Some? ==> s.metaTip.value in s.blocks)
    ensures Fate(w, p, s, peer, clock, k, m) <==>
              var ours := Best(w, s);
              var r := SyncAfter(w, p, s, peer, clock, m);
              if !TurnsMet(w, ours, peer, k, Tries(ours, peer, k)) then r.Aborted?
              else if Moves(ours, peer, k) then r.Done? && Inv(w, p, r.s) && Best(w, r.s) == peer
              else forall n: nat :: SyncAfter(w, p, s, peer, clock, n).Continue?
  {
    assert Closed(w, s.blocks) && (s.metaTip.Some? ==> s.metaTip.value in s.blocks);
    hide Inv, Best, SyncAfter, TurnsMet, Tries, Moves;
  }

  /** Against an honest, taller peer the loop has three fates, decided before it starts, whatever a crash may have
      left in the store. It completes exactly when the search for a known parent stays within its depth, the loop can
      move our tip, and every block to come meets its target under the seed read when its turn comes. It aborts exactly
      when the search is too deep or a seed among the blocks it tries is not met. Otherwise it never ends. And
      completing means following the peer's chain. */
  lemma SyncTheorem(w: World, p: Params, s: State, peer: Chain, clock: Clock, k: nat)
    requires p.WellFormed() && Meets(w, p, s, peer, clock, k)
    ensures k < |peer| && Closed(w, s.blocks) && s.metaTip.Some? && s.metaTip.value in s.blocks
    ensures Completes(w, p, s, peer, clock) <==>
              Shallow(Best(w, s), k) && Moves(Best(w, s), peer, k) && TurnsMet(w, Best(w, s), peer, k, |peer|)
    ensures Aborts(w, p, s, peer, clock) <==>
              !Shallow(Best(w, s), k) || !TurnsMet(w, Best(w, s), peer, k, Tries(Best(w, s), peer, k))
    ensures (forall n :: SyncAfter(w, p, s, peer, clock, n).Continue?) <==>
              && Shallow(Best(w, s), k) && !Moves(Best(w, s), peer, k)
              && TurnsMet(w, Best(w, s), peer, k, Horizon(Best(w, s), peer))
    ensures forall n :: CompletesIn(w, p, s, peer, clock, n) ==>
              var r := SyncAfter(w, p, s, peer, clock, n); Inv(w, p, r.s) && Best(w, r.s) == peer
  {
    StartsHere(w, p, s, peer, clock, k);
    hide *;
    var ours := Best(w, s);
    MovesIs(ours, peer, k);
    if !Shallow(ours, k) {
      var m := TooDeep(w, p, s, peer, clock, k);
      EndsOnce(w, p, s, peer, clock, m);
    } else {
      var m: nat;
      if StartSettled(ours, peer, k) {
        m := SettledFate(w, p, s, peer, clock, k);
      } else {
        m := StrandedFate(w, p, s, peer, clock, k);
      }
      FateIs(w, p, s, peer, clock, k, m);
      if !SyncAfter(w, p, s, peer, clock, m).Continue? {
        EndsOnce(w, p, s, peer, clock, m);
      } else {
        NoEnd(w, p, s, peer, clock);
      }
    }
  }

  lemma NoEnd(w: World, p: Params, s: State, peer: Chain, clock: Clock)
    requires p.WellFormed() && Inv(w, p, s) && peer != []
    requires forall n: nat :: SyncAfter(w, p, s, peer, clock, n).Continue?
    ensures !Completes(w, p, s, peer, clock) && !Aborts(w, p, s, peer, clock)
    ensures forall n :: !CompletesIn(w, p, s, peer, clock, n)
  {
    hide Inv, SyncAfter;
  }
}
