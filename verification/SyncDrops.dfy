/** What a completed catch-up leaves for requeueing, and exactly when every payment of the old chain survives it. */
module SyncDrops {
  import opened Prelude
  import opened Types
  import opened Utxo
  import opened Validation
  import opened Store
  import opened Difficulty
  import opened ForkChoice
  import opened Consensus
  import opened Submission
  import opened Runs
  import opened Sync
  import opened SyncFate

  // ---- The disconnected list along the loop ----------------------------------

  lemma ChoiceErrors(w: World, p: Params, s: State, b: Block)
    requires Closed(w, s.blocks) && w.BlockHash(b) in s.blocks && s.metaTip.Some? && s.metaTip.value in s.blocks
    ensures Choose(w, p, s, b).0.Err? ==> Choose(w, p, s, b).0.error.BadUtxo?
  {
    hide Closed, CheckBlock, Replay, ChainTo, WorkAt, ForkIndex, Effect, Seed;
  }

  /** A refused block leaves the list as it was. */
  lemma RefusalKeepsList(w: World, p: Params, s: State, b: Block, now: nat)
    requires p.WellFormed() && Inv(w, p, s)
    ensures var (r, s') := Submit(w, p, s, b, now);
            r.Err? && (r.error.AlreadyKnown? || r.error.UnknownParent? || r.error.Invalid?) ==>
              s'.disconnected == s.disconnected
  {
    SyncNeverFails(w, p, s);
    if Submit(w, p, s, b, now).0.Err? && !Submit(w, p, s, b, now).0.error.BadUtxo? {
      var s1 := EnsureSynced(w, p, s).value;
      hide Inv, RequiredBits, EpochSeed, ValidateBlock, Replay, ChainTo, EnsureSynced, Choose;
      if w.BlockHash(b) !in s.blocks && b.header.prev in s1.blocks {
        if ValidateBlock(w, p, Some(s1.blocks[b.header.prev]), b, now,
                         RequiredBits(p, ChainTo(w, s1.blocks, b.header.prev)), EpochSeed(w, s1, b.header.height)).None?
        {
          Stored(w, p, s, s1, b, now);
          ChoiceErrors(w, p, s1.(blocks := s1.blocks[w.BlockHash(b) := b], disconnected := []), b);
        }
      }
    }
  }

  /** One peer block: acceptance replaces the list by what it takes off the chain, a refusal keeps it. */
  lemma PeerBlockList(w: World, p: Params, s: State, best: Chain, peer: Chain, now: nat, k: nat, i: nat)
    requires p.WellFormed() && FollowsBest(w, p, s, best, peer, k) && i < |peer| && Honest(w, p, peer, now)
    ensures Inv(w, p, s)
    ensures Submit(w, p, s, peer[i], now).1.disconnected ==
              if i == k + 1 && MeetsOn(w, best, peer, i) then best[ForkIndex(w, best, Heavier(best, peer[..i + 1]))..]
              else s.disconnected
  {
    hide *;
    InSync(w, p, s, best, peer, k);
    SubmitPeerBlock(w, p, s, best, peer, now, k, i);
    RefusalKeepsList(w, p, s, peer[i], now);
    if i == k + 1 && MeetsOn(w, best, peer, i) {
      DroppedIsOldMinusNew(w, p, s, peer[i], now);
      InSync(w, p, Submit(w, p, s, peer[i], now).1, Heavier(best, peer[..i + 1]), peer, i);
    }
  }

  /** The chain followed when the peer's blocks are known up to `k`, of which those up to `start` were from the start.
      */
  function FollowedAt(ours: Chain, peer: Chain, start: nat, k: nat): Chain
    requires k < |peer|
  {
    if k == start then ours else After(ours, peer, k)
  }

  /** What accepting the peer's block at `k` takes off the chain followed. */
  function ListAt(w: World, ours: Chain, peer: Chain, start: nat, k: nat): seq<Block>
    requires start < k < |peer|
  {
    var was, becomes := FollowedAt(ours, peer, start, k - 1), After(ours, peer, k);
    was[ForkIndex(w, was, becomes)..]
  }

  /** Somewhere along the loop: known up to `k`, on the chain that makes, with the list of the last acceptance. */
  ghost predicate Along(w: World, p: Params, s: State, ours: Chain, peer: Chain, start: nat, k: nat)
    requires p.WellFormed()
  {
    && start <= k < |peer| && FollowsBest(w, p, s, FollowedAt(ours, peer, start, k), peer, k)
    && (k > start ==> s.disconnected == ListAt(w, ours, peer, start, k))
  }

  lemma AlongIs(w: World, p: Params, s: State, ours: Chain, peer: Chain, start: nat, k: nat)
    requires p.WellFormed()
    ensures Along(w, p, s, ours, peer, start, k) <==>
              && start <= k < |peer| && FollowsBest(w, p, s, FollowedAt(ours, peer, start, k), peer, k)
              && (k > start ==> s.disconnected == ListAt(w, ours, peer, start, k))
    ensures Along(w, p, s, ours, peer, start, k) ==> Inv(w, p, s)
  {
    hide Inv, Best, Knows, ListAt, FollowedAt;
  }

  /** The chain followed next. */
  lemma FollowedNext(w: World, ours: Chain, peer: Chain, start: nat, k: nat)
    requires start <= k && k + 1 < |peer| && Work(peer) <= U128_MAX
    ensures var was := FollowedAt(ours, peer, start, k);
            && FollowedAt(ours, peer, start, k + 1) == Heavier(was, peer[..k + 2])
            && ListAt(w, ours, peer, start, k + 1) == was[ForkIndex(w, was, Heavier(was, peer[..k + 2]))..]
  {
    AfterStep(ours, peer, k);
    hide Heavier, ForkIndex;
    AfterIs(ours, peer, k + 1);
  }

  /** One submission of any of the peer's blocks. */
  lemma SubmitAlong(w: World, p: Params, s: State, ours: Chain, peer: Chain, now: nat, start: nat, k: nat, i: nat)
    returns (k': nat)
    requires p.WellFormed() && Along(w, p, s, ours, peer, start, k) && i < |peer| && Honest(w, p, peer, now)
    ensures Inv(w, p, s) && Along(w, p, Submit(w, p, s, peer[i], now).1, ours, peer, start, k')
  {
    hide *;
    AlongIs(w, p, s, ours, peer, start, k);
    var best := FollowedAt(ours, peer, start, k);
    SubmitPeerBlock(w, p, s, best, peer, now, k, i);
    PeerBlockList(w, p, s, best, peer, now, k, i);
    k' := k;
    if i == k + 1 && MeetsOn(w, best, peer, i) {
      HonestReplays(w, p, peer, now, 0);
      FollowedNext(w, ours, peer, start, k);
      k' := k + 1;
    }
    AlongIs(w, p, Submit(w, p, s, peer[i], now).1, ours, peer, start, k');
  }

  lemma {:induction false} BatchAlong(w: World, p: Params, s: State, ours: Chain, peer: Chain, clock: Clock, tick: nat,
                                      start: nat, k: nat, from: nat, i: nat, hi: nat, count: nat)
    returns (k': nat)
    requires p.WellFormed() && Along(w, p, s, ours, peer, start, k) && HonestBy(w, p, peer, clock)
    requires i <= hi <= |peer|
    ensures Inv(w, p, s)
    ensures Along(w, p, SubmitBatch(w, p, s, peer[i..hi], from, clock, tick, count).s, ours, peer, start, k')
    decreases hi - i
  {
    hide *;
    AlongIs(w, p, s, ours, peer, start, k);
    if i == hi {
      assert peer[i..hi] == [];
      BatchEmpty(w, p, s, from, clock, tick, count);
      k' := k;
    } else {
      HonestAt(w, p, peer, clock, tick);
      k' := SubmitAlong(w, p, s, ours, peer, clock(tick), start, k, i);
      BatchHead(w, p, s, peer[i..hi], from, clock, tick, count);
      assert peer[i..hi][0] == peer[i] && peer[i..hi][1..] == peer[i + 1..hi];
      var (r, s') := Submit(w, p, s, peer[i], clock(tick));
      if r.Ok? || r.error == AlreadyKnown {
        k' := BatchAlong(w, p, s', ours, peer, clock, tick + 1, start, k', from, i + 1, hi, count + 1);
      }
    }
  }

  function StateOf(r: Outcome): State { if r.Continue? then r.cursor.s else r.s }

  lemma RoundState(w: World, p: Params, c: Cursor, peer: Chain, remote: nat, clock: Clock)
    requires p.WellFormed() && Inv(w, p, c.s)
    ensures StateOf(Round(w, p, c, peer, remote, clock)) ==
              if Fetch(peer, c.from) == [] then c.s
              else SubmitBatch(w, p, c.s, Fetch(peer, c.from), c.from, clock, c.tick, 0).s
  {
    hide Inv, SubmitBatch, Fetch;
  }

  lemma RoundAlong(w: World, p: Params, c: Cursor, ours: Chain, peer: Chain, clock: Clock, start: nat, k: nat)
    returns (k': nat)
    requires p.WellFormed() && Along(w, p, c.s, ours, peer, start, k) && HonestBy(w, p, peer, clock)
    ensures Inv(w, p, c.s) && peer != []
    ensures Along(w, p, StateOf(Round(w, p, c, peer, |peer| - 1, clock)), ours, peer, start, k')
  {
    hide *;
    AlongIs(w, p, c.s, ours, peer, start, k);
    RoundState(w, p, c, peer, |peer| - 1, clock);
    k' := k;
    if Fetch(peer, c.from) != [] {
      FetchedPart(peer, c.from);
      k' := BatchAlong(w, p, c.s, ours, peer, clock, c.tick, start, k, c.from, c.from, BatchEnd(c.from, peer), 0);
    }
  }

  lemma FetchedPart(peer: Chain, from: nat)
    requires Fetch(peer, from) != []
    ensures from <= BatchEnd(from, peer) <= |peer| && Fetch(peer, from) == peer[from..BatchEnd(from, peer)]
  {
  }

  lemma {:induction false} RoundsAlong(w: World, p: Params, c: Cursor, ours: Chain, peer: Chain, clock: Clock,
                                       start: nat, k: nat, n: nat)
    returns (k': nat)
    requires p.WellFormed() && Along(w, p, c.s, ours, peer, start, k) && HonestBy(w, p, peer, clock)
    ensures Inv(w, p, c.s) && peer != []
    ensures Along(w, p, StateOf(Rounds(w, p, c, peer, |peer| - 1, clock, n)), ours, peer, start, k')
    decreases n
  {
    hide *;
    AlongIs(w, p, c.s, ours, peer, start, k);
    RoundsUnfold(w, p, c, peer, |peer| - 1, clock, n);
    k' := k;
    if n == 0 {
      ContinuesFrom(c);
    } else {
      k' := RoundAlong(w, p, c, ours, peer, clock, start, k);
      var r := Round(w, p, c, peer, |peer| - 1, clock);
      if r.Continue? {
        ContinuesFrom(r.cursor);
        k' := RoundsAlong(w, p, r.cursor, ours, peer, clock, start, k', n - 1);
      }
    }
  }

  lemma ContinuesFrom(c: Cursor)
    ensures StateOf(Continue(c)) == c.s
  {
  }

  // ---- What is left at the end -----------------------------------------------

  /** Our chain is followed until the peer's very last block: no block before it is new and outweighs us. */
  predicate SwitchesLast(ours: Chain, peer: Chain, k: nat)
    requires k < |peer|
  {
    k + 2 >= |peer| || !Outweighs(peer[..|peer| - 1], ours)
  }

  /** The blocks of the old chain left for requeueing. */
  function LeftOver(w: World, ours: Chain, peer: Chain, k: nat): seq<Block>
    requires k < |peer|
  {
    if SwitchesLast(ours, peer, k) then ours[ForkIndex(w, ours, peer)..] else []
  }

  lemma LastList(w: World, ours: Chain, peer: Chain, k: nat)
    requires k + 1 < |peer| && After(ours, peer, |peer| - 1) == peer
    ensures ListAt(w, ours, peer, k, |peer| - 1) == LeftOver(w, ours, peer, k)
  {
    var n := |peer| - 1;
    hide ChainWork;
    if !SwitchesLast(ours, peer, k) {
      assert peer[..n] + [peer[n]] == peer;
      ForkOfExtension(w, peer[..n], peer[n]);
    }
  }

  /** The chain followed has grown to the peer's only when all of it is known. */
  lemma AllKnown(ours: Chain, peer: Chain, start: nat, k: nat)
    requires k < |peer| && |ours| < |peer| && FollowedAt(ours, peer, start, k) == peer
    ensures k == |peer| - 1 > start || k == |peer| - 1 < start
    ensures After(ours, peer, |peer| - 1) == peer
  {
    hide ChainWork;
  }

  /** A completed catch-up leaves the whole of the old chain above the fork for requeueing if the peer's last block is
      the one that outweighed us, and nothing at all if it was an earlier one: the blocks after it empty the list. */
  lemma CatchUpLeaves(w: World, p: Params, s: State, peer: Chain, clock: Clock, k: nat, n: nat)
    requires p.WellFormed() && Meets(w, p, s, peer, clock, k) && k < |peer| && Inv(w, p, s) && peer != []
    requires CompletesIn(w, p, s, peer, clock, n)
    ensures Closed(w, s.blocks) && s.metaTip.Some? && s.metaTip.value in s.blocks
    ensures SyncAfter(w, p, s, peer, clock, n).Done?
    ensures SyncAfter(w, p, s, peer, clock, n).s.disconnected == LeftOver(w, Best(w, s), peer, k)
  {
    hide *;
    StartsHere(w, p, s, peer, clock, k);
    SyncTheorem(w, p, s, peer, clock, k);
    SyncAfterIs(w, p, s, peer, clock, n);
    var ours := Best(w, s);
    StartAlong(ours, peer, k);
    AlongIs(w, p, s, ours, peer, k, k);
    var k' := RoundsAlong(w, p, Start(s), ours, peer, clock, k, k, n);
    var r := SyncAfter(w, p, s, peer, clock, n);
    DoneAt(r);
    AlongIs(w, p, r.s, ours, peer, k, k');
    InSync(w, p, r.s, FollowedAt(ours, peer, k, k'), peer, k');
    AllKnown(ours, peer, k, k');
    LastList(w, ours, peer, k);
  }

  lemma StartAlong(ours: Chain, peer: Chain, k: nat)
    requires k < |peer|
    ensures FollowedAt(ours, peer, k, k) == ours
  {
  }

  lemma DoneAt(r: Outcome)
    ensures r.Done? ==> StateOf(r) == r.s
  {
  }

  // ---- Payments --------------------------------------------------------------

  ghost predicate OnChain(tx: Transaction, chain: Chain) { exists b :: b in chain && tx in b.txs }

  /** A payment has a home after the catch-up: on the peer's chain, or among the requeue candidates. */
  ghost predicate HasHome(tx: Transaction, peer: Chain, dropped: seq<Block>) {
    OnChain(tx, peer) || tx in RequeueCandidates(dropped)
  }

  /** Every payment in these blocks has. */
  ghost predicate AllHome(blocks: seq<Block>, peer: Chain, dropped: seq<Block>) {
    forall b, tx :: b in blocks && tx in b.txs && !tx.IsCoinbase() ==> HasHome(tx, peer, dropped)
  }

  ghost predicate AllOnChain(blocks: seq<Block>, peer: Chain) {
    forall b, tx :: b in blocks && tx in b.txs && !tx.IsCoinbase() ==> OnChain(tx, peer)
  }

  /** Blocks below the fork are shared. */
  lemma SharedBelow(w: World, blocks: Blocks, ours: Chain, peer: Chain, k: nat)
    requires Knows(w, blocks, peer, k)
    requires forall i :: 0 <= i < |ours| ==> w.BlockHash(ours[i]) in blocks && blocks[w.BlockHash(ours[i])] == ours[i]
    ensures forall i :: 0 <= i < ForkIndex(w, ours, peer) ==> ours[i] == peer[i]
  {
    ForkIndexShared(w, ours, peer);
    hide ForkIndex;
    forall i | 0 <= i < ForkIndex(w, ours, peer) ensures ours[i] == peer[i] {
      assert w.BlockHash(peer[i]) in blocks;
    }
  }

  lemma HomesExactly(w: World, ours: Chain, peer: Chain, k: nat)
    requires k < |peer| && forall i :: 0 <= i < ForkIndex(w, ours, peer) ==> ours[i] == peer[i]
    ensures AllHome(ours, peer, LeftOver(w, ours, peer, k)) <==>
              SwitchesLast(ours, peer, k) || AllOnChain(ours[ForkIndex(w, ours, peer)..], peer)
  {
    hide ForkIndex, SwitchesLast;
    var fork := ForkIndex(w, ours, peer);
    var dropped := LeftOver(w, ours, peer, k);
    if SwitchesLast(ours, peer, k) {
      forall b, tx | b in ours && tx in b.txs && !tx.IsCoinbase() ensures HasHome(tx, peer, dropped) {
        var i :| 0 <= i < |ours| && ours[i] == b;
        if i < fork {
          assert peer[i] == b;
        } else {
          assert ours[fork..][i - fork] == b;
          CandidatesKeep(dropped, b, tx);
        }
      }
    } else {
      assert RequeueCandidates(dropped) == [];
      if AllOnChain(ours[fork..], peer) {
        forall b, tx | b in ours && tx in b.txs && !tx.IsCoinbase() ensures HasHome(tx, peer, dropped) {
          var i :| 0 <= i < |ours| && ours[i] == b;
          if i < fork { assert peer[i] == b; } else { assert ours[fork..][i - fork] == b; }
        }
      }
      if AllHome(ours, peer, dropped) {
        forall b, tx | b in ours[fork..] && tx in b.txs && !tx.IsCoinbase() ensures OnChain(tx, peer) {
          assert b in ours;
          assert HasHome(tx, peer, dropped);
        }
      }
    }
  }

  /** A completed catch-up loses no payment of the old chain exactly when the peer's last block is the one that
      outweighed us, or every payment above the fork is on the peer's chain as well. */
  lemma CatchUpKeepsPayments(w: World, p: Params, s: State, peer: Chain, clock: Clock, k: nat, n: nat)
    requires p.WellFormed() && Meets(w, p, s, peer, clock, k) && k < |peer| && Inv(w, p, s) && peer != []
    requires CompletesIn(w, p, s, peer, clock, n)
    ensures Closed(w, s.blocks) && s.metaTip.Some? && s.metaTip.value in s.blocks
    ensures var ours, r := Best(w, s), SyncAfter(w, p, s, peer, clock, n);
            && r.Done?
            && (AllHome(ours, peer, r.s.disconnected) <==>
                  SwitchesLast(ours, peer, k) || AllOnChain(ours[ForkIndex(w, ours, peer)..], peer))
  {
    hide *;
    StartsHere(w, p, s, peer, clock, k);
    CatchUpLeaves(w, p, s, peer, clock, k, n);
    MeetsFacts(w, p, s, peer, clock, k);
    OursStored(w, p, s);
    SharedBelow(w, s.blocks, Best(w, s), peer, k);
    HomesExactly(w, Best(w, s), peer, k);
  }

  lemma OursStored(w: World, p: Params, s: State)
    requires p.WellFormed() && Inv(w, p, s) && Closed(w, s.blocks) && s.metaTip.Some? && s.metaTip.value in s.blocks
    ensures forall i :: 0 <= i < |Best(w, s)| ==>
              var h := w.BlockHash(Best(w, s)[i]); h in s.blocks && s.blocks[h] == Best(w, s)[i]
  {
    hide Inv;
    ChainToLinked(w, s.blocks, s.metaTip.value);
  }
}
