/** What a submission leaves behind: the tip, the height index, the dropped blocks, and stored chains' difficulty. */
module Submission {
  import opened Prelude
  import opened Types
  import opened Utxo
  import opened Validation
  import opened Store
  import opened Difficulty
  import opened ForkChoice
  import opened Consensus

  // ---- The tip --------------------------------------------------------------

  lemma NaiveTip(w: World, p: Params, n: Naive, b: Block, now: nat, seed: Hash256)
    requires p.WellFormed() && StoreInv(w, p, n.blocks) && n.tip in n.blocks
    ensures var (r, n') := NaiveSubmit(w, p, n, b, now, seed);
            && Closed(w, n'.blocks) && n'.tip in n'.blocks && n.tip in n'.blocks
            && ChainTo(w, n'.blocks, n.tip) == ChainTo(w, n.blocks, n.tip)
            && (r.Err? ==> n'.tip == n.tip)
            && (n'.tip != n.tip ==>
                  n'.tip == w.BlockHash(b)
                    && ChainWork(ChainTo(w, n'.blocks, n'.tip)) > ChainWork(ChainTo(w, n.blocks, n.tip)))
  {
    var bits := if b.header.prev in n.blocks then RequiredBits(p, ChainTo(w, n.blocks, b.header.prev)) else 0;
    if b.header.prev in n.blocks && ValidateBlock(w, p, Some(n.blocks[b.header.prev]), b, now, bits, seed).None? {
      assert b.header.height == n.blocks[b.header.prev].header.height + 1;
    }
    hide RequiredBits, Replay, ChainWork, AcceptedAt, OneGenesis, ValidateBlock, Filed, ChainTo;
    if w.BlockHash(b) !in n.blocks && b.header.prev in n.blocks
       && b.header.height == n.blocks[b.header.prev].header.height + 1
    {
      ZeroIsNotStored(w, n.blocks);
      Insert(w, n.blocks, b);
    }
  }

  /** A failed submission moves nothing; a successful one moves the tip only to strictly more work, so ties keep
      the first block seen. */
  lemma TipMovesUpOnly(w: World, p: Params, s: State, b: Block, now: nat)
    requires p.WellFormed() && Inv(w, p, s) && s.metaTip.Some?
    ensures var (r, s') := Submit(w, p, s, b, now);
            && s'.metaTip.Some? && Closed(w, s'.blocks) && s'.metaTip.value in s'.blocks
            && (r.Err? ==> s'.metaTip == s.metaTip && s'.canonical == s.canonical && s'.tipCache == s.tipCache)
            && (s'.metaTip == s.metaTip ==> Best(w, s') == Best(w, s))
            && (s'.metaTip != s.metaTip ==>
                  s'.metaTip == Some(w.BlockHash(b)) && ChainWork(Best(w, s')) > ChainWork(Best(w, s)))
  {
    var n := Naive(s.blocks, s.metaTip.value);
    var seed := EpochSeed(w, s, b.header.height);
    SubmitRefines(w, p, s, n, b, now);
    NaiveTip(w, p, n, b, now, seed);
    hide Submit, NaiveSubmit, EpochSeed, Replay, ChainWork, AcceptedAt;
  }

  /** Heights 0 to the tip's map to the tip's ancestors and nothing is above them, so reading by height, iterating
      in key order, and walking parents all agree. */
  lemma IndexIsExact(w: World, p: Params, s: State, height: nat)
    requires p.WellFormed() && Inv(w, p, s)
    ensures BlockAtHeight(s, height) == if height < |Best(w, s)| then Some(Best(w, s)[height]) else None
    ensures CanonicalBlocks(s.canonical, s.blocks) == Best(w, s)
  {
    if s.metaTip.Some? {
      ChainToLinked(w, s.blocks, s.metaTip.value);
      IndexIteration(w, s.blocks, s.metaTip.value);
    }
  }

  // ---- Dropped blocks -------------------------------------------------------

  /** Stored chains that meet at a height agree below it. */
  lemma SameAncestors(w: World, blocks: Blocks, h: Hash256, k: Hash256, i: nat, n: nat)
    requires Closed(w, blocks) && h in blocks && k in blocks && n <= i
    requires i < |ChainTo(w, blocks, h)| && i < |ChainTo(w, blocks, k)|
    requires ChainTo(w, blocks, h)[i] == ChainTo(w, blocks, k)[i]
    ensures ChainTo(w, blocks, h)[n] == ChainTo(w, blocks, k)[n]
  {
    ChainToPrefix(w, blocks, h, i);
    ChainToPrefix(w, blocks, k, i);
    var shared := ChainTo(w, blocks, w.BlockHash(ChainTo(w, blocks, h)[i]));
    assert shared[n] == ChainTo(w, blocks, h)[n];
  }

  /** Two stored chains share exactly the blocks below their fork index. */
  lemma SharedPrefix(w: World, blocks: Blocks, h: Hash256, k: Hash256, i: nat)
    requires Closed(w, blocks) && h in blocks && k in blocks
    requires i < |ChainTo(w, blocks, h)|
    ensures var a, b := ChainTo(w, blocks, h), ChainTo(w, blocks, k);
            a[i] in b <==> i < ForkIndex(w, a, b)
  {
    var a, b := ChainTo(w, blocks, h), ChainTo(w, blocks, k);
    ChainToLinked(w, blocks, h);
    ChainToLinked(w, blocks, k);
    ForkIndexShared(w, a, b);
    var n := ForkIndex(w, a, b);
    if i < n {
      assert blocks[w.BlockHash(a[i])] == a[i] && blocks[w.BlockHash(b[i])] == b[i];
      assert b[i] in b;
    } else if a[i] in b {
      var j :| 0 <= j < |b| && b[j] == a[i];
      assert j == i;
      SameAncestors(w, blocks, h, k, i, n);
      assert false;
    }
  }

  /** After a successful submission the dropped list is the old chain from the fork on: the old chain's blocks that
      are not on the new chain, in height order. */
  lemma DroppedIsOldMinusNew(w: World, p: Params, s: State, b: Block, now: nat)
    requires p.WellFormed() && Inv(w, p, s) && s.metaTip.Some? && Submit(w, p, s, b, now).0.Ok?
    ensures var s' := Submit(w, p, s, b, now).1;
            && s'.metaTip.Some? && Closed(w, s'.blocks) && s'.metaTip.value in s'.blocks
            && s'.disconnected == Best(w, s)[ForkIndex(w, Best(w, s), Best(w, s'))..]
            && forall x :: x in s'.disconnected <==> x in Best(w, s) && x !in Best(w, s')
  {
    var hash := w.BlockHash(b);
    var s' := Submit(w, p, s, b, now).1;
    SyncNeverFails(w, p, s);
    var s1 := EnsureSynced(w, p, s).value;
    Stored(w, p, s, s1, b, now);
    StoredIsPending(w, p, s, s1, b, now);
    var s2 := s1.(blocks := s1.blocks[hash := b], disconnected := []);
    assert (Submit(w, p, s, b, now)) == Choose(w, p, s2, b);
    DroppedByChoose(w, p, s2, b);
  }

  lemma DroppedByChoose(w: World, p: Params, s: State, b: Block)
    requires p.WellFormed() && Pending(w, p, s, b) && Choose(w, p, s, b).0.Ok?
    ensures var s' := Choose(w, p, s, b).1;
            && s'.metaTip.Some? && s'.blocks == s.blocks && s'.metaTip.value in s'.blocks
            && s'.disconnected == Best(w, s)[ForkIndex(w, Best(w, s), Best(w, s'))..]
            && forall x :: x in s'.disconnected <==> x in Best(w, s) && x !in Best(w, s')
  {
    ChooseMeetsSpec(w, p, s, b);
    hide Choose, StoreInv, Replay, ChainWork, WorkAt, Index;
    var s' := Choose(w, p, s, b).1;
    var was, becomes := Best(w, s), Best(w, s');
    if s' == s { ForkIndexShared(w, was, was); }
    var n := ForkIndex(w, was, becomes);
    forall i | 0 <= i < |was| ensures was[i] in becomes <==> i < n {
      SharedPrefix(w, s.blocks, s.metaTip.value, s'.metaTip.value, i);
    }
    SuffixIsRest(was, becomes, n);
  }

  /** When a chain's blocks below `n` are exactly those on another chain, the rest are those that are not. */
  lemma SuffixIsRest(was: seq<Block>, becomes: seq<Block>, n: nat)
    requires n <= |was| && forall i :: 0 <= i < |was| ==> (was[i] in becomes <==> i < n)
    ensures forall x :: x in was[n..] <==> x in was && x !in becomes
  {
    forall x ensures x in was[n..] <==> x in was && x !in becomes {
      if x in was[n..] {
        var i :| 0 <= i < |was| - n && was[n..][i] == x;
        assert was[n + i] == x;
      }
      if x in was && x !in becomes {
        var i :| 0 <= i < |was| && was[i] == x;
        assert was[n..][i - n] == x;
      }
    }
  }

  /** The list describes the latest submission only: it is empty exactly when the old chain is a prefix of the new one,
      whatever an earlier reorganisation had put there. */
  lemma ExtensionForgets(w: World, p: Params, s: State, b: Block, now: nat)
    requires p.WellFormed() && Inv(w, p, s) && s.metaTip.Some? && Submit(w, p, s, b, now).0.Ok?
    ensures var s' := Submit(w, p, s, b, now).1;
            && s'.metaTip.Some? && Closed(w, s'.blocks) && s'.metaTip.value in s'.blocks
            && (s'.disconnected == [] <==> Best(w, s) <= Best(w, s'))
  {
    DroppedIsOldMinusNew(w, p, s, b, now);
    var s' := Submit(w, p, s, b, now).1;
    var was, becomes := Best(w, s), Best(w, s');
    hide Submit, Inv, ForkIndex, ChainTo, Closed;
    if was <= becomes {
      PrefixMembers(was, becomes);
      if s'.disconnected != [] {
        FirstIsMember(s'.disconnected);
        assert false;
      }
    }
    if s'.disconnected == [] {
      BestLinked(w, p, s);
      LinkedIn(w, s', becomes);
      HeightsAlign(was, becomes);
    }
  }

  lemma BestLinked(w: World, p: Params, s: State)
    requires p.WellFormed() && Inv(w, p, s) && s.metaTip.Some?
    ensures forall i :: 0 <= i < |Best(w, s)| ==> Best(w, s)[i].header.height == i
  {
    ChainToLinked(w, s.blocks, s.metaTip.value);
  }

  lemma LinkedIn(w: World, s: State, chain: Chain)
    requires Closed(w, s.blocks) && s.metaTip.Some? && s.metaTip.value in s.blocks && chain == Best(w, s)
    ensures forall i :: 0 <= i < |chain| ==> chain[i].header.height == i
  {
    ChainToLinked(w, s.blocks, s.metaTip.value);
  }

  /** A chain all of whose blocks are on another is a prefix of it. */
  lemma HeightsAlign(was: Chain, becomes: Chain)
    requires forall i :: 0 <= i < |was| ==> was[i].header.height == i
    requires forall i :: 0 <= i < |becomes| ==> becomes[i].header.height == i
    requires forall x :: x in was ==> x in becomes
    ensures was <= becomes
  {
    forall i | 0 <= i < |was| ensures i < |becomes| && becomes[i] == was[i] {
      assert was[i] in was;
      var j :| 0 <= j < |becomes| && becomes[j] == was[i];
      assert j == i;
    }
    if was != [] {
      var last := was[|was| - 1];
      assert |was| <= |becomes|;
    }
  }

  lemma FirstIsMember(a: seq<Block>)
    requires a != []
    ensures a[0] in a
  {
  }

  lemma PrefixMembers(a: seq<Block>, b: seq<Block>)
    requires a <= b
    ensures forall x :: x in a ==> x in b
  {
    forall x | x in a ensures x in b {
      var i :| 0 <= i < |a| && a[i] == x;
      assert b[i] == x;
    }
  }

  lemma {:induction false} NonCoinbaseKeeps(txs: seq<Transaction>, tx: Transaction)
    requires tx in txs && !tx.IsCoinbase()
    ensures tx in NonCoinbase(txs)
  {
    if txs[0] != tx { NonCoinbaseKeeps(txs[1..], tx); }
  }

  lemma {:induction false} CandidatesKeep(dropped: seq<Block>, b: Block, tx: Transaction)
    requires b in dropped && tx in b.txs && !tx.IsCoinbase()
    ensures tx in RequeueCandidates(dropped)
  {
    if dropped[0] == b { NonCoinbaseKeeps(b.txs, tx); } else { CandidatesKeep(dropped[1..], b, tx); }
  }

  /** The candidates are exactly the dropped blocks' transactions that are no coinbases. */
  lemma {:induction false} CandidatesExactly(dropped: seq<Block>, tx: Transaction)
    ensures tx in RequeueCandidates(dropped) <==>
              !tx.IsCoinbase() && exists b :: b in dropped && tx in b.txs
  {
    if dropped != [] {
      CandidatesExactly(dropped[1..], tx);
      if tx in NonCoinbase(dropped[0].txs) { NonCoinbaseOnly(dropped[0].txs, tx); }
      assert dropped == [dropped[0]] + dropped[1..];
      if b :| b in dropped && tx in b.txs && !tx.IsCoinbase() { CandidatesKeep(dropped, b, tx); }
    }
  }

  lemma {:induction false} NonCoinbaseOnly(txs: seq<Transaction>, tx: Transaction)
    requires tx in NonCoinbase(txs)
    ensures tx in txs && !tx.IsCoinbase()
  {
    if tx in NonCoinbase(txs[1..]) { NonCoinbaseOnly(txs[1..], tx); }
  }

  /** No payment is lost in a reorganisation: each one on the old chain is on the new chain or up for requeueing. */
  lemma NoPaymentLost(w: World, p: Params, s: State, b: Block, now: nat, home: Block, tx: Transaction)
    requires p.WellFormed() && Inv(w, p, s) && s.metaTip.Some? && Submit(w, p, s, b, now).0.Ok?
    requires home in Best(w, s) && tx in home.txs && !tx.IsCoinbase()
    ensures var s' := Submit(w, p, s, b, now).1;
            && Closed(w, s'.blocks) && (s'.metaTip.Some? ==> s'.metaTip.value in s'.blocks)
            && (home in Best(w, s') || tx in RequeueCandidates(s'.disconnected))
  {
    DroppedIsOldMinusNew(w, p, s, b, now);
    var s' := Submit(w, p, s, b, now).1;
    hide Submit, Inv;
    if home !in Best(w, s') { CandidatesKeep(s'.disconnected, home, tx); }
  }

  // ---- Difficulty of stored chains ------------------------------------------

  /** Every stored chain obeys the retarget rule at every height. */
  lemma StoredChainsFollowBits(w: World, p: Params, s: State, h: Hash256)
    requires p.WellFormed() && Inv(w, p, s) && h in s.blocks
    ensures BitsFollow(p, ChainTo(w, s.blocks, h))
  {
    hide RequiredBits, UtxoInv, Index, Replay;
    var chain := ChainTo(w, s.blocks, h);
    ChainToLinked(w, s.blocks, h);
    forall i | 0 <= i < |chain| ensures chain[i].header.bits == RequiredBits(p, chain[..i]) {
      ChainToPrefix(w, s.blocks, h, i);
      var a := w.BlockHash(chain[i]);
      assert AcceptedAt(w, p, s.blocks, a);
      assert ChainTo(w, s.blocks, a)[..i] == chain[..i];
    }
  }

  /** Along every stored chain the bits stay in range, move by at most one per block, and are constant in every
      window after the first. */
  lemma StoredChainsRetarget(w: World, p: Params, s: State, h: Hash256, i: nat, j: nat)
    requires p.WellFormed() && Inv(w, p, s) && h in s.blocks
    requires i < |ChainTo(w, s.blocks, h)| && j < |ChainTo(w, s.blocks, h)|
    ensures var a, b := ChainTo(w, s.blocks, h)[i].header.bits, ChainTo(w, s.blocks, h)[j].header.bits;
            && p.minBits <= a <= p.maxBits
            && (j == i + 1 ==> b <= a + 1 && a <= b + 1)
            && (p.activation <= i && p.activation <= j && EpochOf(p, i) == EpochOf(p, j) > 0 ==> a == b)
  {
    var chain := ChainTo(w, s.blocks, h);
    StoredChainsFollowBits(w, p, s, h);
    hide Inv, RequiredBits;
    BitsInRange(p, chain, i);
    if j == i + 1 { AdjacentBits(p, chain, i); }
    if p.activation <= i && p.activation <= j && EpochOf(p, i) == EpochOf(p, j) > 0 { WindowConstant(p, chain, i, j); }
  }
}
