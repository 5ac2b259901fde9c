/** The cached, incremental chain machine refines the naive one: keep every valid block, follow the heaviest replayable
    chain. */
module Consensus {
  import opened Prelude
  import opened Types
  import opened Utxo
  import opened Validation
  import opened Store
  import opened Difficulty
  import opened ForkChoice

  // ---- The naive machine ----------------------------------------------------

  /** All there is to know: the accepted blocks and the tip. */
  datatype Naive = Naive(blocks: Blocks, tip: Hash256)

  /** Keep every valid block; move the tip when the new chain is strictly heavier and replays from genesis. */
  ghost function NaiveSubmit(w: World, p: Params, n: Naive, b: Block, now: nat, seed: Hash256)
    : (Result<Block, StateError>, Naive)
    requires p.WellFormed() && StoreInv(w, p, n.blocks) && n.tip in n.blocks
  {
    var hash := w.BlockHash(b);
    if hash in n.blocks then (Err(AlreadyKnown), n)
    else if b.header.prev !in n.blocks then (Err(UnknownParent), n)
    else
      var past := ChainTo(w, n.blocks, b.header.prev);
      match ValidateBlock(w, p, Some(n.blocks[b.header.prev]), b, now, RequiredBits(p, past), seed)
      case Some(rule) => (Err(Invalid(rule)), n)
      case None =>
        var stored := n.(blocks := n.blocks[hash := b]);
        if ChainWork(past + [b]) <= ChainWork(ChainTo(w, n.blocks, n.tip)) then (Ok(b), stored)
        else match Replay(w, p, past + [b])
             case Err(e) => (Err(BadUtxo(e)), stored)
             case Ok(_) => (Ok(b), stored.(tip := hash))
  }

  // ---- Fork choice ----------------------------------------------------------

  /** A state whose caches are exact and whose store holds one block, `b`, that fork choice has not looked at yet. */
  ghost predicate Pending(w: World, p: Params, s: State, b: Block)
    requires p.WellFormed()
  {
    && StoreInv(w, p, s.blocks)
    && var hash := w.BlockHash(b);
    && hash in s.blocks && s.blocks[hash] == b
    && b.header.prev in s.blocks
    && ChainTo(w, s.blocks, hash) == ChainTo(w, s.blocks, b.header.prev) + [b]
    && s.metaTip.Some? && s.utxoTip == s.metaTip
    && var tip := s.metaTip.value;
    && tip in s.blocks && tip != hash
    && s.tipCache == Some(s.blocks[tip])
    && s.heightCache == Some(s.blocks[tip].header.height)
    && s.canonical == Index(w, Best(w, s))
    && Replay(w, p, Best(w, s)) == Ok(s.utxo)
    && s.disconnected == []
  }

  lemma {:induction false} ForkIndexShared(w: World, a: seq<Block>, b: seq<Block>)
    ensures var n := ForkIndex(w, a, b);
            && (forall i :: 0 <= i < n ==> w.BlockHash(a[i]) == w.BlockHash(b[i]))
            && (n < |a| && n < |b| ==> w.BlockHash(a[n]) != w.BlockHash(b[n]))
  {
    if a != [] && b != [] && w.BlockHash(a[0]) == w.BlockHash(b[0]) {
      ForkIndexShared(w, a[1..], b[1..]);
      var n := ForkIndex(w, a, b);
      forall i | 0 <= i < n ensures w.BlockHash(a[i]) == w.BlockHash(b[i]) {
        if i > 0 { assert w.BlockHash(a[1..][i - 1]) == w.BlockHash(b[1..][i - 1]); }
      }
    }
  }

  lemma ForkOfExtension(w: World, a: seq<Block>, b: Block)
    ensures ForkIndex(w, a, a + [b]) == |a|
  {
    ForkIndexShared(w, a, a + [b]);
  }

  lemma IndexOfExtension(w: World, chain: seq<Block>, b: Block)
    requires b.header.height == |chain|
    ensures Index(w, chain)[b.header.height := w.BlockHash(b)] == Index(w, chain + [b])
  {
  }

  lemma IndexOfReorg(w: World, oldChain: seq<Block>, chain: seq<Block>)
    requires oldChain != []
    ensures ReorgIndex(w, Index(w, oldChain), chain, |oldChain| - 1) == Index(w, chain)
  {
  }

  /** Validating on the seed and applying the delta is applying the block to the full set. */
  lemma FastPath(w: World, p: Params, s: State, b: Block)
    requires b.txs != []
    ensures ApplyBlock(w, p, s.utxo, b)
         == match CheckBlock(w, p, Seed(s.utxo, b.txs[1..]), b)
            case Err(e) => Err(e)
            case Ok(_) => Ok(Effect(s.utxo, b))
  {
    SeededVerdict(w, p, s.utxo, b);
  }

  /** On the fast path the new index and set are those of the extended chain, and nothing is dropped. */
  lemma ExtendMeetsSpec(w: World, p: Params, s: State, best: seq<Block>, b: Block)
    requires b.txs != [] && b.header.height == |best|
    requires Replay(w, p, best) == Ok(s.utxo) && s.canonical == Index(w, best)
    ensures var chain := best + [b];
            match CheckBlock(w, p, Seed(s.utxo, b.txs[1..]), b)
            case Err(e) => Replay(w, p, chain) == Err(e)
            case Ok(_) =>
              && Replay(w, p, chain) == Ok(Effect(s.utxo, b))
              && s.canonical[b.header.height := w.BlockHash(b)] == Index(w, chain)
              && best[ForkIndex(w, best, chain)..] == []
  {
    var chain := best + [b];
    assert chain[..|chain| - 1] == best;
    FastPath(w, p, s, b);
    IndexOfExtension(w, best, b);
    ForkOfExtension(w, best, b);
  }

  lemma ExtensionShape(w: World, p: Params, s: State, b: Block)
    requires p.WellFormed() && Pending(w, p, s, b) && Some(b.header.prev) == s.metaTip
    ensures ChainTo(w, s.blocks, w.BlockHash(b)) == Best(w, s) + [b]
    ensures b.txs != [] && b.header.height == |Best(w, s)|
  {
    assert AcceptedAt(w, p, s.blocks, w.BlockHash(b));
  }

  /** Whichever path it takes, fork choice adopts exactly the chains that are heavier and replay, and writes exactly
      their index, their UTXO set, and the old chain's blocks past the fork. */
  lemma ChooseMeetsSpec(w: World, p: Params, s: State, b: Block)
    requires p.WellFormed() && Pending(w, p, s, b)
    ensures var chain := ChainTo(w, s.blocks, w.BlockHash(b));
            Choose(w, p, s, b) ==
              if ChainWork(chain) <= ChainWork(Best(w, s)) then (Ok(b), s)
              else match Replay(w, p, chain)
                   case Err(e) => (Err(BadUtxo(e)), s)
                   case Ok(utxo) =>
                     (Ok(b), Adopt(s, w.BlockHash(b), b, Index(w, chain), utxo,
                                   Best(w, s)[ForkIndex(w, Best(w, s), chain)..]))
  {
    assert Filed(w, s.blocks, s.metaTip.value);
    if b.header.prev == s.metaTip.value {
      ExtensionShape(w, p, s, b);
      ExtendMeetsSpec(w, p, s, Best(w, s), b);
    } else {
      IndexOfReorg(w, Best(w, s), ChainTo(w, s.blocks, w.BlockHash(b)));
    }
  }

  lemma AdoptKeepsInv(w: World, p: Params, s: State, b: Block, utxo: UtxoMap, dropped: seq<Block>)
    requires p.WellFormed() && Pending(w, p, s, b)
    requires var chain := ChainTo(w, s.blocks, w.BlockHash(b));
             ChainWork(chain) > ChainWork(Best(w, s)) && Replay(w, p, chain) == Ok(utxo)
    ensures Inv(w, p, Adopt(s, w.BlockHash(b), b, Index(w, ChainTo(w, s.blocks, w.BlockHash(b))), utxo, dropped))
  {
  }

  lemma KeepInv(w: World, p: Params, s: State, b: Block)
    requires p.WellFormed() && Pending(w, p, s, b)
    requires var chain := ChainTo(w, s.blocks, w.BlockHash(b));
             ChainWork(chain) <= ChainWork(Best(w, s)) || Replay(w, p, chain).Err?
    ensures Inv(w, p, s)
  {
  }

  lemma StoredIsPending(w: World, p: Params, s: State, s1: State, b: Block, now: nat)
    requires p.WellFormed() && Inv(w, p, s) && EnsureSynced(w, p, s) == Ok(s1)
    requires w.BlockHash(b) !in s.blocks && b.header.prev in s1.blocks
    requires ValidateBlock(w, p, Some(s1.blocks[b.header.prev]), b, now,
                           RequiredBits(p, ChainTo(w, s1.blocks, b.header.prev)),
                           EpochSeed(w, s1, b.header.height)).None?
    ensures Pending(w, p, s1.(blocks := s1.blocks[w.BlockHash(b) := b], disconnected := []), b)
  {
    SyncNeverFails(w, p, s);
    Stored(w, p, s, s1, b, now);
  }

  // ---- Main theorems --------------------------------------------------------

  ghost predicate Follows(w: World, p: Params, s: State, n: Naive)
    requires p.WellFormed()
  {
    Inv(w, p, s) && s.blocks == n.blocks && s.metaTip == Some(n.tip)
  }

  /** After a block is stored, fork choice steps like the naive machine. */
  lemma ChooseRefines(w: World, p: Params, s: State, b: Block)
    requires p.WellFormed() && Pending(w, p, s, b)
    ensures var (r, s') := Choose(w, p, s, b);
            var chain := ChainTo(w, s.blocks, w.BlockHash(b));
            && Inv(w, p, s')
            && s'.blocks == s.blocks && (r.Ok? ==> s'.utxoTip == s'.metaTip)
            && if ChainWork(chain) <= ChainWork(Best(w, s)) then r == Ok(b) && s'.metaTip == s.metaTip
               else match Replay(w, p, chain)
                    case Err(e) => r == Err(BadUtxo(e)) && s'.metaTip == s.metaTip
                    case Ok(_) => r == Ok(b) && s'.metaTip == Some(w.BlockHash(b))
  {
    ChooseMeetsSpec(w, p, s, b);
    var chain := ChainTo(w, s.blocks, w.BlockHash(b));
    if ChainWork(chain) <= ChainWork(Best(w, s)) || Replay(w, p, chain).Err? {
      KeepInv(w, p, s, b);
    } else {
      AdoptKeepsInv(w, p, s, b, Replay(w, p, chain).value, Best(w, s)[ForkIndex(w, Best(w, s), chain)..]);
    }
  }

  lemma SeedIgnoresUtxo(w: World, s: State, s': State, height: nat)
    requires s'.canonical == s.canonical && s'.blocks == s.blocks
    ensures EpochSeed(w, s', height) == EpochSeed(w, s, height)
  {
  }

  /** Every submission gives the naive machine's verdict and leaves the naive machine's store and tip, with every
      cache again exact (`Inv`); the UTXO set is stamped with the tip whenever the block was accepted. */
  lemma SubmitRefines(w: World, p: Params, s: State, n: Naive, b: Block, now: nat)
    requires p.WellFormed() && Follows(w, p, s, n)
    ensures var (r, s') := Submit(w, p, s, b, now);
            var (r', n') := NaiveSubmit(w, p, n, b, now, EpochSeed(w, s, b.header.height));
            r == r' && Follows(w, p, s', n') && (r.Ok? ==> s'.utxoTip == s'.metaTip)
  {
    hide EpochSeed, RequiredBits;
    var hash := w.BlockHash(b);
    if hash !in s.blocks {
      SyncNeverFails(w, p, s);
      var s1 := EnsureSynced(w, p, s).value;
      SeedIgnoresUtxo(w, s, s1, b.header.height);
      if b.header.prev in s.blocks {
        var bits := RequiredBits(p, ChainTo(w, s.blocks, b.header.prev));
        if ValidateBlock(w, p, Some(s.blocks[b.header.prev]), b, now, bits, EpochSeed(w, s, b.header.height)).None? {
          StoredIsPending(w, p, s, s1, b, now);
          Stored(w, p, s, s1, b, now);
          ChooseRefines(w, p, s1.(blocks := s1.blocks[hash := b], disconnected := []), b);
        }
      }
    }
  }
}
