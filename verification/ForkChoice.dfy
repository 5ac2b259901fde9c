/** The chain state machine: one value per database column and cache, and one function per operation. */
module ForkChoice {
  import opened Prelude
  import opened Types
  import opened Utxo
  import opened Validation
  import opened Store
  import opened Difficulty

  const EPOCH_LENGTH: nat := 8_192

  datatype StateError =
    | GenesisAlreadyExists
    | MissingGenesis
    | MiningFailed
    | AlreadyKnown
    | UnknownParent
    | Invalid(rule: ValidationError)
    | BadUtxo(error: UtxoError)

  /** The columns `blocks`, `canonical` and `utxo`, the meta values `tip` and `utxo_tip`, and the in-memory caches. */
  datatype State = State(
    blocks: Blocks,
    canonical: map<nat, Hash256>,
    utxo: UtxoMap,
    metaTip: Option<Hash256>,
    utxoTip: Option<Hash256>,
    tipCache: Option<Block>,
    heightCache: Option<nat>,
    disconnected: seq<Block>)

  const EMPTY: State := State(map[], map[], map[], None, None, None, None, [])

  // ---- Reading the database -------------------------------------------------

  function TipHash(w: World, s: State): Hash256 {
    if s.tipCache.Some? then w.BlockHash(s.tipCache.value) else ZERO
  }

  function BlockAtHeight(s: State, height: nat): Option<Block> {
    if height in s.canonical && s.canonical[height] in s.blocks then Some(s.blocks[s.canonical[height]]) else None
  }

  /** The proof-of-work seed: the hash of the last canonical block of the previous epoch. */
  function EpochSeed(w: World, s: State, height: nat): Hash256 {
    var epoch := height / EPOCH_LENGTH;
    if epoch == 0 then ZERO
    else match BlockAtHeight(s, epoch * EPOCH_LENGTH - 1)
         case Some(b) => w.BlockHash(b)
         case None => ZERO
  }

  ghost function MinKey(keys: set<nat>): (k: nat)
    requires keys != {}
    ensures k in keys && forall j :: j in keys ==> k <= j
  {
    var k :| k in keys;
    if forall j :: j in keys ==> k <= j then k
    else
      var j :| j in keys && j < k;
      var below := set i | i in keys && i < k;
      assert j in below && k !in below;
      assert forall i :: i in keys ==> i in below || k <= i;
      MinKey(below)
  }

  /** Stored blocks in key order of the canonical column. */
  ghost function CanonicalBlocks(canonical: map<nat, Hash256>, blocks: Blocks): seq<Block>
    decreases |canonical|
  {
    if canonical == map[] then []
    else
      var k := MinKey(canonical.Keys);
      assert canonical == (canonical - {k})[k := canonical[k]];
      var rest := CanonicalBlocks(canonical - {k}, blocks);
      if canonical[k] in blocks then [blocks[canonical[k]]] + rest else rest
  }

  /** Work of the chain ending at `h`; zero when nothing is stored there. */
  ghost function WorkAt(w: World, blocks: Blocks, h: Hash256): nat
    requires Closed(w, blocks)
  {
    if h in blocks then ChainWork(ChainTo(w, blocks, h)) else 0
  }

  // ---- Invariant ------------------------------------------------------------

  /** The height index of a chain. */
  function Index(w: World, chain: seq<Block>): map<nat, Hash256> {
    map i: nat | i < |chain| :: w.BlockHash(chain[i])
  }

  /** What acceptance guarantees of a stored block, given its ancestry. */
  ghost predicate Accepted(w: World, p: Params, past: seq<Block>, b: Block)
    requires p.WellFormed()
  {
    && b.header.chainId == p.chainId
    && b.header.merkleRoot == w.MerkleRoot(b.txs)
    && b.header.bits == RequiredBits(p, past)
    && b.txs != [] && b.txs[0].IsCoinbase()
  }

  ghost predicate AcceptedAt(w: World, p: Params, blocks: Blocks, h: Hash256)
    requires p.WellFormed() && Closed(w, blocks) && h in blocks
  {
    Accepted(w, p, ChainTo(w, blocks, h)[..blocks[h].header.height], blocks[h])
  }

  ghost predicate OneGenesis(blocks: Blocks) {
    forall h, k :: h in blocks && k in blocks && blocks[h].header.prev == ZERO && blocks[k].header.prev == ZERO ==>
      h == k
  }

  ghost predicate StoreInv(w: World, p: Params, blocks: Blocks)
    requires p.WellFormed()
  {
    && Closed(w, blocks)
    && (forall h {:trigger AcceptedAt(w, p, blocks, h)} :: h in blocks ==> AcceptedAt(w, p, blocks, h))
    && OneGenesis(blocks)
  }

  /** The chain the node follows. */
  ghost function Best(w: World, s: State): seq<Block>
    requires Closed(w, s.blocks) && (s.metaTip.Some? ==> s.metaTip.value in s.blocks)
  {
    if s.metaTip.Some? then ChainTo(w, s.blocks, s.metaTip.value) else []
  }

  /** No stored block whose chain replays outweighs the tip, except perhaps those in `cut`. */
  ghost predicate HeaviestBut(w: World, p: Params, blocks: Blocks, tip: Hash256, cut: set<Hash256>)
    requires Closed(w, blocks)
  {
    forall h {:trigger WorkAt(w, blocks, h)} ::
      h in blocks && h !in cut && Replay(w, p, ChainTo(w, blocks, h)).Ok? ==>
        WorkAt(w, blocks, h) <= WorkAt(w, blocks, tip)
  }

  /** The persistent set replays the chain of the block it is stamped with; unstamped, it is empty. */
  ghost predicate UtxoInv(w: World, p: Params, s: State)
    requires Closed(w, s.blocks)
  {
    match s.utxoTip
    case None => s.utxo == map[]
    case Some(u) => u in s.blocks && Replay(w, p, ChainTo(w, s.blocks, u)) == Ok(s.utxo)
  }

  /** The store is sound, the index and the caches are exact for the tip, whose chain replays. */
  ghost predicate Inv(w: World, p: Params, s: State)
    requires p.WellFormed()
  {
    && StoreInv(w, p, s.blocks)
    && UtxoInv(w, p, s)
    && match s.metaTip
       case None => s == EMPTY
       case Some(t) =>
         && t in s.blocks
         && s.tipCache == Some(s.blocks[t])
         && s.heightCache == Some(s.blocks[t].header.height)
         && s.canonical == Index(w, Best(w, s))
         && Replay(w, p, Best(w, s)).Ok?
  }

  // ---- Operations -----------------------------------------------------------

  ghost function EnsureSynced(w: World, p: Params, s: State): Result<State, UtxoError>
  {
    if s.tipCache.None? || s.utxoTip == Some(TipHash(w, s)) then Ok(s)
    else
      match Replay(w, p, CanonicalBlocks(s.canonical, s.blocks))
      case Err(e) => Err(e)
      case Ok(set') => Ok(s.(utxo := set', utxoTip := Some(TipHash(w, s))))
  }

  /** Moves the tip to a stored block, with its index and UTXO set, as one batch. */
  function Adopt(s: State, h: Hash256, b: Block, index: map<nat, Hash256>, utxo: UtxoMap, dropped: seq<Block>): State {
    s.(canonical := index, utxo := utxo, metaTip := Some(h), utxoTip := Some(h),
       tipCache := Some(b), heightCache := Some(b.header.height), disconnected := dropped)
  }

  /** How many leading blocks two chains share, by hash. */
  function ForkIndex(w: World, a: seq<Block>, b: seq<Block>): (n: nat)
    ensures n <= |a| && n <= |b|
  {
    if a == [] || b == [] || w.BlockHash(a[0]) != w.BlockHash(b[0]) then 0 else 1 + ForkIndex(w, a[1..], b[1..])
  }

  /** The index after a reorganisation: the new chain's entries are put, the stale tail is deleted. */
  function ReorgIndex(w: World, canonical: map<nat, Hash256>, chain: seq<Block>, oldHeight: nat): map<nat, Hash256> {
    (canonical + Index(w, chain)) - (set h | h in canonical && |chain| <= h <= oldHeight)
  }

  /** Fork choice for a block that has just been stored. */
  ghost function Choose(w: World, p: Params, s: State, b: Block): (Result<Block, StateError>, State)
    requires Closed(w, s.blocks) && w.BlockHash(b) in s.blocks
    requires s.metaTip.Some? && s.metaTip.value in s.blocks
  {
    var hash := w.BlockHash(b);
    var tip := TipHash(w, s);
    if WorkAt(w, s.blocks, hash) <= WorkAt(w, s.blocks, tip) then (Ok(b), s)
    else if b.header.prev == tip then
      match CheckBlock(w, p, if b.txs == [] then map[] else Seed(s.utxo, b.txs[1..]), b)
      case Err(e) => (Err(BadUtxo(e)), s)
      case Ok(_) => (Ok(b), Adopt(s, hash, b, s.canonical[b.header.height := hash], Effect(s.utxo, b), []))
    else
      var chain := ChainTo(w, s.blocks, hash);
      match Replay(w, p, chain)
      case Err(e) => (Err(BadUtxo(e)), s)
      case Ok(set') =>
        var oldChain := ChainTo(w, s.blocks, s.metaTip.value);
        var index := ReorgIndex(w, s.canonical, chain, if s.heightCache.Some? then s.heightCache.value else 0);
        (Ok(b), Adopt(s, hash, b, index, set', oldChain[ForkIndex(w, oldChain, chain)..]))
  }

  ghost function Submit(w: World, p: Params, s: State, b: Block, now: nat): (Result<Block, StateError>, State)
    requires p.WellFormed() && Inv(w, p, s)
  {
    var hash := w.BlockHash(b);
    if hash in s.blocks then (Err(AlreadyKnown), s)
    else
      match EnsureSynced(w, p, s)
      case Err(e) => (Err(BadUtxo(e)), s)
      case Ok(s1) =>
        if b.header.prev !in s1.blocks then (Err(UnknownParent), s1)
        else
          var parent := s1.blocks[b.header.prev];
          var bits := RequiredBits(p, ChainTo(w, s1.blocks, b.header.prev));
          match ValidateBlock(w, p, Some(parent), b, now, bits, EpochSeed(w, s1, b.header.height))
          case Some(rule) => (Err(Invalid(rule)), s1)
          case None =>
            Stored(w, p, s, s1, b, now);
            Choose(w, p, s1.(blocks := s1.blocks[hash := b], disconnected := []), b)
  }

  /** A submission cut short after its block was written and before fork choice, by a crash that reopening follows. */
  ghost function CutShort(w: World, p: Params, s: State, b: Block, now: nat): State
    requires p.WellFormed() && Inv(w, p, s)
  {
    match EnsureSynced(w, p, s)
    case Err(e) => Reopen(s)
    case Ok(s1) =>
      if Stores(w, p, s1, b, now) then Reopen(s1.(blocks := s1.blocks[w.BlockHash(b) := b])) else Reopen(s1)
  }

  /** The submission passes every check that precedes the write of its block. */
  ghost predicate Stores(w: World, p: Params, s: State, b: Block, now: nat)
    requires p.WellFormed() && Closed(w, s.blocks)
  {
    && w.BlockHash(b) !in s.blocks && b.header.prev in s.blocks
    && ValidateBlock(w, p, Some(s.blocks[b.header.prev]), b, now, RequiredBits(p, ChainTo(w, s.blocks, b.header.prev)),
                     EpochSeed(w, s, b.header.height)).None?
  }

  /** Files a block and makes it the tip without touching the UTXO column. */
  function PutBlock(w: World, s: State, b: Block): State {
    var hash := w.BlockHash(b);
    s.(blocks := s.blocks[hash := b], canonical := s.canonical[b.header.height := hash], metaTip := Some(hash),
       tipCache := Some(b), heightCache := Some(b.header.height))
  }

  function WithBits(b: Block, bits: u8, nonce: nat): Block { b.(header := b.header.(bits := bits, nonce := nonce)) }

  /** Genesis from a nonce found offline. */
  ghost function InitGenesis(w: World, p: Params, s: State, timestamp: nat, nonce: nat)
    : (Result<Block, StateError>, State)
    requires p.WellFormed()
  {
    if s.heightCache.Some? then (Err(GenesisAlreadyExists), s)
    else
      var bits, seed := RequiredBits(p, []), EpochSeed(w, s, 0);
      var b := WithBits(Candidate(w, p, None, timestamp, "genesis", [], 0), bits, nonce);
      if !w.meetsWork(b.header, seed) then (Err(MiningFailed), s)
      else match ValidateBlock(w, p, None, b, timestamp, bits, seed)
           case Some(rule) => (Err(Invalid(rule)), s)
           case None => (Ok(b), PutBlock(w, s, b))
  }

  /** The least nonce from `from` up to `maxNonce` that meets the header's target. */
  function MineHeader(w: World, header: BlockHeader, seed: Hash256, from: nat, maxNonce: nat): (r: Option<BlockHeader>)
    ensures r.Some? ==> r.value == header.(nonce := r.value.nonce)
    decreases maxNonce + 1 - from
  {
    if from > maxNonce then None
    else if w.meetsWork(header.(nonce := from), seed) then Some(header.(nonce := from))
    else MineHeader(w, header, seed, from + 1, maxNonce)
  }

  /** That it is the least: every nonce below it fails, and if there is none, all fail. */
  lemma {:induction false} MineHeaderFirst(w: World, header: BlockHeader, seed: Hash256, from: nat, maxNonce: nat)
    ensures var r := MineHeader(w, header, seed, from, maxNonce);
            var end := if r.Some? then r.value.nonce else maxNonce + 1;
            && (r.Some? ==> from <= end <= maxNonce && r.value == header.(nonce := end) && w.meetsWork(r.value, seed))
            && forall i :: from <= i < end ==> !w.meetsWork(header.(nonce := i), seed)
    decreases maxNonce + 1 - from
  {
    if from <= maxNonce && !w.meetsWork(header.(nonce := from), seed) {
      MineHeaderFirst(w, header, seed, from + 1, maxNonce);
    }
  }

  /** Mines a coinbase-only block on the tip and makes it the tip directly, leaving the UTXO column behind. */
  ghost function MineNext(w: World, p: Params, s: State, timestamp: nat, miner: string, maxNonce: nat)
    : (Result<Block, StateError>, State)
    requires p.WellFormed() && Inv(w, p, s)
  {
    match s.tipCache
    case None => (Err(MissingGenesis), s)
    case Some(parent) =>
      var bits := RequiredBits(p, Best(w, s));
      var seed := EpochSeed(w, s, parent.header.height + 1);
      var c := WithBits(Candidate(w, p, Some(parent), timestamp, miner, [], 0), bits, 0);
      match MineHeader(w, c.header, seed, 0, maxNonce)
      case None => (Err(MiningFailed), s)
      case Some(header) =>
        var b := Block(header, c.txs);
        match ValidateBlock(w, p, Some(parent), b, timestamp, bits, seed)
        case Some(rule) => (Err(Invalid(rule)), s)
        case None => (Ok(b), PutBlock(w, s, b))
  }

  /** Reopening the database reloads the caches from the stored tip. */
  function Reopen(s: State): State {
    if s.metaTip.Some? && s.metaTip.value in s.blocks then
      var b := s.blocks[s.metaTip.value];
      s.(tipCache := Some(b), heightCache := Some(b.header.height), disconnected := [])
    else s.(tipCache := None, heightCache := None, disconnected := [])
  }

  function NonCoinbase(txs: seq<Transaction>): seq<Transaction> {
    if txs == [] then []
    else (if txs[0].IsCoinbase() then [] else [txs[0]]) + NonCoinbase(txs[1..])
  }

  /** Transactions of dropped blocks that need a new home; coinbases are forfeited. */
  function RequeueCandidates(dropped: seq<Block>): seq<Transaction> {
    if dropped == [] then [] else NonCoinbase(dropped[0].txs) + RequeueCandidates(dropped[1..])
  }

  // ---- Facts about the operations -------------------------------------------

  lemma ZeroIsNotStored(w: World, blocks: Blocks)
    requires Closed(w, blocks)
    ensures ZERO !in blocks
  {
    forall h | h in blocks ensures h != ZERO {
      assert Filed(w, blocks, h);
      var id: BlockId := w.BlockHash(blocks[h]);
      assert id == h;
    }
  }

  lemma LeastKey(m: map<nat, Hash256>, from: nat, n: nat)
    requires from < n && forall i :: i in m <==> from <= i < n
    ensures from in m && MinKey(m.Keys) == from
    ensures forall i :: i in m - {from} <==> from + 1 <= i < n
  {
    assert from in m;
    hide MinKey;
  }

  lemma CanonicalBlocksAt(m: map<nat, Hash256>, blocks: Blocks, k: nat)
    requires k in m && MinKey(m.Keys) == k
    ensures CanonicalBlocks(m, blocks) ==
              (if m[k] in blocks then [blocks[m[k]]] else []) + CanonicalBlocks(m - {k}, blocks)
  {
    hide MinKey;
  }

  /** Key-order iteration of an index over heights `from` and up yields those blocks in height order. */
  lemma {:induction false} KeyOrderIteration(m: map<nat, Hash256>, blocks: Blocks, chain: seq<Block>, from: nat)
    requires from <= |chain|
    requires forall i :: i in m <==> from <= i < |chain|
    requires forall i :: i in m ==> m[i] in blocks && blocks[m[i]] == chain[i]
    ensures CanonicalBlocks(m, blocks) == chain[from..]
    decreases |chain| - from
  {
    if from == |chain| {
      assert m == map[];
    } else {
      hide *;
      LeastKey(m, from, |chain|);
      CanonicalBlocksAt(m, blocks, from);
      KeyOrderIteration(m - {from}, blocks, chain, from + 1);
      assert chain[from..] == [chain[from]] + chain[from + 1..];
    }
  }

  lemma IndexIteration(w: World, blocks: Blocks, h: Hash256)
    requires Closed(w, blocks) && h in blocks
    ensures CanonicalBlocks(Index(w, ChainTo(w, blocks, h)), blocks) == ChainTo(w, blocks, h)
  {
    var chain := ChainTo(w, blocks, h);
    ChainToLinked(w, blocks, h);
    KeyOrderIteration(Index(w, chain), blocks, chain, 0);
  }

  /** In every invariant state the UTXO rebuild succeeds and leaves exactly the replay of the followed chain. */
  lemma SyncNeverFails(w: World, p: Params, s: State)
    requires p.WellFormed() && Inv(w, p, s)
    ensures EnsureSynced(w, p, s).Ok?
    ensures var s' := EnsureSynced(w, p, s).value;
            && Inv(w, p, s')
            && s' == s.(utxo := s'.utxo, utxoTip := s'.utxoTip)
            && Replay(w, p, Best(w, s)) == Ok(s'.utxo)
            && s'.utxoTip == s.metaTip
  {
    if s.metaTip.Some? {
      assert Filed(w, s.blocks, s.metaTip.value);
      IndexIteration(w, s.blocks, s.metaTip.value);
    }
  }

  lemma InsertKeepsStore(w: World, p: Params, blocks: Blocks, b: Block)
    requires p.WellFormed() && StoreInv(w, p, blocks)
    requires w.BlockHash(b) !in blocks
    requires b.header.prev in blocks && b.header.height == blocks[b.header.prev].header.height + 1
    requires Accepted(w, p, ChainTo(w, blocks, b.header.prev), b)
    ensures StoreInv(w, p, blocks[w.BlockHash(b) := b])
    ensures ChainTo(w, blocks[w.BlockHash(b) := b], w.BlockHash(b)) == ChainTo(w, blocks, b.header.prev) + [b]
    ensures forall h :: h in blocks ==> ChainTo(w, blocks[w.BlockHash(b) := b], h) == ChainTo(w, blocks, h)
  {
    var hash := w.BlockHash(b);
    var blocks' := blocks[hash := b];
    ZeroIsNotStored(w, blocks);
    Insert(w, blocks, b);
    var past := ChainTo(w, blocks, b.header.prev);
    assert (past + [b])[..|past|] == past;
    hide ChainTo, Filed, Closed, RequiredBits, Accepted;
    forall h | h in blocks' ensures AcceptedAt(w, p, blocks', h) {
      if h != hash {
        assert AcceptedAt(w, p, blocks, h);
      }
    }
  }

  /** Storing a validated block keeps the store invariant and everything about the followed chain. */
  lemma Stored(w: World, p: Params, s: State, s1: State, b: Block, now: nat)
    requires p.WellFormed() && Inv(w, p, s) && EnsureSynced(w, p, s) == Ok(s1)
    requires w.BlockHash(b) !in s.blocks && b.header.prev in s1.blocks
    requires ValidateBlock(w, p, Some(s1.blocks[b.header.prev]), b, now,
                           RequiredBits(p, ChainTo(w, s1.blocks, b.header.prev)),
                           EpochSeed(w, s1, b.header.height)).None?
    ensures var s2 := s1.(blocks := s1.blocks[w.BlockHash(b) := b], disconnected := []);
            && s2.metaTip.Some? && s2.metaTip == s.metaTip && s2.metaTip.value in s2.blocks
            && StoreInv(w, p, s2.blocks)
            && ChainTo(w, s2.blocks, w.BlockHash(b)) == ChainTo(w, s.blocks, b.header.prev) + [b]
            && (forall h :: h in s.blocks ==> ChainTo(w, s2.blocks, h) == ChainTo(w, s.blocks, h))
            && Best(w, s2) == Best(w, s)
            && Replay(w, p, Best(w, s)) == Ok(s2.utxo)
  {
    SyncNeverFails(w, p, s);
    InsertKeepsStore(w, p, s.blocks, b);
  }
}
