/** The block store: parent-closed maps, the walk from a block to genesis, and cumulative work. */
module Store {
  import opened Prelude
  import opened Types

  type Blocks = map<Hash256, Block>

  /** The block at `h` hashes to `h`, and its parent is stored one height below. */
  ghost predicate Filed(w: World, blocks: Blocks, h: Hash256)
    requires h in blocks
  {
    var b := blocks[h];
    && w.BlockHash(b) == h
    && if b.header.prev == ZERO then b.header.height == 0
       else b.header.prev in blocks && blocks[b.header.prev].header.height + 1 == b.header.height
  }

  /** Every stored block is filed under its hash with its parent. */
  ghost predicate Closed(w: World, blocks: Blocks)
  {
    forall h {:trigger Filed(w, blocks, h)} :: h in blocks ==> Filed(w, blocks, h)
  }

  /** The chain from genesis to the block filed under `h`. */
  ghost function ChainTo(w: World, blocks: Blocks, h: Hash256): (chain: seq<Block>)
    requires Closed(w, blocks) && h in blocks
    ensures |chain| == blocks[h].header.height + 1 && chain[|chain| - 1] == blocks[h]
    decreases blocks[h].header.height
  {
    assert Filed(w, blocks, h);
    var b := blocks[h];
    if b.header.prev == ZERO then [b] else ChainTo(w, blocks, b.header.prev) + [b]
  }

  /** A genesis-first chain whose blocks link by hash. */
  ghost predicate Linked(w: World, chain: seq<Block>)
  {
    && chain != []
    && chain[0].header.prev == ZERO
    && (forall i :: 0 <= i < |chain| ==> chain[i].header.height == i)
    && (forall i :: 1 <= i < |chain| ==> chain[i].header.prev == w.BlockHash(chain[i - 1]))
  }

  lemma {:induction false} ChainToLinked(w: World, blocks: Blocks, h: Hash256)
    requires Closed(w, blocks) && h in blocks
    ensures Linked(w, ChainTo(w, blocks, h))
    ensures forall i :: 0 <= i <= blocks[h].header.height ==>
              var b := ChainTo(w, blocks, h)[i]; w.BlockHash(b) in blocks && blocks[w.BlockHash(b)] == b
    decreases blocks[h].header.height
  {
    assert Filed(w, blocks, h);
    var b := blocks[h];
    if b.header.prev != ZERO {
      assert Filed(w, blocks, b.header.prev);
      ChainToLinked(w, blocks, b.header.prev);
    }
  }

  /** The chain to an ancestor is the prefix ending there. */
  lemma {:induction false} ChainToPrefix(w: World, blocks: Blocks, h: Hash256, i: nat)
    requires Closed(w, blocks) && h in blocks && i <= blocks[h].header.height
    ensures var a := w.BlockHash(ChainTo(w, blocks, h)[i]);
            a in blocks && ChainTo(w, blocks, a) == ChainTo(w, blocks, h)[..i + 1]
    decreases blocks[h].header.height
  {
    assert Filed(w, blocks, h);
    var b := blocks[h];
    var chain := ChainTo(w, blocks, h);
    if i == b.header.height {
      assert chain[..i + 1] == chain;
    } else {
      ChainToPrefix(w, blocks, b.header.prev, i);
      assert chain[..i + 1] == ChainTo(w, blocks, b.header.prev)[..i + 1];
    }
  }

  /** The stored chain to a block is the only linked chain of stored blocks that ends there. */
  lemma {:induction false} ChainToUnique(w: World, blocks: Blocks, chain: seq<Block>)
    requires Closed(w, blocks) && Linked(w, chain)
    requires var h := w.BlockHash(chain[|chain| - 1]); h in blocks && blocks[h] == chain[|chain| - 1]
    requires forall i :: 0 <= i < |chain| && w.BlockHash(chain[i]) in blocks ==>
               blocks[w.BlockHash(chain[i])] == chain[i]
    ensures ChainTo(w, blocks, w.BlockHash(chain[|chain| - 1])) == chain
    decreases |chain|
  {
    var n := |chain| - 1;
    assert Filed(w, blocks, w.BlockHash(chain[n]));
    if n > 0 {
      ChainToUnique(w, blocks, chain[..n]);
      assert chain == chain[..n] + [chain[n]];
    }
  }

  /** Filing a fresh block whose parent is stored keeps the store closed and every old chain as it was. */
  lemma Insert(w: World, blocks: Blocks, b: Block)
    requires Closed(w, blocks) && w.BlockHash(b) !in blocks
    requires if b.header.prev == ZERO then b.header.height == 0
             else b.header.prev in blocks && blocks[b.header.prev].header.height + 1 == b.header.height
    ensures Closed(w, blocks[w.BlockHash(b) := b])
    ensures forall h :: h in blocks ==> ChainTo(w, blocks[w.BlockHash(b) := b], h) == ChainTo(w, blocks, h)
    ensures ChainTo(w, blocks[w.BlockHash(b) := b], w.BlockHash(b))
         == (if b.header.prev == ZERO then [] else ChainTo(w, blocks, b.header.prev)) + [b]
  {
    var blocks' := blocks[w.BlockHash(b) := b];
    forall h | h in blocks' ensures Filed(w, blocks', h) {
      if h in blocks { assert Filed(w, blocks, h); }
    }
    forall h | h in blocks ensures ChainTo(w, blocks', h) == ChainTo(w, blocks, h) {
      ChainToGrows(w, blocks, blocks', h);
    }
  }

  /** An ancestor walk reads only the ancestors: a larger store gives the same chain. */
  lemma {:induction false} ChainToGrows(w: World, blocks: Blocks, blocks': Blocks, h: Hash256)
    requires Closed(w, blocks) && Closed(w, blocks') && h in blocks
    requires forall k :: k in blocks ==> k in blocks' && blocks'[k] == blocks[k]
    ensures ChainTo(w, blocks', h) == ChainTo(w, blocks, h)
    decreases blocks[h].header.height
  {
    assert Filed(w, blocks, h);
    var b := blocks[h];
    if b.header.prev != ZERO { ChainToGrows(w, blocks, blocks', b.header.prev); }
  }

  // ---- Work -----------------------------------------------------------------

  function Work(chain: seq<Block>): nat
  {
    if chain == [] then 0 else Work(chain[..|chain| - 1]) + Pow2(chain[|chain| - 1].header.bits)
  }

  /** Cumulative work as `chain_work` computes it, saturating at 128 bits. */
  function ChainWork(chain: seq<Block>): nat { Min(Work(chain), U128_MAX) }

  lemma {:induction false} WorkConcat(a: seq<Block>, b: seq<Block>)
    ensures Work(a + b) == Work(a) + Work(b)
  {
    if b == [] {
      assert a + b == a;
    } else {
      WorkConcat(a, b[..|b| - 1]);
      assert (a + b)[..|a + b| - 1] == a + b[..|b| - 1];
    }
  }

  /** Without saturation a longer chain of the same lineage strictly outweighs its prefix. */
  lemma WorkStrict(chain: seq<Block>, i: nat, j: nat)
    requires i < j <= |chain| && Work(chain) <= U128_MAX
    ensures ChainWork(chain[..i]) < ChainWork(chain[..j]) <= U128_MAX
    ensures ChainWork(chain[..j]) == Work(chain[..j])
  {
    hide Work;
    SplitChain(chain, j);
    WorkConcat(chain[..j], chain[j..]);
    var head := chain[..j];
    SplitChain(head, i);
    assert head[..i] == chain[..i] && head[i..] == chain[i..j];
    WorkConcat(chain[..i], chain[i..j]);
    WorkPositive(chain[i..j]);
  }

  lemma SplitChain(chain: seq<Block>, n: nat)
    requires n <= |chain|
    ensures chain == chain[..n] + chain[n..]
  {
  }

  lemma WorkPositive(chain: seq<Block>)
    requires chain != []
    ensures Work(chain) > 0
  {
    hide Pow2;
  }
}
