/** The difficulty retarget, as a function of a block's own ancestry. */
module Difficulty {
  import opened Prelude
  import opened Types

  datatype Sample = Sample(first: nat, last: nat, bits: u8, count: nat)

  function Clamp(x: nat, lo: u8, hi: u8): u8
    requires lo <= hi
  {
    if x < lo then lo else if x > hi then hi else x
  }

  function NextBits(p: Params, s: Sample): u8
    requires p.minBits <= p.maxBits
  {
    var expected := SatMul(p.targetBlockSeconds, Max(s.count, 1));
    var actual := Max(SatSub(s.last, s.first), 1);
    var next :=
      if actual < expected / 2 then Min(s.bits + 1, 255)
      else if actual > Wrap(expected * 2) then SatSub(s.bits, 1)
      else s.bits;
    Clamp(next, p.minBits, p.maxBits)
  }

  function ExpectedBits(p: Params, height: nat, sample: Option<Sample>): u8
    requires p.minBits <= p.maxBits
  {
    if height < p.activation then p.initialBits
    else match sample
         case Some(s) => NextBits(p, s)
         case None => p.initialBits
  }

  function Window(p: Params): pos { Max(p.window, 1) }

  /** Index of the adjustment window a height at or above activation falls in, counting whole windows below it. */
  function EpochOf(p: Params, height: nat): nat
    requires height >= p.activation
  {
    if height < p.activation + Window(p) then 0 else 1 + EpochOf(p, height - Window(p))
  }

  /** First height of the window before the given one. */
  function WindowStart(p: Params, epoch: nat): nat
    requires epoch > 0
  {
    if epoch == 1 then p.activation else WindowStart(p, epoch - 1) + Window(p)
  }

  /** Both in closed form, as the source computes them. */
  lemma {:induction false} EpochIsQuotient(p: Params, height: nat)
    requires height >= p.activation
    ensures EpochOf(p, height) == (height - p.activation) / Window(p)
    decreases height
  {
    var win, d := Window(p), height - p.activation;
    if height < p.activation + win {
      QuotientUnique(d, win, 0, d);
    } else {
      EpochIsQuotient(p, height - win);
      var q, r := (d - win) / win, (d - win) % win;
      assert d - win == q * win + r;
      assert (q + 1) * win == q * win + win;
      QuotientUnique(d, win, q + 1, r);
    }
  }

  lemma {:induction false} WindowStartIs(p: Params, epoch: nat)
    requires epoch > 0
    ensures WindowStart(p, epoch) == p.activation + (epoch - 1) * Window(p)
  {
    if epoch > 1 {
      WindowStartIs(p, epoch - 1);
      assert (epoch - 1) * Window(p) == (epoch - 2) * Window(p) + Window(p);
    }
  }

  function WindowEnd(p: Params, epoch: nat): nat
    requires epoch > 0
  {
    WindowStart(p, epoch) + Window(p) - 1
  }

  predicate Bootstraps(p: Params, height: nat) { height >= SatAdd(p.activation, 2) && height > p.activation }

  /** The completed window before `height`'s own lies wholly below `height`. */
  lemma {:induction false} WindowBelow(p: Params, height: nat)
    requires height >= p.activation && EpochOf(p, height) > 0
    ensures WindowStart(p, EpochOf(p, height)) <= WindowEnd(p, EpochOf(p, height)) < height
    decreases height
  {
    if EpochOf(p, height) > 1 { WindowBelow(p, height - Window(p)); }
  }

  /** The timing sample for the block that extends `chain` (the block's whole ancestry, genesis first). */
  function SampleFor(p: Params, chain: seq<Block>): Option<Sample>
  {
    var height := |chain|;
    if height < p.activation then None
    else if EpochOf(p, height) == 0 then
      if Bootstraps(p, height) then
        var first, last := chain[p.activation].header, chain[height - 1].header;
        Some(Sample(first.timestamp, last.timestamp, last.bits, SatSub(last.height, first.height) + 1))
      else None
    else
      WindowBelow(p, height);
      var first := chain[WindowStart(p, EpochOf(p, height))].header;
      var last := chain[WindowEnd(p, EpochOf(p, height))].header;
      Some(Sample(first.timestamp, last.timestamp, last.bits, Window(p)))
  }

  function RequiredBits(p: Params, chain: seq<Block>): u8
    requires p.minBits <= p.maxBits
  {
    ExpectedBits(p, |chain|, SampleFor(p, chain))
  }

  /** Every block carries the bits its own ancestry requires. */
  ghost predicate BitsFollow(p: Params, chain: seq<Block>)
    requires p.minBits <= p.maxBits
  {
    forall i :: 0 <= i < |chain| ==> chain[i].header.bits == RequiredBits(p, chain[..i])
  }

  lemma NextBitsNear(p: Params, s: Sample)
    requires p.minBits <= s.bits <= p.maxBits
    ensures p.minBits <= NextBits(p, s) <= p.maxBits
    ensures NextBits(p, s) <= s.bits + 1 && s.bits <= NextBits(p, s) + 1
  {
  }

  lemma {:induction false} BitsInRange(p: Params, chain: seq<Block>, i: nat)
    requires p.WellFormed() && BitsFollow(p, chain) && i < |chain|
    ensures p.minBits <= chain[i].header.bits <= p.maxBits
    decreases i
  {
    var past := chain[..i];
    assert chain[i].header.bits == RequiredBits(p, past);
    match SampleFor(p, past)
    case None =>
    case Some(s) => 
      if i >= p.activation {
        if EpochOf(p, i) == 0 { BitsInRange(p, chain, i - 1); }
        else { WindowBelow(p, i); BitsInRange(p, chain, WindowEnd(p, EpochOf(p, i))); }
        NextBitsNear(p, s);
      }
  }

  /** Inside a window after the first, a block's bits are those of the window's other blocks. */
  lemma WindowConstant(p: Params, chain: seq<Block>, i: nat, j: nat)
    requires p.WellFormed() && BitsFollow(p, chain)
    requires p.activation <= i < |chain| && p.activation <= j < |chain|
    requires EpochOf(p, i) == EpochOf(p, j) > 0
    ensures chain[i].header.bits == chain[j].header.bits
  {
    WindowBelow(p, i);
    WindowBelow(p, j);
    assert SampleFor(p, chain[..i]) == SampleFor(p, chain[..j]);
    assert chain[i].header.bits == RequiredBits(p, chain[..i]);
    assert chain[j].header.bits == RequiredBits(p, chain[..j]);
  }

  /** Consecutive heights share a window, or the later one opens the next. */
  lemma {:induction false} NextEpoch(p: Params, i: nat)
    requires p.activation <= i
    ensures EpochOf(p, i + 1) == EpochOf(p, i)
         || (EpochOf(p, i + 1) == EpochOf(p, i) + 1 && WindowEnd(p, EpochOf(p, i + 1)) == i)
    decreases i
  {
    if i >= p.activation + Window(p) { NextEpoch(p, i - Window(p)); }
  }

  /** Adjacent blocks differ by at most one bit. */
  lemma AdjacentBits(p: Params, chain: seq<Block>, i: nat)
    requires p.WellFormed() && BitsFollow(p, chain) && i + 1 < |chain|
    ensures chain[i + 1].header.bits <= chain[i].header.bits + 1
    ensures chain[i].header.bits <= chain[i + 1].header.bits + 1
  {
    BitsInRange(p, chain, i);
    assert chain[i].header.bits == RequiredBits(p, chain[..i]);
    assert chain[i + 1].header.bits == RequiredBits(p, chain[..i + 1]);
    if i + 1 > p.activation {
      NextEpoch(p, i);
      if EpochOf(p, i + 1) == 0 {
        if Bootstraps(p, i + 1) {
          NextBitsNear(p, SampleFor(p, chain[..i + 1]).value);
        }
      } else if EpochOf(p, i) == EpochOf(p, i + 1) {
        WindowConstant(p, chain, i, i + 1);
      } else {
        NextBitsNear(p, SampleFor(p, chain[..i + 1]).value);
      }
    }
  }

  // ---- The first window -----------------------------------------------------

  /** While the first window fills, a block keeps its parent's bits exactly when the chain since activation is neither
      too fast (unless already at the maximum) nor too slow (unless already at the minimum). */
  lemma BootstrapHolds(p: Params, chain: seq<Block>, i: nat)
    requires p.WellFormed() && BitsFollow(p, chain) && p.activation < i < |chain|
    requires EpochOf(p, i) == 0 && Bootstraps(p, i)
    ensures var first, last := chain[p.activation].header, chain[i - 1].header;
            chain[i].header.bits == last.bits <==>
              KeepsPace(p, Sample(first.timestamp, last.timestamp, last.bits, SatSub(last.height, first.height) + 1))
  {
    hide NextBits, KeepsPace, EpochOf, SampleFor, Bootstraps;
    BitsInRange(p, chain, i - 1);
    BootstrapSample(p, chain, i);
    var s := SampleFor(p, chain[..i]).value;
    assert chain[i].header.bits == RequiredBits(p, chain[..i]);
    NextBitsSame(p, s);
  }

  lemma BootstrapSample(p: Params, chain: seq<Block>, i: nat)
    requires p.activation < i < |chain| && EpochOf(p, i) == 0 && Bootstraps(p, i)
    ensures var first, last := chain[p.activation].header, chain[i - 1].header;
            SampleFor(p, chain[..i])
              == Some(Sample(first.timestamp, last.timestamp, last.bits, SatSub(last.height, first.height) + 1))
  {
    hide EpochOf, Bootstraps;
  }

  /** Neither too fast with room to harden, nor too slow with room to ease. */
  predicate KeepsPace(p: Params, s: Sample) {
    var expected := SatMul(p.targetBlockSeconds, Max(s.count, 1));
    var actual := Max(SatSub(s.last, s.first), 1);
    if actual < expected / 2 then s.bits == p.maxBits
    else actual > Wrap(expected * 2) ==> s.bits == p.minBits
  }

  lemma NextBitsSame(p: Params, s: Sample)
    requires p.minBits <= s.bits <= p.maxBits < 255
    ensures NextBits(p, s) == s.bits <==> KeepsPace(p, s)
  {
    hide SatMul, Wrap;
  }

  /** So difficulty is not constant in the first window: five MAINNET blocks at one instant end on a harder one. */
  lemma BootstrapVaries() returns (chain: seq<Block>)
    ensures |chain| == 5 && BitsFollow(MAINNET, chain)
    ensures EpochOf(MAINNET, 3) == EpochOf(MAINNET, 4) == 0 && chain[4].header.bits == chain[3].header.bits + 1
  {
    var at := (h: nat, bits: u8) => Block(BlockHeader(1, MAINNET.chainId, h, 0, 0, 0, bits, 0), []);
    chain := [at(0, 42), at(1, 42), at(2, 42), at(3, 42), at(4, 43)];
    forall i | 0 <= i < |chain| ensures chain[i].header.bits == RequiredBits(MAINNET, chain[..i]) {
      if i == 4 {
        assert SampleFor(MAINNET, chain[..4]) == Some(Sample(0, 0, 42, 2));
        assert SatMul(60, 2) == 120;
      }
    }
  }

  // ---- The exact step -------------------------------------------------------

  /** How the bits step from `was` when blocks expected to take one time took another: one harder below half of it, one
      easier above twice of it (a product of 64-bit words), each only within range, and otherwise no step. */
  predicate StepsBy(p: Params, was: nat, becomes: nat, span: nat, expected: nat) {
    && (becomes == was + 1 <==> span < expected / 2 && was < p.maxBits)
    && (becomes + 1 == was <==> span >= expected / 2 && span > Wrap(2 * expected) && was > p.minBits)
    && (becomes == was + 1 || becomes == was || becomes + 1 == was)
  }

  lemma NextBitsStep(p: Params, s: Sample)
    requires p.minBits <= s.bits <= p.maxBits < 255 && s.count > 0
    ensures StepsBy(p, s.bits, NextBits(p, s), Max(SatSub(s.last, s.first), 1), SatMul(p.targetBlockSeconds, s.count))
  {
    hide SatMul, Wrap;
  }

  /** From the second window on, every block steps from the last block of the window before by the time between that
      window's first and last blocks. */
  lemma RetargetExactly(p: Params, chain: seq<Block>, i: nat)
    requires p.WellFormed() && BitsFollow(p, chain) && p.activation <= i < |chain| && EpochOf(p, i) > 0
    ensures var start := p.activation + (EpochOf(p, i) - 1) * Window(p);
            var end := start + Window(p) - 1;
            && start <= end < i
            && var first, last := chain[start].header, chain[end].header;
               StepsBy(p, last.bits, chain[i].header.bits, Max(SatSub(last.timestamp, first.timestamp), 1),
                     SatMul(p.targetBlockSeconds, Window(p)))
  {
    hide *;
    WindowSample(p, chain, i);
    WindowStartIs(p, EpochOf(p, i));
    var end := WindowEnd(p, EpochOf(p, i));
    BitsInRange(p, chain, end);
    NextBitsStep(p, SampleFor(p, chain[..i]).value);
  }

  lemma WindowSample(p: Params, chain: seq<Block>, i: nat)
    requires p.WellFormed() && BitsFollow(p, chain) && p.activation <= i < |chain| && EpochOf(p, i) > 0
    ensures var start, end := WindowStart(p, EpochOf(p, i)), WindowEnd(p, EpochOf(p, i));
            && end == start + Window(p) - 1 && start <= end < i && p.maxBits < 255
            && var first, last, s := chain[start].header, chain[end].header, SampleFor(p, chain[..i]);
               && s == Some(Sample(first.timestamp, last.timestamp, last.bits, Window(p)))
               && chain[i].header.bits == NextBits(p, s.value)
  {
    WindowBelow(p, i);
    assert chain[i].header.bits == RequiredBits(p, chain[..i]);
    hide NextBits, EpochOf, WindowStart, Window;
  }

  /** In the first window, from the second block after activation on, every block steps from its parent by the time
      since activation. */
  lemma BootstrapExactly(p: Params, chain: seq<Block>, i: nat)
    requires p.WellFormed() && BitsFollow(p, chain) && p.activation < i < |chain|
    requires EpochOf(p, i) == 0 && i >= SatAdd(p.activation, 2)
    ensures var first, last := chain[p.activation].header, chain[i - 1].header;
            StepsBy(p, last.bits, chain[i].header.bits, Max(SatSub(last.timestamp, first.timestamp), 1),
                  SatMul(p.targetBlockSeconds, SatSub(last.height, first.height) + 1))
  {
    assert Bootstraps(p, i);
    hide NextBits, StepsBy, EpochOf, SampleFor, Bootstraps;
    BitsInRange(p, chain, i - 1);
    BootstrapSample(p, chain, i);
    assert chain[i].header.bits == RequiredBits(p, chain[..i]);
    NextBitsStep(p, SampleFor(p, chain[..i]).value);
  }

  /** Every earlier block carries the initial bits. */
  lemma InitialBits(p: Params, chain: seq<Block>, i: nat)
    requires p.WellFormed() && BitsFollow(p, chain) && i < |chain|
    requires i < p.activation || (EpochOf(p, i) == 0 && (i == p.activation || i < SatAdd(p.activation, 2)))
    ensures chain[i].header.bits == p.initialBits
  {
    assert chain[i].header.bits == RequiredBits(p, chain[..i]);
  }
}
