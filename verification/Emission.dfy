/** The block subsidy, its halving schedule, and the running emission total. */
module Emission {
  import opened Prelude
  import opened Types

  const U32: nat := 0x1_0000_0000

  /** Whole halving intervals up to a height. */
  function Halvings(p: Params, height: nat): nat {
    if height < p.halvingInterval then 0 else 1 + Halvings(p, height - p.halvingInterval)
  }

  /** The era is computed in 64 bits and then cast to 32. */
  function Era(p: Params, height: nat): nat { Halvings(p, height) % U32 }

  /** `n >> k`. */
  function Shifted(n: u64, k: nat): u64 { if k == 0 then n else Shifted(n, k - 1) / 2 }

  function EraReward(p: Params, era: nat): u64 { Shifted(p.initialReward, era) }

  /** First height of an era. */
  function EraStart(p: Params, era: nat): nat { if era == 0 then 0 else EraStart(p, era - 1) + p.halvingInterval }

  /** The three in closed form, as the source computes them. */
  lemma {:induction false} HalvingsIsQuotient(p: Params, height: nat)
    ensures Halvings(p, height) == height / p.halvingInterval
    decreases height
  {
    var i := p.halvingInterval;
    if height < i {
      QuotientUnique(height, i, 0, height);
    } else {
      HalvingsIsQuotient(p, height - i);
      var q, r := (height - i) / i, (height - i) % i;
      assert height - i == q * i + r;
      assert (q + 1) * i == q * i + i;
      QuotientUnique(height, i, q + 1, r);
    }
  }

  lemma HalfQuotient(n: nat, d: pos)
    ensures n / d / 2 == n / (2 * d)
  {
    var q, r := n / d, n % d;
    var h := q / 2;
    assert n == q * d + r;
    if q % 2 == 0 {
      assert q == 2 * h;
      assert q * d == h * (2 * d);
      QuotientUnique(n, 2 * d, h, r);
    } else {
      assert q == 2 * h + 1;
      assert q * d == h * (2 * d) + d;
      QuotientUnique(n, 2 * d, h, d + r);
    }
  }

  lemma {:induction false} ShiftedIsQuotient(n: u64, k: nat)
    ensures Shifted(n, k) == n / Pow2(k)
  {
    if k == 0 {
      QuotientUnique(n, 1, n, 0);
    } else {
      ShiftedIsQuotient(n, k - 1);
      HalfQuotient(n, Pow2(k - 1));
    }
  }

  lemma {:induction false} EraStartIs(p: Params, era: nat)
    ensures EraStart(p, era) == era * p.halvingInterval
  {
    if era > 0 {
      EraStartIs(p, era - 1);
      assert era * p.halvingInterval == (era - 1) * p.halvingInterval + p.halvingInterval;
    }
  }

  function Reward(p: Params, height: nat): u64
  {
    if Era(p, height) >= p.maxEras then 0 else EraReward(p, Era(p, height))
  }

  /** Sum of the subsidies of heights 0 .. n-1. */
  function RewardSum(p: Params, n: nat): nat
  {
    if n == 0 then 0 else RewardSum(p, n - 1) + Reward(p, n - 1)
  }

  /** Heights before the 32-bit era cast wraps. */
  predicate BeforeEraWrap(p: Params, n: nat) { n <= EraStart(p, U32) }

  lemma {:induction false} HalvingsWithin(p: Params, era: nat, height: nat)
    ensures EraStart(p, era) <= height ==> Halvings(p, height) >= era
    ensures height < EraStart(p, era + 1) ==> Halvings(p, height) <= era
    decreases era
  {
    var i := p.halvingInterval;
    if era > 0 && height >= i {
      HalvingsWithin(p, era - 1, height - i);
      assert EraStart(p, era + 1) == EraStart(p, era) + i && EraStart(p, era) == EraStart(p, era - 1) + i;
      assert Halvings(p, height) == 1 + Halvings(p, height - i);
    } else if era == 0 {
      assert EraStart(p, 1) == i;
    } else {
      EraStartMonotone(p, 1, era);
      assert EraStart(p, 1) == i;
    }
  }

  lemma {:induction false} EraStartMonotone(p: Params, a: nat, b: nat)
    requires a <= b
    ensures EraStart(p, a) <= EraStart(p, b)
    decreases b
  {
    if a < b { EraStartMonotone(p, a, b - 1); }
  }

  lemma EraOf(p: Params, era: nat, k: nat)
    requires k < p.halvingInterval && era < U32
    ensures Era(p, EraStart(p, era) + k) == era
  {
    HalvingsWithin(p, era, EraStart(p, era) + k);
    hide Halvings;
  }

  /** What `blocks` blocks of one era emit. */
  function Emitted(p: Params, era: nat, blocks: nat): nat { blocks * EraReward(p, era) }

  /** Within one era the sum grows by the era's reward per block. */
  lemma {:induction false} SumWithinEra(p: Params, era: nat, k: nat)
    requires era < p.maxEras && era < U32 && k <= p.halvingInterval
    ensures RewardSum(p, EraStart(p, era) + k) == RewardSum(p, EraStart(p, era)) + Emitted(p, era, k)
  {
    if k > 0 {
      SumWithinEra(p, era, k - 1);
      EraOf(p, era, k - 1);
      hide Era, EraReward, EraStart;
      assert k * EraReward(p, era) == (k - 1) * EraReward(p, era) + EraReward(p, era);
    }
  }

  /** The first height past the last era. */
  function LastEnd(p: Params): nat { EraStart(p, p.maxEras) }

  lemma PastLastEra(p: Params, height: nat)
    requires LastEnd(p) <= height < EraStart(p, U32)
    ensures Reward(p, height) == 0
  {
    HalvingsWithin(p, p.maxEras, height);
    HalvingsWithin(p, U32 - 1, height);
    hide EraReward, Halvings, EraStart;
  }

  /** After the last era nothing more is emitted, until the era cast wraps. */
  lemma {:induction false} SumAfterLastEra(p: Params, n: nat)
    requires LastEnd(p) <= n && BeforeEraWrap(p, n)
    ensures RewardSum(p, n) == RewardSum(p, LastEnd(p))
    decreases n
  {
    if n > LastEnd(p) {
      PastLastEra(p, n - 1);
      assert BeforeEraWrap(p, n - 1);
      hide Reward, LastEnd, BeforeEraWrap;
      SumAfterLastEra(p, n - 1);
    }
  }

  lemma {:induction false} SumMonotone(p: Params, m: nat, n: nat)
    requires m <= n
    ensures RewardSum(p, m) <= RewardSum(p, n)
    decreases n - m
  {
    if m < n { SumMonotone(p, m, n - 1); }
  }

  /** The emission loop computes the subsidy sum up to the end of the last era, capped by the word and by the mining
      allocation; until the era cast wraps that is the sum over all the heights asked for. */
  method EmittedSupplyUntilHeight(p: Params, exclusiveHeight: u64) returns (total: u64)
    requires p.maxEras <= 64
    ensures total == Min(Min(RewardSum(p, Min(exclusiveHeight, LastEnd(p))), U64_MAX), p.miningAllocation)
    ensures BeforeEraWrap(p, exclusiveHeight) ==>
              total == Min(Min(RewardSum(p, exclusiveHeight), U64_MAX), p.miningAllocation)
  {
    var emitted: u64 := 0;
    var remaining: u64 := exclusiveHeight;
    var era := 0;
    hide EraReward, BeforeEraWrap;
    while era < p.maxEras
      invariant 0 <= era <= p.maxEras
      invariant remaining == SatSub(exclusiveHeight, EraStart(p, era))
      invariant emitted == Min(RewardSum(p, Min(exclusiveHeight, EraStart(p, era))), U64_MAX)
    {
      if remaining == 0 {
        break;
      }
      var blocks := Min(remaining, p.halvingInterval);
      var reward := EraReward(p, era);
      SumWithinEra(p, era, blocks);
      assert EraStart(p, era + 1) == EraStart(p, era) + p.halvingInterval;
      assert Min(exclusiveHeight, EraStart(p, era + 1)) == EraStart(p, era) + blocks;
      hide RewardSum, EraStart;
      emitted := SatAdd(emitted, SatMul(blocks, reward));
      remaining := remaining - blocks;
      era := era + 1;
    }
    EraStartMonotone(p, era, p.maxEras);
    if exclusiveHeight >= LastEnd(p) && BeforeEraWrap(p, exclusiveHeight) {
      SumAfterLastEra(p, exclusiveHeight);
    }
    total := Min(emitted, p.miningAllocation);
  }

  /** Emission by whole eras. */
  function EraTotal(p: Params, eras: nat): nat
  {
    if eras == 0 then 0 else EraTotal(p, eras - 1) + Emitted(p, eras - 1, p.halvingInterval)
  }

  lemma {:induction false} SumByEras(p: Params, eras: nat)
    requires eras <= p.maxEras <= 64
    ensures RewardSum(p, EraStart(p, eras)) == EraTotal(p, eras)
  {
    hide Emitted;
    if eras > 0 {
      hide RewardSum;
      SumByEras(p, eras - 1);
      SumWithinEra(p, eras - 1, p.halvingInterval);
    }
  }

  lemma {:induction false} SumBoundedByEras(p: Params, n: nat)
    requires p.maxEras <= 64 && BeforeEraWrap(p, n)
    ensures RewardSum(p, n) <= EraTotal(p, p.maxEras)
  {
    hide RewardSum, EraTotal, BeforeEraWrap;
    SumByEras(p, p.maxEras);
    if n <= LastEnd(p) { SumMonotone(p, n, LastEnd(p)); } else { SumAfterLastEra(p, n); }
  }

  const MAINNET_SUPPLY: nat := 3_299_999_986_972_800

  lemma MainnetEraTotal()
    ensures EraTotal(MAINNET, 10) == MAINNET_SUPPLY
  {
    var p := MAINNET;
    assert EraTotal(p, 1) == 2_102_400 * 785_584_523;
    assert EraTotal(p, 2) == 2_102_400 * (785_584_523 + 392_792_261);
    assert Shifted(p.initialReward, 3) == 98_198_065;
    assert EraTotal(p, 4) == EraTotal(p, 2) + 2_102_400 * (196_396_130 + 98_198_065);
    assert Shifted(p.initialReward, 5) == 24_549_516;
    assert EraTotal(p, 6) == EraTotal(p, 4) + 2_102_400 * (49_099_032 + 24_549_516);
    assert Shifted(p.initialReward, 7) == 6_137_379;
    assert EraTotal(p, 8) == EraTotal(p, 6) + 2_102_400 * (12_274_758 + 6_137_379);
  }

  /** MAINNET never schedules more than its test vector, at any height before the era cast wraps. */
  lemma MainnetSupplyCap(n: nat)
    requires BeforeEraWrap(MAINNET, n)
    ensures RewardSum(MAINNET, n) <= MAINNET_SUPPLY
    ensures n >= LastEnd(MAINNET) ==> RewardSum(MAINNET, n) == MAINNET_SUPPLY
  {
    hide RewardSum, EraTotal, BeforeEraWrap;
    MainnetEraTotal();
    SumBoundedByEras(MAINNET, n);
    if n >= LastEnd(MAINNET) {
      SumAfterLastEra(MAINNET, n);
      SumByEras(MAINNET, 10);
    }
  }

  lemma {:induction false} HalvingsShift(p: Params, height: nat, eras: nat)
    ensures Halvings(p, height + EraStart(p, eras)) == Halvings(p, height) + eras
  {
    if eras > 0 { HalvingsShift(p, height, eras - 1); }
  }

  /** The subsidy is periodic: one full turn of the 32-bit era counter brings every reward back. */
  lemma RewardReturnsAfterEraWrap(p: Params, height: nat)
    ensures Reward(p, height + EraStart(p, U32)) == Reward(p, height)
  {
    HalvingsShift(p, height, U32);
    hide Halvings, EraStart;
  }

  /** The subsidy is zero exactly when the wrapped era is past the last, or the shift has emptied the initial reward. */
  lemma RewardIsZero(p: Params, height: nat)
    ensures var era := (height / p.halvingInterval) % U32;
            Reward(p, height) == 0 <==> era >= p.maxEras || p.initialReward / Pow2(era) == 0
  {
    HalvingsIsQuotient(p, height);
    ShiftedIsQuotient(p.initialReward, Era(p, height));
    hide Shifted, Halvings, Pow2;
  }
}
