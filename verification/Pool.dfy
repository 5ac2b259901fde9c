/** Mining-pool accounting: the share window, the proportional split of a block reward, and the payout ledger. */
module Pool {
  import opened Prelude

  const POOL_FEE_BPS: nat := 500
  const MIN_RELAY_FEE: nat := 10_000

  datatype Share = Share(miner: string, worker: string, bits: u8, at: nat)

  /** Work behind a share; the shift count is taken modulo the word size. */
  function Weight(s: Share): pos { Pow2(s.bits % 64) }

  /** A share with `k` more bits weighs 2^k times as much, within the 64-bit word, past which the weights start
      again. */
  lemma {:induction false} WeightDoubles(s: Share, t: Share, k: nat)
    requires t.bits == s.bits + k
    ensures s.bits % 64 + k < 64 ==> Weight(t) == Pow2(k) * Weight(s)
    ensures s.bits == 0 ==> Weight(s) == 1
    ensures k == 64 ==> Weight(t) == Weight(s)
  {
    if s.bits % 64 + k < 64 {
      assert t.bits % 64 == s.bits % 64 + k;
      Pow2Times(s.bits % 64, k);
    }
  }

  lemma {:induction false} Pow2Times(n: nat, k: nat)
    ensures Pow2(n + k) == Pow2(k) * Pow2(n)
  {
    if k > 0 {
      Pow2Times(n, k - 1);
      assert Pow2(n + k) == 2 * (Pow2(k - 1) * Pow2(n)) == Pow2(k) * Pow2(n);
    }
  }

  // ---- The share window -----------------------------------------------------

  function Pushed(window: seq<Share>, n: nat, share: Share): seq<Share> {
    (if window != [] && |window| >= n then window[1..] else window) + [share]
  }

  function PushAll(n: nat, shares: seq<Share>): seq<Share> {
    if shares == [] then [] else Pushed(PushAll(n, shares[..|shares| - 1]), n, shares[|shares| - 1])
  }

  function LastOf<T>(s: seq<T>, n: nat): seq<T> { s[|s| - Min(n, |s|)..] }

  /** The window is always the last n shares pushed; with n zero it still keeps the last one. */
  lemma {:induction false} WindowIsLast(n: nat, shares: seq<Share>)
    ensures PushAll(n, shares) == LastOf(shares, Max(n, 1))
  {
    if shares != [] {
      var init := shares[..|shares| - 1];
      WindowIsLast(n, init);
      assert shares == init + [shares[|shares| - 1]];
    }
  }

  function WeightSum(shares: seq<Share>): nat {
    if shares == [] then 0 else WeightSum(shares[..|shares| - 1]) + Weight(shares[|shares| - 1])
  }

  function MinerWeight(shares: seq<Share>, miner: string): nat {
    if shares == [] then 0
    else
      var last := shares[|shares| - 1];
      MinerWeight(shares[..|shares| - 1], miner) + if last.miner == miner then Weight(last) else 0
  }

  function Miners(shares: seq<Share>): set<string> { set s | s in shares :: s.miner }

  /** The miners' weights, in any order of the miners. */
  function WeightsOf(shares: seq<Share>, miners: seq<string>): nat {
    if miners == [] then 0 else WeightsOf(shares, miners[..|miners| - 1]) + MinerWeight(shares, miners[|miners| - 1])
  }

  predicate Distinct<T(==)>(s: seq<T>) { forall i, j :: 0 <= i < j < |s| ==> s[i] != s[j] }

  lemma {:induction false} WeightsGrow(shares: seq<Share>, miners: seq<string>)
    requires shares != [] && Distinct(miners)
    ensures var last := shares[|shares| - 1];
            WeightsOf(shares, miners)
              == WeightsOf(shares[..|shares| - 1], miners) + if last.miner in miners then Weight(last) else 0
  {
    if miners != [] {
      var n := |miners| - 1;
      WeightsGrow(shares, miners[..n]);
      assert miners == miners[..n] + [miners[n]];
    }
  }

  /** Per-miner weights add up to the window's total. */
  lemma {:induction false} WeightsPartition(shares: seq<Share>, miners: seq<string>)
    requires Distinct(miners) && forall s :: s in shares ==> s.miner in miners
    ensures WeightsOf(shares, miners) == WeightSum(shares)
  {
    if shares == [] {
      NoWeights(miners);
    } else {
      WeightsPartition(shares[..|shares| - 1], miners);
      WeightsGrow(shares, miners);
    }
  }

  lemma {:induction false} NoWeights(miners: seq<string>)
    ensures WeightsOf([], miners) == 0
  {
    if miners != [] { NoWeights(miners[..|miners| - 1]); }
  }

  // ---- Splitting a reward ---------------------------------------------------

  type Split = (string, u64)

  function Quota(gross: u64, weight: nat, total: pos): u64 { Wrap(gross * weight / total) }

  /** A miner's part of `gross`: its weight over the window's total, rounded down. */
  function PartOf(shares: seq<Share>, gross: u64, miner: string): u64
    requires shares != []
  {
    Quota(gross, Wrap(MinerWeight(shares, miner)), TotalOf(shares))
  }

  /** The window's total as reported, which saturates. */
  function TotalOf(shares: seq<Share>): (t: u64)
    ensures shares != [] ==> t > 0
  {
    Min(WeightSum(shares), U64_MAX)
  }

  function Names(splits: seq<Split>): seq<string> { seq(|splits|, i requires 0 <= i < |splits| => splits[i].0) }

  /** The split of a reward: everything to the fallback for an empty window; otherwise each miner's non-zero part
      once, largest first. */
  ghost predicate SplitOf(shares: seq<Share>, gross: u64, fallback: string, splits: seq<Split>) {
    if shares == [] then splits == [(fallback, gross)]
    else
      && Distinct(Names(splits))
      && Descending(splits)
      && (forall s :: s in splits ==> s.0 in Miners(shares) && s.1 == PartOf(shares, gross, s.0) > 0)
      && (forall m :: m in Miners(shares) && PartOf(shares, gross, m) > 0 ==> m in Names(splits))
  }

  function SplitSum(splits: seq<Split>): nat {
    if splits == [] then 0 else SplitSum(splits[..|splits| - 1]) + splits[|splits| - 1].1
  }

  function PartsOf(shares: seq<Share>, gross: u64, miners: seq<string>): nat
    requires shares != []
  {
    if miners == [] then 0
    else PartsOf(shares, gross, miners[..|miners| - 1]) + PartOf(shares, gross, miners[|miners| - 1])
  }

  lemma {:induction false} MinerWithinTotal(shares: seq<Share>, miner: string)
    ensures MinerWeight(shares, miner) <= WeightSum(shares)
  {
    if shares != [] { MinerWithinTotal(shares[..|shares| - 1], miner); }
  }

  /** Without overflow a part is the exact quotient. */
  lemma PartIsQuotient(shares: seq<Share>, gross: u64, miner: string)
    requires shares != [] && WeightSum(shares) <= U64_MAX
    ensures var t, q := WeightSum(shares), PartOf(shares, gross, miner);
            t > 0 && q * t <= gross * MinerWeight(shares, miner) < (q + 1) * t
  {
    hide *;
    TotalFits(shares);
    MinerWithinTotal(shares, miner);
    WrapSmall(MinerWeight(shares, miner));
    PartUnfold(shares, gross, miner);
    QuotaIsQuotient(gross, MinerWeight(shares, miner), WeightSum(shares));
  }

  lemma QuotaIsQuotient(gross: u64, w: nat, t: pos)
    requires w <= t
    ensures var q := Quota(gross, w, t); q * t <= gross * w < (q + 1) * t
  {
    hide *;
    var q := QuotientOf(gross, w, t);
    QuotaIs(gross, w, t, q);
  }

  lemma QuotaIs(gross: u64, w: nat, t: pos, q: u64)
    requires q == gross * w / t
    ensures Quota(gross, w, t) == q
  {
    WrapSmall(q);
    hide Wrap;
  }

  lemma TotalFits(shares: seq<Share>)
    requires shares != [] && WeightSum(shares) <= U64_MAX
    ensures TotalOf(shares) == WeightSum(shares) > 0
  {
  }

  lemma PartUnfold(shares: seq<Share>, gross: u64, miner: string)
    requires shares != []
    ensures PartOf(shares, gross, miner) == Quota(gross, Wrap(MinerWeight(shares, miner)), TotalOf(shares))
  {
    hide Quota, Wrap, MinerWeight, TotalOf;
  }

  lemma WrapSmall(x: nat)
    requires x <= U64_MAX
    ensures Wrap(x) == x
  {
  }

  lemma QuotientOf(gross: u64, w: nat, t: pos) returns (q: u64)
    requires w <= t
    ensures q == gross * w / t && q * t <= gross * w < (q + 1) * t
  {
    var n := gross * w;
    assert n == n / t * t + n % t;
    MulLe(w, t, gross);
    if n / t > gross { MulLe(gross + 1, n / t, t); assert false; }
    q := n / t;
  }

  /** The parts of any list of miners, scaled by the total, stay within `|miners|` totals of their exact worth. */
  lemma {:induction false} PartsBracket(shares: seq<Share>, gross: u64, miners: seq<string>)
    requires shares != [] && WeightSum(shares) <= U64_MAX
    ensures var t, s := WeightSum(shares), PartsOf(shares, gross, miners);
            s * t <= gross * WeightsOf(shares, miners) <= s * t + (t - 1) * |miners|
  {
    if miners != [] {
      var n := |miners| - 1;
      PartsBracket(shares, gross, miners[..n]);
      PartIsQuotient(shares, gross, miners[n]);
      PartsSnoc(shares, gross, miners);
      hide *;
      BracketStep(WeightSum(shares), gross, PartsOf(shares, gross, miners[..n]), PartOf(shares, gross, miners[n]),
                  WeightsOf(shares, miners[..n]), MinerWeight(shares, miners[n]), n);
    }
  }

  lemma BracketStep(t: pos, gross: nat, s: nat, q: nat, a: nat, b: nat, n: nat)
    requires s * t <= gross * a <= s * t + (t - 1) * n && q * t <= gross * b < (q + 1) * t
    ensures (s + q) * t <= gross * (a + b) <= (s + q) * t + (t - 1) * (n + 1)
  {
    assert (s + q) * t == s * t + q * t;
    assert gross * (a + b) == gross * a + gross * b;
    assert (q + 1) * t == q * t + t;
    assert (t - 1) * (n + 1) == (t - 1) * n + (t - 1);
  }

  lemma PartsSnoc(shares: seq<Share>, gross: u64, miners: seq<string>)
    requires shares != [] && miners != []
    ensures var n := |miners| - 1;
            && PartsOf(shares, gross, miners) == PartsOf(shares, gross, miners[..n]) + PartOf(shares, gross, miners[n])
            && WeightsOf(shares, miners) == WeightsOf(shares, miners[..n]) + MinerWeight(shares, miners[n])
  {
    hide PartOf, MinerWeight;
  }

  lemma Enumerate(s: set<string>) returns (e: seq<string>)
    ensures Distinct(e) && |e| == |s| && forall x :: x in e <==> x in s
  {
    if s == {} {
      e := [];
    } else {
      var x :| x in s;
      var rest := Enumerate(s - {x});
      e := rest + [x];
    }
  }

  lemma {:induction false} DistinctCount(names: seq<string>, s: set<string>)
    requires Distinct(names) && forall x :: x in names <==> x in s
    ensures |names| == |s|
  {
    if names == [] {
      assert s == {};
    } else {
      var n := |names| - 1;
      assert names == names[..n] + [names[n]];
      DistinctCount(names[..n], s - {names[n]});
    }
  }

  lemma {:induction false} PartsConcat(shares: seq<Share>, gross: u64, a: seq<string>, b: seq<string>)
    requires shares != []
    ensures PartsOf(shares, gross, a + b) == PartsOf(shares, gross, a) + PartsOf(shares, gross, b)
  {
    hide PartOf;
    if b == [] {
      assert a + b == a;
    } else {
      PartsConcat(shares, gross, a, b[..|b| - 1]);
      assert (a + b)[..|a + b| - 1] == a + b[..|b| - 1];
    }
  }

  lemma {:induction false} PartsOfSplits(shares: seq<Share>, gross: u64, splits: seq<Split>)
    requires shares != [] && forall s :: s in splits ==> s.1 == PartOf(shares, gross, s.0)
    ensures PartsOf(shares, gross, Names(splits)) == SplitSum(splits)
  {
    hide PartOf;
    if splits != [] {
      var n := |splits| - 1;
      PartsOfSplits(shares, gross, splits[..n]);
      assert Names(splits)[..n] == Names(splits[..n]);
      assert splits[n] in splits;
    }
  }

  lemma {:induction false} NoParts(shares: seq<Share>, gross: u64, miners: seq<string>)
    requires shares != [] && forall m :: m in miners ==> PartOf(shares, gross, m) == 0
    ensures PartsOf(shares, gross, miners) == 0
  {
    hide PartOf;
    if miners != [] {
      var n := |miners| - 1;
      NoParts(shares, gross, miners[..n]);
      assert miners[n] in miners;
    }
  }

  /** A complete list of the window's miners whose parts are the split's payments. */
  lemma AllMiners(shares: seq<Share>, gross: u64, fallback: string, splits: seq<Split>) returns (miners: seq<string>)
    requires shares != [] && SplitOf(shares, gross, fallback, splits)
    ensures Distinct(miners) && (forall x :: x in miners <==> x in Miners(shares)) && |miners| == |Miners(shares)|
    ensures PartsOf(shares, gross, miners) == SplitSum(splits)
  {
    hide PartOf, PartsOf, SplitSum;
    var names := Names(splits);
    var left := set m | m in Miners(shares) && m !in names;
    var rest := Enumerate(left);
    miners := names + rest;
    forall x | x in names ensures x in Miners(shares) {
      var i :| 0 <= i < |names| && names[i] == x;
      assert splits[i] in splits;
    }
    forall i, j | 0 <= i < j < |miners| ensures miners[i] != miners[j] {
      assert j >= |names| ==> miners[j] in rest;
      assert i < |names| ==> miners[i] in names;
    }
    DistinctCount(miners, Miners(shares));
    PartsOfSplits(shares, gross, splits);
    NoParts(shares, gross, rest);
    PartsConcat(shares, gross, names, rest);
  }

  lemma BracketMeans(t: pos, gross: nat, s: nat, n: pos)
    requires s * t <= gross * t <= s * t + (t - 1) * n
    ensures s <= gross < s + n
  {
    assert (s + n) * t == s * t + n * t;
    assert (t - 1) * n == n * t - n;
    if s > gross { MulLe(gross + 1, s, t); }
    if gross >= s + n { MulLe(s + n, gross, t); }
  }

  /** A split pays out at most the reward, and keeps back fewer atoms than there are miners; an empty window pays the
      whole reward to the fallback. */
  lemma SplitConserves(shares: seq<Share>, gross: u64, fallback: string, splits: seq<Split>)
    requires SplitOf(shares, gross, fallback, splits) && WeightSum(shares) <= U64_MAX
    ensures if shares == [] then SplitSum(splits) == gross
            else SplitSum(splits) <= gross < SplitSum(splits) + |Miners(shares)|
  {
    if shares == [] {
      assert SplitSum(splits) == SplitSum([]) + gross;
    } else {
      SplitWithin(shares, gross, fallback, splits);
    }
  }

  lemma SplitWithin(shares: seq<Share>, gross: u64, fallback: string, splits: seq<Split>)
    requires shares != [] && SplitOf(shares, gross, fallback, splits) && WeightSum(shares) <= U64_MAX
    ensures SplitSum(splits) <= gross < SplitSum(splits) + |Miners(shares)|
  {
    hide *;
    var miners := AllMiners(shares, gross, fallback, splits);
    SomeMiner(shares);
    MinersListed(shares, miners);
    PartsBracket(shares, gross, miners);
    WeightsPartition(shares, miners);
    TotalFits(shares);
    BracketMeans(WeightSum(shares), gross, SplitSum(splits), |miners|);
  }

  lemma SomeMiner(shares: seq<Share>)
    requires shares != []
    ensures |Miners(shares)| > 0
  {
    assert shares[0].miner in Miners(shares);
  }

  lemma MinersListed(shares: seq<Share>, miners: seq<string>)
    requires forall x :: x in miners <==> x in Miners(shares)
    ensures forall s :: s in shares ==> s.miner in miners
  {
    forall s | s in shares ensures s.miner in miners {
      assert s.miner in Miners(shares);
    }
  }

  // ---- The payout ledger ----------------------------------------------------

  datatype PayoutEntry = PayoutEntry(height: nat, hash: string, miner: string, gross: u64, fee: u64, net: u64,
                                     paid: bool)

  /** `(net, fee)` of a gross amount. */
  function SplitFee(gross: u64, bps: u64): (u64, u64)
  {
    var fee: u64 := SatMul(gross, bps) / 10_000;
    (SatSub(gross, fee), fee)
  }

  /** Up to 10000 basis points the two halves make up the gross exactly, and the fee never exceeds its rate. */
  lemma SplitFeeExact(gross: u64, bps: u64)
    requires bps <= 10_000
    ensures var (net, fee) := SplitFee(gross, bps);
            net + fee == gross && fee * 10_000 <= gross * bps
              && (gross * bps <= U64_MAX ==> gross * bps < (fee + 1) * 10_000)
  {
    var product := gross * bps;
    MulLe(bps, 10_000, gross);
    assert product <= gross * 10_000;
  }

  function NewEntry(height: nat, hash: string, miner: string, gross: u64): PayoutEntry {
    var (net, fee) := SplitFee(gross, POOL_FEE_BPS);
    PayoutEntry(height, hash, miner, gross, fee, net, false)
  }

  function BlockEntries(height: nat, hash: string, splits: seq<Split>): seq<PayoutEntry> {
    seq(|splits|, i requires 0 <= i < |splits| => NewEntry(height, hash, splits[i].0, splits[i].1))
  }

  /** Everything the entries account for, fees and nets together. */
  function Accounted(entries: seq<PayoutEntry>): nat {
    if entries == [] then 0
    else Accounted(entries[..|entries| - 1]) + entries[|entries| - 1].fee + entries[|entries| - 1].net
  }

  /** A block's ledger entries account for its split to the atom. */
  lemma {:induction false} EntriesAccountSplit(height: nat, hash: string, splits: seq<Split>)
    ensures Accounted(BlockEntries(height, hash, splits)) == SplitSum(splits)
  {
    if splits != [] {
      var n := |splits| - 1;
      EntriesAccountSplit(height, hash, splits[..n]);
      assert BlockEntries(height, hash, splits)[..n] == BlockEntries(height, hash, splits[..n]);
      SplitFeeExact(splits[n].1, POOL_FEE_BPS);
      hide SplitFee;
    }
  }

  /** Each part becomes one unpaid entry of its block and miner, with the pool's twentieth taken off, rounded down. */
  lemma EntriesOwe(height: nat, hash: string, splits: seq<Split>, i: nat)
    requires i < |splits|
    ensures var entries := BlockEntries(height, hash, splits);
            && |entries| == |splits|
            && var e := entries[i];
               && e.height == height && e.hash == hash && e.miner == splits[i].0 && e.gross == splits[i].1 && !e.paid
               && e.net + e.fee == e.gross && (e.gross * 500 <= U64_MAX ==> e.fee * 20 <= e.gross < (e.fee + 1) * 20)
  {
    SplitFeeExact(splits[i].1, POOL_FEE_BPS);
    hide SplitFee;
  }

  // ---- Paying out -----------------------------------------------------------

  predicate Owed(e: PayoutEntry, miner: string) { !e.paid && e.miner == miner }

  /** A miner's unpaid net. */
  function Unpaid(entries: seq<PayoutEntry>, miner: string): nat {
    if entries == [] then 0 else (if Owed(entries[0], miner) then entries[0].net else 0) + Unpaid(entries[1..], miner)
  }

  /** The whole unpaid entries, oldest first, whose sum stays within `most`; `sum` is what came before. */
  function PayableUpTo(entries: seq<PayoutEntry>, miner: string, most: u64, sum: u64): u64 {
    if entries == [] then sum
    else if !Owed(entries[0], miner) then PayableUpTo(entries[1..], miner, most, sum)
    else
      var next := SatAdd(sum, entries[0].net);
      if next > most then sum else PayableUpTo(entries[1..], miner, most, next)
  }

  /** The unpaid net of the first `n` entries. */
  function UnpaidTo(entries: seq<PayoutEntry>, miner: string, n: nat): nat
    requires n <= |entries|
  {
    Unpaid(entries[..n], miner)
  }

  /** What is payable is the unpaid net of the longest first part of the entries that stays within the limit. */
  lemma {:induction false} PayableIsLargest(entries: seq<PayoutEntry>, miner: string, most: u64, sum: u64)
    returns (n: nat)
    requires sum <= most
    ensures n <= |entries|
    ensures PayableUpTo(entries, miner, most, sum) == SatAdd(sum, UnpaidTo(entries, miner, n)) <= most
    ensures forall m :: n < m <= |entries| ==> SatAdd(sum, UnpaidTo(entries, miner, m)) > most
  {
    n := 0;
    if entries != [] {
      var head := if Owed(entries[0], miner) then entries[0].net else 0;
      forall m | 1 <= m <= |entries|
        ensures UnpaidTo(entries, miner, m) == head + UnpaidTo(entries[1..], miner, m - 1)
      {
        assert entries[..m][1..] == entries[1..][..m - 1];
      }
      if SatAdd(sum, head) <= most {
        var k := PayableIsLargest(entries[1..], miner, most, SatAdd(sum, head));
        n := k + 1;
      } else {
        forall m | 1 <= m <= |entries| ensures SatAdd(sum, UnpaidTo(entries, miner, m)) > most {
          assert UnpaidTo(entries, miner, m) == head + UnpaidTo(entries[1..], miner, m - 1);
        }
      }
    }
  }

  /** Marking unpaid entries, oldest first, until `amount` is covered; `sum` is what came before. */
  function MarkUpTo(entries: seq<PayoutEntry>, miner: string, amount: u64, sum: u64): (seq<PayoutEntry>, u64) {
    if entries == [] then ([], sum)
    else if !Owed(entries[0], miner) then
      var (rest, total) := MarkUpTo(entries[1..], miner, amount, sum);
      ([entries[0]] + rest, total)
    else if sum >= amount then (entries, sum)
    else
      var (rest, total) := MarkUpTo(entries[1..], miner, amount, SatAdd(sum, entries[0].net));
      ([entries[0].(paid := true)] + rest, total)
  }

  lemma MarkUnfold(entries: seq<PayoutEntry>, miner: string, amount: u64, sum: u64)
    ensures var r := MarkUpTo(entries, miner, amount, sum);
            if entries == [] then r == ([], sum)
            else if Owed(entries[0], miner) && sum >= amount then r == (entries, sum)
            else
              var owed := Owed(entries[0], miner);
              var rest := MarkUpTo(entries[1..], miner, amount, if owed then SatAdd(sum, entries[0].net) else sum);
              r == ([if owed then entries[0].(paid := true) else entries[0]] + rest.0, rest.1)
  {
  }

  lemma Advance(done: seq<PayoutEntry>, tail: seq<PayoutEntry>, e: PayoutEntry, rest: seq<PayoutEntry>)
    requires tail != []
    ensures (done + tail)[|done| := e] == (done + [e]) + tail[1..]
    ensures done + ([e] + rest) == (done + [e]) + rest
    ensures (done + tail)[|done|] == tail[0]
    ensures e == tail[0] ==> done + tail == (done + [e]) + tail[1..]
  {
  }

  lemma {:induction false} PayableBounds(entries: seq<PayoutEntry>, miner: string, most: u64, sum: u64)
    requires sum <= most
    ensures sum <= PayableUpTo(entries, miner, most, sum) <= most
  {
    if entries != [] {
      if Owed(entries[0], miner) {
        var next := SatAdd(sum, entries[0].net);
        if next <= most { PayableBounds(entries[1..], miner, most, next); }
      } else {
        PayableBounds(entries[1..], miner, most, sum);
      }
    }
  }

  /** Paying exactly what was found payable marks exactly that, whatever has been appended since. */
  lemma {:induction false} MarkedIsPayable(entries: seq<PayoutEntry>, appended: seq<PayoutEntry>, miner: string,
                                           most: u64, sum: u64)
    requires sum <= most
    ensures MarkUpTo(entries + appended, miner, PayableUpTo(entries, miner, most, sum), sum).1
              == PayableUpTo(entries, miner, most, sum)
  {
    var amount := PayableUpTo(entries, miner, most, sum);
    PayableBounds(entries, miner, most, sum);
    if entries == [] {
      MarkNothing(entries + appended, miner, amount, sum);
    } else {
      assert (entries + appended)[0] == entries[0] && (entries + appended)[1..] == entries[1..] + appended;
      if !Owed(entries[0], miner) {
        MarkedIsPayable(entries[1..], appended, miner, most, sum);
      } else {
        var next := SatAdd(sum, entries[0].net);
        if next > most || amount == sum {
          MarkNothing(entries + appended, miner, amount, sum);
        } else {
          MarkedIsPayable(entries[1..], appended, miner, most, next);
        }
      }
    }
  }

  lemma {:induction false} MarkNothing(entries: seq<PayoutEntry>, miner: string, amount: u64, sum: u64)
    requires sum >= amount
    ensures MarkUpTo(entries, miner, amount, sum) == (entries, sum)
  {
    if entries != [] {
      MarkNothing(entries[1..], miner, amount, sum);
      assert [entries[0]] + entries[1..] == entries;
    }
  }

  /** The same ledger but for paid flags of one miner. */
  ghost predicate OnlyMarks(before: seq<PayoutEntry>, after: seq<PayoutEntry>, miner: string) {
    && |after| == |before|
    && forall i :: 0 <= i < |before| ==>
         after[i] == before[i] || (Owed(before[i], miner) && after[i] == before[i].(paid := true))
  }

  /** Marking touches nobody else's entries and, without overflow, lowers the miner's unpaid net by what it marked. */
  lemma {:induction false} MarkLowersUnpaid(entries: seq<PayoutEntry>, miner: string, amount: u64, sum: u64)
    requires sum + Unpaid(entries, miner) <= U64_MAX
    ensures var (after, total) := MarkUpTo(entries, miner, amount, sum);
            && OnlyMarks(entries, after, miner) && total >= sum
            && Unpaid(after, miner) == Unpaid(entries, miner) - (total - sum)
  {
    if entries != [] {
      var e := entries[0];
      if !Owed(e, miner) {
        MarkLowersUnpaid(entries[1..], miner, amount, sum);
        var (rest, _) := MarkUpTo(entries[1..], miner, amount, sum);
        assert ([e] + rest)[1..] == rest;
      } else if sum < amount {
        MarkLowersUnpaid(entries[1..], miner, amount, sum + e.net);
        var (rest, _) := MarkUpTo(entries[1..], miner, amount, sum + e.net);
        assert ([e.(paid := true)] + rest)[1..] == rest;
      }
    }
  }

  lemma {:induction false} OthersUnpaid(before: seq<PayoutEntry>, after: seq<PayoutEntry>, miner: string, other: string)
    requires OnlyMarks(before, after, miner) && other != miner
    ensures Unpaid(after, other) == Unpaid(before, other)
  {
    if before != [] {
      OthersUnpaid(before[1..], after[1..], miner, other);
    }
  }

  /** Marking up to a payable amount: exactly that amount, off that miner's unpaid net, and nothing else. */
  lemma PaymentSettles(entries: seq<PayoutEntry>, appended: seq<PayoutEntry>, miner: string, most: u64)
    requires Unpaid(entries + appended, miner) <= U64_MAX
    ensures var amount := PayableUpTo(entries, miner, most, 0);
            var (after, marked) := MarkUpTo(entries + appended, miner, amount, 0);
            && marked == amount <= most
            && OnlyMarks(entries + appended, after, miner)
            && Unpaid(after, miner) == Unpaid(entries + appended, miner) - amount
            && forall other :: other != miner ==> Unpaid(after, other) == Unpaid(entries + appended, other)
  {
    PayableBounds(entries, miner, most, 0);
    MarkedIsPayable(entries, appended, miner, most, 0);
    var amount := PayableUpTo(entries, miner, most, 0);
    MarkLowersUnpaid(entries + appended, miner, amount, 0);
    var after := MarkUpTo(entries + appended, miner, amount, 0).0;
    hide *;
    forall other | other != miner ensures Unpaid(after, other) == Unpaid(entries + appended, other) {
      OthersUnpaid(entries + appended, after, miner, other);
    }
  }

  // ---- One payout cycle -----------------------------------------------------

  /** What a cycle leaves: the ledger, the payments sent, the balance left, and the entries that arrived meanwhile. */
  datatype CycleResult = CycleResult(entries: seq<PayoutEntry>, payments: seq<Split>, left: u64,
                                     arrived: seq<PayoutEntry>)

  /** From the i-th due miner on: pays what fits the balance, when the wallet manages to send it. New entries may arrive
      before each look at the ledger and again while the wallet sends. */
  function Cycle(entries: seq<PayoutEntry>, spendable: u64, due: seq<string>, arrivals: nat -> seq<PayoutEntry>,
                 sends: nat -> bool, i: nat): CycleResult
    requires i <= |due|
    decreases |due| - i
  {
    if i == |due| || spendable <= MIN_RELAY_FEE then CycleResult(entries, [], spendable, [])
    else
      var seen := entries + arrivals(2 * i);
      var payable := PayableUpTo(seen, due[i], spendable - MIN_RELAY_FEE, 0);
      if payable == 0 then
        var r := Cycle(seen, spendable, due, arrivals, sends, i + 1);
        r.(arrived := arrivals(2 * i) + r.arrived)
      else
        var later := seen + arrivals(2 * i + 1);
        if !sends(i) then
          var r := Cycle(later, spendable, due, arrivals, sends, i + 1);
          r.(arrived := arrivals(2 * i) + arrivals(2 * i + 1) + r.arrived)
        else
          var marked := MarkUpTo(later, due[i], payable, 0).0;
          var r := Cycle(marked, SatSub(spendable, SatAdd(payable, MIN_RELAY_FEE)), due, arrivals, sends, i + 1);
          r.(payments := [(due[i], payable)] + r.payments, arrived := arrivals(2 * i) + arrivals(2 * i + 1) + r.arrived)
  }

  /** One turn of the cycle. */
  lemma CycleUnfold(entries: seq<PayoutEntry>, spendable: u64, due: seq<string>, arrivals: nat -> seq<PayoutEntry>,
                    sends: nat -> bool, i: nat)
    requires i < |due| && spendable > MIN_RELAY_FEE
    ensures var whole := Cycle(entries, spendable, due, arrivals, sends, i);
            var seen := entries + arrivals(2 * i);
            var later := seen + arrivals(2 * i + 1);
            var payable := PayableUpTo(seen, due[i], spendable - MIN_RELAY_FEE, 0);
            var marked := MarkUpTo(later, due[i], payable, 0).0;
            var left := SatSub(spendable, SatAdd(payable, MIN_RELAY_FEE));
            var rest := if payable == 0 then Cycle(seen, spendable, due, arrivals, sends, i + 1)
                        else if !sends(i) then Cycle(later, spendable, due, arrivals, sends, i + 1)
                        else Cycle(marked, left, due, arrivals, sends, i + 1);
            && whole.entries == rest.entries && whole.left == rest.left
            && whole.payments == (if payable > 0 && sends(i) then [(due[i], payable)] else []) + rest.payments
  {
    hide PayableUpTo, MarkUpTo;
  }

  lemma {:induction false} SplitSumHead(s: Split, rest: seq<Split>)
    ensures SplitSum([s] + rest) == s.1 + SplitSum(rest)
  {
    if rest == [] {
      assert [s] + rest == [s];
      assert SplitSum([s]) == SplitSum([]) + s.1;
    } else {
      SplitSumHead(s, rest[..|rest| - 1]);
      assert ([s] + rest)[..|rest|] == [s] + rest[..|rest| - 1];
    }
  }

  /** A cycle's payments and their fees are exactly what left the balance it started from. */
  lemma {:induction false} CycleWithinBudget(entries: seq<PayoutEntry>, spendable: u64, due: seq<string>,
                                             arrivals: nat -> seq<PayoutEntry>, sends: nat -> bool, i: nat)
    requires i <= |due|
    ensures var r := Cycle(entries, spendable, due, arrivals, sends, i);
            SplitSum(r.payments) + MIN_RELAY_FEE * |r.payments| + r.left == spendable
    decreases |due| - i
  {
    hide PayableUpTo, MarkUpTo, SplitSum;
    if i == |due| || spendable <= MIN_RELAY_FEE {
      assert SplitSum([]) == 0 by { SplitSumEmpty(); }
    } else {
      var seen := entries + arrivals(2 * i);
      var payable := PayableUpTo(seen, due[i], spendable - MIN_RELAY_FEE, 0);
      var later := seen + arrivals(2 * i + 1);
      if payable == 0 {
        CycleWithinBudget(seen, spendable, due, arrivals, sends, i + 1);
      } else if !sends(i) {
        CycleWithinBudget(later, spendable, due, arrivals, sends, i + 1);
      } else {
        PayableBounds(seen, due[i], spendable - MIN_RELAY_FEE, 0);
        var marked := MarkUpTo(later, due[i], payable, 0).0;
        var left := SatSub(spendable, SatAdd(payable, MIN_RELAY_FEE));
        CycleWithinBudget(marked, left, due, arrivals, sends, i + 1);
        SplitSumHead((due[i], payable), Cycle(marked, left, due, arrivals, sends, i + 1).payments);
      }
    }
  }

  /** Whether the balance covers the unpaid nets of the due miners from the i-th on, and a fee for each. */
  function Needed(entries: seq<PayoutEntry>, due: seq<string>, i: nat): nat
    requires i <= |due|
    decreases |due| - i
  {
    if i == |due| then 0 else Unpaid(entries, due[i]) + MIN_RELAY_FEE + Needed(entries, due, i + 1)
  }

  lemma {:induction false} PayableIsAll(entries: seq<PayoutEntry>, miner: string, most: u64, sum: u64)
    requires sum + Unpaid(entries, miner) <= most
    ensures PayableUpTo(entries, miner, most, sum) == sum + Unpaid(entries, miner)
  {
    if entries != [] {
      var next := if Owed(entries[0], miner) then sum + entries[0].net else sum;
      PayableIsAll(entries[1..], miner, most, next);
    }
  }

  lemma {:induction false} NeededStays(before: seq<PayoutEntry>, after: seq<PayoutEntry>, due: seq<string>, i: nat)
    requires i <= |due| && forall j :: i <= j < |due| ==> Unpaid(after, due[j]) == Unpaid(before, due[j])
    ensures Needed(after, due, i) == Needed(before, due, i)
    decreases |due| - i
  {
    if i < |due| { NeededStays(before, after, due, i + 1); }
  }

  /** With a balance that covers them all and a wallet that sends, every due miner is paid its whole unpaid net, once
      and in order. */
  lemma {:induction false} CyclePaysInFull(entries: seq<PayoutEntry>, spendable: u64, due: seq<string>,
                                           arrivals: nat -> seq<PayoutEntry>, sends: nat -> bool, i: nat)
    requires i <= |due| && Distinct(due) && Needed(entries, due, i) <= spendable
    requires forall j: nat :: sends(j) && arrivals(j) == []
    requires forall j :: i <= j < |due| ==> Unpaid(entries, due[j]) > 0
    ensures var r := Cycle(entries, spendable, due, arrivals, sends, i);
            && |r.payments| == |due| - i
            && (forall j :: 0 <= j < |due| - i ==> r.payments[j] == (due[i + j], Unpaid(entries, due[i + j])))
            && r.left == spendable - Needed(entries, due, i)
    decreases |due| - i
  {
    hide *;
    NeededIs(entries, due, i);
    if i == |due| {
      CycleEnds(entries, spendable, due, arrivals, sends, i);
    } else {
      var miner, amount := due[i], Unpaid(entries, due[i]);
      var later := entries + arrivals(2 * i);
      assert later == entries && later + arrivals(2 * i + 1) == entries;
      assert spendable > MIN_RELAY_FEE && amount + MIN_RELAY_FEE <= spendable;
      CycleUnfold(entries, spendable, due, arrivals, sends, i);
      PayableIsAll(entries, miner, spendable - MIN_RELAY_FEE, 0);
      assert entries + [] == entries;
      PaymentSettles(entries, [], miner, spendable - MIN_RELAY_FEE);
      var marked := MarkUpTo(entries, miner, amount, 0).0;
      DistinctFrom(due, i);
      NeededStays(entries, marked, due, i + 1);
      SmallSums(spendable, amount);
      CyclePaysInFull(marked, spendable - amount - MIN_RELAY_FEE, due, arrivals, sends, i + 1);
      var whole := Cycle(entries, spendable, due, arrivals, sends, i);
      var rest := Cycle(marked, spendable - amount - MIN_RELAY_FEE, due, arrivals, sends, i + 1);
      assert whole.payments == [(miner, amount)] + rest.payments;
      forall j | 0 <= j < |due| - i ensures whole.payments[j] == (due[i + j], Unpaid(entries, due[i + j])) {
        if j > 0 { assert whole.payments[j] == rest.payments[j - 1]; }
      }
    }
  }

  lemma SmallSums(spendable: u64, amount: nat)
    requires amount + MIN_RELAY_FEE <= spendable
    ensures SatSub(spendable, SatAdd(amount, MIN_RELAY_FEE)) == spendable - amount - MIN_RELAY_FEE
  {
  }

  lemma DistinctFrom(due: seq<string>, i: nat)
    requires Distinct(due) && i < |due|
    ensures forall j :: i < j < |due| ==> due[j] != due[i]
  {
  }

  lemma NeededIs(entries: seq<PayoutEntry>, due: seq<string>, i: nat)
    requires i <= |due|
    ensures MIN_RELAY_FEE == 10_000
    ensures Needed(entries, due, i) ==
              if i == |due| then 0 else Unpaid(entries, due[i]) + MIN_RELAY_FEE + Needed(entries, due, i + 1)
  {
    hide Unpaid;
  }

  lemma SplitSumEmpty()
    ensures SplitSum([]) == 0
  {
  }

  lemma {:induction false} UnpaidConcat(a: seq<PayoutEntry>, b: seq<PayoutEntry>, miner: string)
    ensures Unpaid(a + b, miner) == Unpaid(a, miner) + Unpaid(b, miner)
  {
    if a == [] {
      assert a + b == b;
    } else {
      UnpaidConcat(a[1..], b, miner);
      assert (a + b)[1..] == a[1..] + b && (a + b)[0] == a[0];
    }
  }

  /** Payments to one miner. */
  function PaidTo(payments: seq<Split>, miner: string): nat {
    if payments == [] then 0 else (if payments[0].0 == miner then payments[0].1 else 0) + PaidTo(payments[1..], miner)
  }

  lemma PaidToHead(s: Split, rest: seq<Split>, miner: string)
    ensures PaidTo([s] + rest, miner) == (if s.0 == miner then s.1 else 0) + PaidTo(rest, miner)
  {
    assert ([s] + rest)[1..] == rest;
  }

  /** Every miner's unpaid net falls by exactly what the cycle paid it, whatever arrived meanwhile. */
  lemma {:induction false} CycleSettles(entries: seq<PayoutEntry>, spendable: u64, due: seq<string>,
                                        arrivals: nat -> seq<PayoutEntry>, sends: nat -> bool, i: nat, miner: string)
    requires i <= |due|
    requires forall m :: Unpaid(entries + Cycle(entries, spendable, due, arrivals, sends, i).arrived, m) <= U64_MAX
    ensures var r := Cycle(entries, spendable, due, arrivals, sends, i);
            && |r.entries| == |entries| + |r.arrived|
            && Unpaid(r.entries, miner) + PaidTo(r.payments, miner) == Unpaid(entries + r.arrived, miner)
    decreases |due| - i
  {
    hide PayableUpTo, MarkUpTo, Unpaid;
    var whole := Cycle(entries, spendable, due, arrivals, sends, i);
    if i == |due| || spendable <= MIN_RELAY_FEE {
      assert entries + [] == entries;
    } else {
      var a, b := arrivals(2 * i), arrivals(2 * i + 1);
      var seen, later := entries + a, entries + a + b;
      var payable := PayableUpTo(seen, due[i], spendable - MIN_RELAY_FEE, 0);
      if payable == 0 {
        var r := Cycle(seen, spendable, due, arrivals, sends, i + 1);
        assert seen + r.arrived == entries + whole.arrived;
        CycleSettles(seen, spendable, due, arrivals, sends, i + 1, miner);
      } else if !sends(i) {
        var r := Cycle(later, spendable, due, arrivals, sends, i + 1);
        assert later + r.arrived == entries + whole.arrived;
        CycleSettles(later, spendable, due, arrivals, sends, i + 1, miner);
      } else {
        var marked := MarkUpTo(later, due[i], payable, 0).0;
        var left := SatSub(spendable, SatAdd(payable, MIN_RELAY_FEE));
        var r := Cycle(marked, left, due, arrivals, sends, i + 1);
        assert later + r.arrived == entries + whole.arrived;
        PaymentThenRest(seen, b, due[i], spendable - MIN_RELAY_FEE, r.arrived);
        CycleSettles(marked, left, due, arrivals, sends, i + 1, miner);
        PaidToHead((due[i], payable), r.payments, miner);
      }
    }
  }

  /** A payment's effect on unpaid nets carries through whatever arrives afterwards. */
  lemma PaymentThenRest(seen: seq<PayoutEntry>, appended: seq<PayoutEntry>, miner: string, most: u64,
                        rest: seq<PayoutEntry>)
    requires forall m :: Unpaid(seen + appended + rest, m) <= U64_MAX
    ensures var amount := PayableUpTo(seen, miner, most, 0);
            var after := MarkUpTo(seen + appended, miner, amount, 0).0;
            && |after| == |seen + appended|
            && forall m :: Unpaid(after + rest, m)
                             == Unpaid(seen + appended + rest, m) - (if m == miner then amount else 0)
  {
    hide PayableUpTo, MarkUpTo, Unpaid;
    UnpaidConcat(seen + appended, rest, miner);
    PaymentSettles(seen, appended, miner, most);
    var after := MarkUpTo(seen + appended, miner, PayableUpTo(seen, miner, most, 0), 0).0;
    forall m ensures Unpaid(after + rest, m) == Unpaid(after, m) + Unpaid(rest, m)
                  && Unpaid(seen + appended + rest, m) == Unpaid(seen + appended, m) + Unpaid(rest, m) {
      UnpaidConcat(after, rest, m);
      UnpaidConcat(seen + appended, rest, m);
    }
  }

  ghost predicate HasUnpaid(entries: seq<PayoutEntry>, miner: string) { exists e :: e in entries && Owed(e, miner) }

  /** Miners with something unpaid whose (wrapped) unpaid net reaches the threshold, each once, in any order. */
  ghost predicate DueList(entries: seq<PayoutEntry>, threshold: u64, due: seq<string>) {
    && Distinct(due)
    && forall m :: m in due <==> HasUnpaid(entries, m) && Wrap(Unpaid(entries, m)) >= threshold
  }

  // ---- The pool's objects ---------------------------------------------------

  class ShareWindow {
    const n: nat
    var shares: seq<Share>

    constructor (n: nat)
      ensures this.n == n && shares == PushAll(n, [])
    {
      this.n := n;
      shares := [];
    }

    method Push(share: Share)
      modifies this
      ensures shares == Pushed(old(shares), n, share)
    {
      if |shares| >= n && shares != [] { shares := shares[1..]; }
      shares := shares + [share];
    }

    method TotalWeight() returns (total: u64)
      ensures total == TotalOf(shares)
    {
      total := 0;
      for i := 0 to |shares|
        invariant total == Min(WeightSum(shares[..i]), U64_MAX)
      {
        assert shares[..i + 1][..i] == shares[..i];
        total := SatAdd(total, Weight(shares[i]));
      }
      assert shares[..|shares|] == shares;
    }

    method MinerWeights() returns (m: map<string, u64>)
      ensures m.Keys == Miners(shares) && forall a :: a in m ==> m[a] == Wrap(MinerWeight(shares, a))
    {
      hide Wrap, Weight, MinerWeight, Miners;
      m := map[];
      MinersOfPrefix(shares, 0);
      for i := 0 to |shares|
        invariant m.Keys == Miners(shares[..i])
        invariant forall a :: a in m ==> m[a] == Wrap(MinerWeight(shares[..i], a))
      {
        var share := shares[i];
        MinersOfPrefix(shares, i + 1);
        var before := if share.miner in m then m[share.miner] else 0;
        if share.miner !in m { NotYetWeighed(shares[..i], share.miner); }
        WrapAdds(MinerWeight(shares[..i], share.miner), Weight(share));
        var sum: int := before + Weight(share);
        m := m[share.miner := Wrap(sum)];
      }
      assert shares[..|shares|] == shares;
    }
  }

  /** One more share adds its miner, and its weight to that miner alone. */
  lemma MinersOfPrefix(shares: seq<Share>, n: nat)
    requires n <= |shares|
    ensures if n == 0 then Miners(shares[..n]) == {} else
              && Miners(shares[..n]) == Miners(shares[..n - 1]) + {shares[n - 1].miner}
              && forall a :: MinerWeight(shares[..n], a) == MinerWeight(shares[..n - 1], a)
                             + if shares[n - 1].miner == a then Weight(shares[n - 1]) else 0
  {
    if n > 0 {
      assert shares[..n][..n - 1] == shares[..n - 1];
      assert shares[..n] == shares[..n - 1] + [shares[n - 1]];
      hide Weight;
    }
  }

  lemma {:induction false} NotYetWeighed(shares: seq<Share>, miner: string)
    requires miner !in Miners(shares)
    ensures MinerWeight(shares, miner) == 0 && Wrap(MinerWeight(shares, miner)) == 0
  {
    if shares != [] {
      var n := |shares| - 1;
      assert shares[n].miner in Miners(shares);
      assert Miners(shares[..n]) <= Miners(shares);
      NotYetWeighed(shares[..n], miner);
    }
  }

  lemma WrapAdds(a: nat, b: nat)
    ensures Wrap(Wrap(a) + b) == Wrap(a + b)
  {
    var m := U64_MAX + 1;
    var r := Wrap(a) + b;
    assert a == m * (a / m) + Wrap(a) && r == m * (r / m) + Wrap(r);
    assert a + b == m * (a / m + r / m) + Wrap(r);
    QuotientUnique(a + b, m, a / m + r / m, Wrap(r));
  }

  predicate Descending(s: seq<Split>) { forall i, j :: 0 <= i < j < |s| ==> s[j].1 <= s[i].1 }

  lemma NothingSplit()
    ensures Descending([]) && Distinct(Names([]))
  {
  }

  lemma NamesAre(splits: seq<Split>)
    ensures forall name :: name in Names(splits) <==> exists s :: s in splits && s.0 == name
    ensures forall s :: s in splits ==> s.0 in Names(splits)
  {
    forall s | s in splits ensures s.0 in Names(splits) {
      var i :| 0 <= i < |splits| && splits[i] == s;
      assert Names(splits)[i] == s.0;
    }
  }

  lemma InsertKeepsOrder(sorted: seq<Split>, at: nat, s: Split)
    requires Descending(sorted) && at <= |sorted|
    requires at > 0 ==> s.1 <= sorted[at - 1].1
    requires forall i :: at <= i < |sorted| ==> sorted[i].1 < s.1
    ensures Descending(sorted[..at] + [s] + sorted[at..])
  {
  }

  lemma InsertKeepsDistinct(names: seq<string>, at: nat, name: string)
    requires Distinct(names) && name !in names && at <= |names|
    ensures Distinct(names[..at] + [name] + names[at..])
  {
    forall i | 0 <= i < |names| ensures names[i] != name {
    }
  }

  lemma InsertKeepsNames(sorted: seq<Split>, at: nat, s: Split)
    requires Distinct(Names(sorted)) && s.0 !in Names(sorted) && at <= |sorted|
    ensures var r := sorted[..at] + [s] + sorted[at..];
            Distinct(Names(r)) && forall x :: x in r <==> x in sorted || x == s
  {
    var r := sorted[..at] + [s] + sorted[at..];
    assert Names(r) == Names(sorted)[..at] + [s.0] + Names(sorted)[at..];
    InsertKeepsDistinct(Names(sorted), at, s.0);
    hide Distinct, Names;
    assert sorted == sorted[..at] + sorted[at..];
  }

  class PayoutLedger {
    var entries: seq<PayoutEntry>
    const window: ShareWindow

    constructor (n: nat)
      ensures entries == [] && fresh(window) && window.n == n && window.shares == []
    {
      entries := [];
      window := new ShareWindow(n);
    }

    method Insert(sorted: seq<Split>, s: Split) returns (r: seq<Split>)
      requires Descending(sorted) && Distinct(Names(sorted)) && s.0 !in Names(sorted)
      ensures Descending(r) && Distinct(Names(r)) && forall x :: x in r <==> x in sorted || x == s
    {
      var at := |sorted|;
      while at > 0 && sorted[at - 1].1 < s.1
        invariant 0 <= at <= |sorted|
        invariant forall i :: at <= i < |sorted| ==> sorted[i].1 < s.1
      {
        at := at - 1;
      }
      r := sorted[..at] + [s] + sorted[at..];
      InsertKeepsOrder(sorted, at, s);
      InsertKeepsNames(sorted, at, s);
      hide *;
    }

    /** Every miner's non-zero quota, largest first. */
    method CollectQuotas(weights: map<string, u64>, total: pos, gross: u64) returns (splits: seq<Split>)
      ensures Descending(splits) && Distinct(Names(splits))
      ensures forall s :: s in splits ==> s.0 in weights && s.1 == Quota(gross, weights[s.0], total) > 0
      ensures forall m :: m in weights && Quota(gross, weights[m], total) > 0 ==> m in Names(splits)
    {
      NothingSplit();
      hide *;
      splits := [];
      var left := weights.Keys;
      while left != {}
        invariant left <= weights.Keys
        invariant Descending(splits) && Distinct(Names(splits))
        invariant forall s :: s in splits ==>
                    s.0 in weights && s.0 !in left && s.1 == Quota(gross, weights[s.0], total) > 0
        invariant forall m :: m in weights && m !in left && Quota(gross, weights[m], total) > 0 ==>
                    (m, Quota(gross, weights[m], total)) in splits
        decreases |left|
      {
        var addr :| addr in left;
        left := left - {addr};
        var part := Quota(gross, weights[addr], total);
        if part > 0 {
          NamesAre(splits);
          splits := Insert(splits, (addr, part));
        }
      }
      NamesAre(splits);
    }

    /** Splits a reward over the current window. */
    method PplnsSplit(gross: u64, fallback: string) returns (splits: seq<Split>)
      ensures SplitOf(window.shares, gross, fallback, splits)
    {
      var weights := window.MinerWeights();
      var total := window.TotalWeight();
      if window.shares != [] { SomeMiner(window.shares); }
      if total == 0 || weights == map[] {
        return [(fallback, gross)];
      }
      splits := CollectQuotas(weights, total, gross);
      hide PartOf, Miners, Quota, Wrap, MinerWeight, TotalOf, WeightSum, Descending, Distinct, Names;
      forall m | m in weights ensures Quota(gross, weights[m], total) == PartOf(window.shares, gross, m) {
        PartUnfold(window.shares, gross, m);
      }
    }

    /** Credits a found block: the winning share joins the window first, then every miner's part is entered. */
    method CreditBlock(height: nat, hash: string, share: Share, gross: u64) returns (ghost splits: seq<Split>)
      modifies this`entries, window
      ensures window.shares == Pushed(old(window.shares), window.n, share)
      ensures SplitOf(window.shares, gross, share.miner, splits)
      ensures entries == old(entries) + BlockEntries(height, hash, splits)
    {
      hide SplitOf, NewEntry;
      window.Push(share);
      var parts := PplnsSplit(gross, share.miner);
      splits := parts;
      for i := 0 to |parts|
        invariant window.shares == Pushed(old(window.shares), window.n, share)
        invariant entries == old(entries) + BlockEntries(height, hash, parts[..i])
      {
        assert BlockEntries(height, hash, parts[..i + 1])
            == BlockEntries(height, hash, parts[..i]) + [NewEntry(height, hash, parts[i].0, parts[i].1)];
        entries := entries + [NewEntry(height, hash, parts[i].0, parts[i].1)];
      }
      assert parts[..|parts|] == parts;
    }

    method PayableAtoms(miner: string, most: u64) returns (payable: u64)
      ensures payable == PayableUpTo(entries, miner, most, 0)
    {
      payable := 0;
      var i := 0;
      while i < |entries|
        invariant 0 <= i <= |entries|
        invariant PayableUpTo(entries, miner, most, 0) == PayableUpTo(entries[i..], miner, most, payable)
      {
        assert entries[i..][1..] == entries[i + 1..];
        if Owed(entries[i], miner) {
          var next := SatAdd(payable, entries[i].net);
          if next > most { return; }
          payable := next;
        }
        i := i + 1;
      }
    }

    method MarkPaidUpTo(miner: string, amount: u64) returns (marked: u64)
      modifies this`entries
      ensures (entries, marked) == MarkUpTo(old(entries), miner, amount, 0)
    {
      hide MarkUpTo;
      marked := 0;
      ghost var done, tail: seq<PayoutEntry> := [], entries;
      ghost var whole := MarkUpTo(entries, miner, amount, 0);
      assert [] + whole.0 == whole.0 && [] + entries == entries;
      var i := 0;
      while i < |entries|
        invariant i == |done| && entries == done + tail
        invariant var rest := MarkUpTo(tail, miner, amount, marked); whole == (done + rest.0, rest.1)
        decreases |tail|
      {
        MarkUnfold(tail, miner, amount, marked);
        var e := entries[i];
        assert e == tail[0];
        if Owed(e, miner) {
          if marked >= amount { return; }
          marked := SatAdd(marked, e.net);
          entries := entries[i := e.(paid := true)];
        }
        Advance(done, tail, entries[i], MarkUpTo(tail[1..], miner, amount, marked).0);
        done, tail := done + [entries[i]], tail[1..];
        i := i + 1;
      }
      MarkUnfold(tail, miner, amount, marked);
      assert done + [] == done;
    }

    /** Unpaid nets by miner. */
    method UnpaidByMiner() returns (pending: map<string, u64>)
      ensures forall m :: m in pending <==> HasUnpaid(entries, m)
      ensures forall m :: m in pending ==> pending[m] == Wrap(Unpaid(entries, m))
    {
      hide Wrap, Unpaid, HasUnpaid;
      pending := map[];
      NobodyUnpaid();
      for i := 0 to |entries|
        invariant forall m :: m in pending <==> HasUnpaid(entries[..i], m)
        invariant forall m :: m in pending ==> pending[m] == Wrap(Unpaid(entries[..i], m))
      {
        var e := entries[i];
        UnpaidOfPrefix(entries, i);
        if !e.paid {
          var before := if e.miner in pending then pending[e.miner] else 0;
          if e.miner !in pending { NothingUnpaid(entries[..i], e.miner); }
          WrapAdds(Unpaid(entries[..i], e.miner), e.net);
          var sum: int := before + e.net;
          pending := pending[e.miner := Wrap(sum)];
        }
      }
      assert entries[..|entries|] == entries;
    }

    /** The miners due, read off the ledger. */
    method CollectDue(threshold: u64) returns (due: seq<string>)
      ensures DueList(entries, threshold, due)
    {
      hide Wrap, HasUnpaid, Unpaid;
      var pending := UnpaidByMiner();
      due := [];
      var left := pending.Keys;
      while left != {}
        invariant left <= pending.Keys && Distinct(due)
        invariant forall m :: m in due <==> m in pending && m !in left && pending[m] >= threshold
        decreases |left|
      {
        var m :| m in left;
        left := left - {m};
        if pending[m] >= threshold { due := due + [m]; }
      }
    }

    /** One payout cycle against a wallet whose balance query and sends may fail. */
    method RunCycle(threshold: u64, balance: Result<u64, string>, arrivals: nat -> seq<PayoutEntry>, sends: nat -> bool)
      returns (payments: seq<Split>, ghost due: seq<string>)
      modifies this`entries
      ensures DueList(old(entries), threshold, due)
      ensures if due == [] || balance.Err? then entries == old(entries) && payments == []
              else var r := Cycle(old(entries), balance.value, due, arrivals, sends, 0);
                   entries == r.entries && payments == r.payments
    {
      hide DueList, PayableUpTo, MarkUpTo, Cycle;
      var list := CollectDue(threshold);
      due := list;
      payments := [];
      if list == [] || balance.Err? { return; }
      var spendable: u64 := balance.value;
      var i := 0;
      while i < |list|
        invariant 0 <= i <= |list|
        invariant var r := Cycle(old(entries), balance.value, list, arrivals, sends, 0);
                  var rest := Cycle(entries, spendable, list, arrivals, sends, i);
                  r.entries == rest.entries && r.payments == payments + rest.payments
      {
        if spendable <= MIN_RELAY_FEE { break; }
        CycleUnfold(entries, spendable, list, arrivals, sends, i);
        entries := entries + arrivals(2 * i);
        var payable := PayableAtoms(list[i], SatSub(spendable, MIN_RELAY_FEE));
        if payable > 0 {
          entries := entries + arrivals(2 * i + 1);
          if sends(i) {
            var marked := MarkPaidUpTo(list[i], payable);
            payments := payments + [(list[i], payable)];
            spendable := SatSub(spendable, SatAdd(payable, MIN_RELAY_FEE));
          }
        }
        i := i + 1;
      }
      CycleEnds(entries, spendable, list, arrivals, sends, i);
    }
  }

  lemma CycleEnds(entries: seq<PayoutEntry>, spendable: u64, due: seq<string>, arrivals: nat -> seq<PayoutEntry>,
                  sends: nat -> bool, i: nat)
    requires i <= |due| && (i == |due| || spendable <= MIN_RELAY_FEE)
    ensures Cycle(entries, spendable, due, arrivals, sends, i) == CycleResult(entries, [], spendable, [])
  {
  }

  lemma {:induction false} NothingUnpaid(entries: seq<PayoutEntry>, miner: string)
    requires !HasUnpaid(entries, miner)
    ensures Unpaid(entries, miner) == 0 && Wrap(Unpaid(entries, miner)) == 0
  {
    if entries != [] {
      assert entries[0] in entries;
      NothingUnpaid(entries[1..], miner);
    }
  }

  lemma NobodyUnpaid()
    ensures forall m :: !HasUnpaid([], m)
  {
  }

  lemma UnpaidOfPrefix(entries: seq<PayoutEntry>, i: nat)
    requires i < |entries|
    ensures forall m :: Unpaid(entries[..i + 1], m)
                          == Unpaid(entries[..i], m) + if Owed(entries[i], m) then entries[i].net else 0
    ensures forall m :: HasUnpaid(entries[..i + 1], m) <==> HasUnpaid(entries[..i], m) || Owed(entries[i], m)
  {
    assert entries[..i + 1] == entries[..i] + [entries[i]];
    assert entries[i] in entries[..i + 1];
    forall m
      ensures Unpaid(entries[..i + 1], m) == Unpaid(entries[..i], m) + if Owed(entries[i], m) then entries[i].net else 0
    {
      UnpaidConcat(entries[..i], [entries[i]], m);
      assert [entries[i]][1..] == [];
    }
  }
}
