/** Atomic settlement of an asset against coin: one transaction that moves the asset, pays the seller, the platform and
    the creator, and returns the change; and the check both parties run before signing it. */
module Settlements {
  import opened Prelude
  import opened Types
  import opened Codec
  import opened Carrier
  import opened Assets
  import opened Indexers
  import opened Validation
  import Supply

  type u16 = x: nat | x < 65536

  const PLATFORM_FEE_BPS: u16 := 250
  const PLATFORM: string := "txm1px2nmtp087mz8dv3lplqadwzxawk0c5kg0mt24"
  const CARRIER_ATOMS: u64 := 1_000
  /** The bytes of "payment:v1". */
  const PAYMENT_TAG: Bytes := [112, 97, 121, 109, 101, 110, 116, 58, 118, 49]

  datatype Terms = Terms(assetId: Hash256, amount: u64, price: u64, royaltyBps: u16, royaltyAddr: string,
                         sellerAddr: string, buyerAddr: string, minerFee: u64)

  type Funding = (OutPoint, u64)

  datatype SettlementError = FeesExceedPrice | InsufficientBuyerFunds | InvalidAddress(addr: string)

  datatype Mismatch = CarrierOutput | TransferOp | PlatformFee | Royalty | SellerProceeds

  // ---- Terms ----------------------------------------------------------------

  function Fee(t: Terms): u64
  {
    DivBound(t.price * PLATFORM_FEE_BPS, 10_000);
    t.price * PLATFORM_FEE_BPS / 10_000
  }

  /** `price * bps`, by repeated addition. */
  function Product(price: nat, bps: nat): nat { if bps == 0 then 0 else price + Product(price, bps - 1) }

  lemma {:induction false} ProductIs(price: nat, bps: nat)
    ensures Product(price, bps) == price * bps
  {
    if bps > 0 {
      ProductIs(price, bps - 1);
      assert price * bps == price * (bps - 1) + price;
    }
  }

  function RoyaltyOf(t: Terms): u64 {
    if t.royaltyBps == 0 || t.sellerAddr == t.royaltyAddr then 0 else Wrap(Product(t.price, t.royaltyBps) / 10_000)
  }

  /** What the seller is owed: the price less the two cuts. */
  function Net(t: Terms): nat { SatSub(t.price, Wrap(Fee(t) + RoyaltyOf(t))) }

  function Transferred(t: Terms): AssetOp { Transfer(t.assetId, t.amount, 0) }

  /** Cuts are rounded down to the basis point, and within 10000 basis points none is truncated. */
  lemma CutsRoundDown(t: Terms)
    requires t.royaltyBps <= 10_000
    ensures Fee(t) * 40 <= t.price < (Fee(t) + 1) * 40
    ensures t.royaltyBps != 0 && t.sellerAddr != t.royaltyAddr ==>
              RoyaltyOf(t) * 10_000 <= t.price * t.royaltyBps < (RoyaltyOf(t) + 1) * 10_000
  {
    ProductIs(t.price, t.royaltyBps);
    var product := t.price * t.royaltyBps;
    MulLe(t.royaltyBps, 10_000, t.price);
    assert product <= t.price * 10_000;
    assert product / 10_000 <= t.price;
  }

  // ---- Building -------------------------------------------------------------

  function FundSum(funds: seq<Funding>): nat {
    if funds == [] then 0 else FundSum(funds[..|funds| - 1]) + funds[|funds| - 1].1
  }

  function Inputs(funds: seq<Funding>): seq<TxInput> {
    seq(|funds|, i requires 0 <= i < |funds| => TxInput(funds[i].0, []))
  }

  function Proceeds(t: Terms, sellerAtoms: u64): u64 { Wrap(sellerAtoms + t.price - Fee(t) - RoyaltyOf(t)) }

  function Change(t: Terms, funds: seq<Funding>): u64 { Wrap(FundSum(funds) - t.price - CARRIER_ATOMS - t.minerFee) }

  /** One payment, unless it is optional and zero; an unusable address fails the whole build. */
  function Pay(w: World, outs: Result<seq<TxOutput>, SettlementError>, addr: string, atoms: u64)
    : Result<seq<TxOutput>, SettlementError>
  {
    if outs.Err? then outs
    else match w.p2pkh(addr)
         case None => Err(InvalidAddress(addr))
         case Some(script) => Ok(outs.value + [TxOutput(atoms, script)])
  }

  function PayIfAny(w: World, outs: Result<seq<TxOutput>, SettlementError>, addr: string, atoms: u64)
    : Result<seq<TxOutput>, SettlementError>
  {
    if atoms == 0 then outs else Pay(w, outs, addr, atoms)
  }

  function TransferOutput(t: Terms): TxOutput { TxOutput(0, OpReturnScript(Encode(Transferred(t)))) }

  /** The buyer's carrier, the transfer, the seller's proceeds, the two cuts, and the change. */
  function Payouts(w: World, t: Terms, proceeds: u64, change: u64): Result<seq<TxOutput>, SettlementError> {
    var carrier := Pay(w, Ok([]), t.buyerAddr, CARRIER_ATOMS);
    if carrier.Err? then carrier
    else
      var leading := Pay(w, Ok(carrier.value + [TransferOutput(t)]), t.sellerAddr, proceeds);
      var withFee := PayIfAny(w, leading, PLATFORM, Fee(t));
      PayIfAny(w, PayIfAny(w, withFee, t.royaltyAddr, RoyaltyOf(t)), t.buyerAddr, change)
  }

  function SettlementOutputs(w: World, t: Terms, sellerAtoms: u64, funds: seq<Funding>)
    : Result<seq<TxOutput>, SettlementError>
  {
    Payouts(w, t, Proceeds(t, sellerAtoms), Change(t, funds))
  }

  function BuildSettlement(w: World, t: Terms, seller: Funding, funds: seq<Funding>)
    : Result<Transaction, SettlementError>
  {
    if Wrap(Fee(t) + RoyaltyOf(t)) > t.price then Err(FeesExceedPrice)
    else if Wrap(FundSum(funds)) < Wrap(t.price + CARRIER_ATOMS + t.minerFee) then Err(InsufficientBuyerFunds)
    else match SettlementOutputs(w, t, seller.1, funds)
         case Err(e) => Err(e)
         case Ok(outs) => Ok(NewTransaction(w, Inputs([seller] + funds), outs, PAYMENT_TAG))
  }

  // ---- Verifying ------------------------------------------------------------

  predicate Pays(w: World, o: TxOutput, addr: string) { w.extractAddress(o.script) == Some(addr) }

  predicate HasExact(w: World, outs: seq<TxOutput>, addr: string, atoms: nat) {
    exists o :: o in outs && o.value == atoms && Pays(w, o, addr)
  }

  predicate HasAtLeast(w: World, outs: seq<TxOutput>, addr: string, atoms: nat) {
    exists o :: o in outs && o.value >= atoms && Pays(w, o, addr)
  }

  predicate CarriesToBuyer(w: World, outs: seq<TxOutput>, t: Terms) {
    outs != [] && outs[0].value == CARRIER_ATOMS && Pays(w, outs[0], t.buyerAddr)
  }

  function When(bad: bool, m: Mismatch): seq<Mismatch> { if bad then [m] else [] }

  /** What a settlement gets wrong; nothing means it keeps the terms. */
  function Mismatches(w: World, outs: seq<TxOutput>, t: Terms): seq<Mismatch> {
    When(!CarriesToBuyer(w, outs, t), CarrierOutput)
    + When(Extract(w.utf8Lossy, outs) != Some(Transferred(t)), TransferOp)
    + When(Fee(t) > 0 && !HasExact(w, outs, PLATFORM, Fee(t)), PlatformFee)
    + When(RoyaltyOf(t) > 0 && !HasExact(w, outs, t.royaltyAddr, RoyaltyOf(t)), Royalty)
    + When(!HasAtLeast(w, outs, t.sellerAddr, Net(t)), SellerProceeds)
  }

  lemma CleanMeans(w: World, outs: seq<TxOutput>, t: Terms)
    ensures Mismatches(w, outs, t) == [] <==>
              && CarriesToBuyer(w, outs, t)
              && Extract(w.utf8Lossy, outs) == Some(Transferred(t))
              && (Fee(t) > 0 ==> HasExact(w, outs, PLATFORM, Fee(t)))
              && (RoyaltyOf(t) > 0 ==> HasExact(w, outs, t.royaltyAddr, RoyaltyOf(t)))
              && HasAtLeast(w, outs, t.sellerAddr, Net(t))
  {
    hide CarriesToBuyer, HasExact, HasAtLeast, Extract;
  }

  // ---- A built settlement keeps its terms -----------------------------------

  /** The layout of every settlement that could be built. */
  lemma Layout(w: World, t: Terms, sellerAtoms: u64, funds: seq<Funding>)
    requires SettlementOutputs(w, t, sellerAtoms, funds).Ok?
    ensures SettlementOutputs(w, t, sellerAtoms, funds).value ==
              [TxOutput(CARRIER_ATOMS, AddressScript(w, t.buyerAddr)), TransferOutput(t),
               TxOutput(Proceeds(t, sellerAtoms), AddressScript(w, t.sellerAddr))]
              + PayTo(w, Fee(t), PLATFORM) + PayTo(w, RoyaltyOf(t), t.royaltyAddr)
              + PayTo(w, Change(t, funds), t.buyerAddr)
    ensures w.p2pkh(t.buyerAddr).Some? && w.p2pkh(t.sellerAddr).Some?
    ensures Fee(t) > 0 ==> w.p2pkh(PLATFORM).Some?
    ensures RoyaltyOf(t) > 0 ==> w.p2pkh(t.royaltyAddr).Some?
  {
    hide Fee, RoyaltyOf, Proceeds, Change, TransferOutput;
  }

  /** The addresses a settlement pays read back as themselves. */
  predicate AllPayable(w: World, t: Terms) {
    && w.Payable(t.buyerAddr) && w.Payable(t.sellerAddr)
    && (Fee(t) > 0 ==> w.Payable(PLATFORM))
    && (RoyaltyOf(t) > 0 ==> w.Payable(t.royaltyAddr))
  }

  lemma BuiltCarriesTransfer(w: World, t: Terms, sellerAtoms: u64, funds: seq<Funding>)
    requires w.PayScriptsCarryNoData() && t.assetId < Pow256(32)
    requires SettlementOutputs(w, t, sellerAtoms, funds).Ok?
    ensures Extract(w.utf8Lossy, SettlementOutputs(w, t, sellerAtoms, funds).value) == Some(Transferred(t))
  {
    hide *;
    var post := BehindTransfer(w, t, sellerAtoms, funds);
    CarriesBehindBuyer(w, t, TxOutput(CARRIER_ATOMS, AddressScript(w, t.buyerAddr)), post);
  }

  lemma BehindTransfer(w: World, t: Terms, sellerAtoms: u64, funds: seq<Funding>) returns (post: seq<TxOutput>)
    requires SettlementOutputs(w, t, sellerAtoms, funds).Ok?
    ensures SettlementOutputs(w, t, sellerAtoms, funds).value ==
              [TxOutput(CARRIER_ATOMS, AddressScript(w, t.buyerAddr))] + [TransferOutput(t)] + post
    ensures w.p2pkh(t.buyerAddr).Some?
  {
    Layout(w, t, sellerAtoms, funds);
    hide *;
    post := [TxOutput(Proceeds(t, sellerAtoms), AddressScript(w, t.sellerAddr))]
            + PayTo(w, Fee(t), PLATFORM) + PayTo(w, RoyaltyOf(t), t.royaltyAddr)
            + PayTo(w, Change(t, funds), t.buyerAddr);
  }

  /** Behind a payment to the buyer, the transfer is what is extracted. */
  lemma CarriesBehindBuyer(w: World, t: Terms, first: TxOutput, post: seq<TxOutput>)
    requires w.PayScriptsCarryNoData() && w.p2pkh(t.buyerAddr).Some? && t.assetId < Pow256(32)
    requires first.script == AddressScript(w, t.buyerAddr)
    ensures Extract(w.utf8Lossy, [first] + [TransferOutput(t)] + post) == Some(Transferred(t))
  {
    hide Extract, Encode, OpReturnScript, Pow256;
    assert WithinLimits(w.utf8Lossy, Transferred(t));
    assert !IsOpReturn(first.script);
    ExtractCarried(w.utf8Lossy, [first], TransferOutput(t), post, Transferred(t));
  }

  lemma BuildParts(w: World, t: Terms, seller: Funding, funds: seq<Funding>)
    requires BuildSettlement(w, t, seller, funds).Ok?
    ensures Wrap(Fee(t) + RoyaltyOf(t)) <= t.price && Wrap(t.price + CARRIER_ATOMS + t.minerFee) <= Wrap(FundSum(funds))
    ensures SettlementOutputs(w, t, seller.1, funds) == Ok(BuildSettlement(w, t, seller, funds).value.outputs)
  {
    hide Fee, RoyaltyOf, Wrap, FundSum, SettlementOutputs;
  }

  lemma WrapFits(x: int)
    ensures 0 <= x <= U64_MAX ==> Wrap(x) == x
    ensures U64_MAX < x <= 2 * U64_MAX ==> Wrap(x) == x - U64_MAX - 1
  {
  }

  /** Wrapped or not, the proceeds are the seller's own coin plus the net price, modulo the word. */
  lemma ProceedsAreNet(t: Terms, sellerAtoms: u64)
    requires Wrap(Fee(t) + RoyaltyOf(t)) <= t.price
    ensures Net(t) <= t.price && Proceeds(t, sellerAtoms) == Wrap(sellerAtoms + Net(t))
  {
    hide Fee, RoyaltyOf;
    var cuts := Fee(t) + RoyaltyOf(t);
    assert Wrap(cuts) == cuts || Wrap(cuts) == cuts - U64_MAX - 1;
    assert sellerAtoms + t.price - cuts == sellerAtoms + Net(t)
           || sellerAtoms + t.price - cuts == sellerAtoms + Net(t) - U64_MAX - 1;
  }

  lemma BuiltPayments(w: World, t: Terms, sellerAtoms: u64, funds: seq<Funding>)
    requires AllPayable(w, t) && SettlementOutputs(w, t, sellerAtoms, funds).Ok?
    ensures var outs := SettlementOutputs(w, t, sellerAtoms, funds).value;
            && CarriesToBuyer(w, outs, t)
            && (Fee(t) > 0 ==> HasExact(w, outs, PLATFORM, Fee(t)))
            && (RoyaltyOf(t) > 0 ==> HasExact(w, outs, t.royaltyAddr, RoyaltyOf(t)))
            && (Proceeds(t, sellerAtoms) >= Net(t) ==> HasAtLeast(w, outs, t.sellerAddr, Net(t)))
  {
    Layout(w, t, sellerAtoms, funds);
    var outs := SettlementOutputs(w, t, sellerAtoms, funds).value;
    hide SettlementOutputs, Fee, RoyaltyOf, Proceeds, Change, TransferOutput, Net;
    assert outs[2] in outs;
    if Fee(t) > 0 { assert outs[3] in outs && outs[3].value == Fee(t); }
    if RoyaltyOf(t) > 0 {
      var at := if Fee(t) > 0 then 4 else 3;
      assert outs[at] in outs && outs[at].value == RoyaltyOf(t);
    }
  }

  /** An output meant for someone or something else pays the seller the net price: the carrier or the change of a seller
      who buys from itself, or the platform's fee to a platform that sells. */
  predicate PaidOtherwise(t: Terms, funds: seq<Funding>) {
    || (t.sellerAddr == t.buyerAddr && (Net(t) <= CARRIER_ATOMS || Net(t) <= Change(t, funds)))
    || (t.sellerAddr == PLATFORM && 0 < Fee(t) && Net(t) <= Fee(t))
  }

  /** A settlement that was built verifies clean exactly when the seller's own coin and net price fit the word together,
      or another of its outputs happens to pay the seller that much. */
  lemma BuiltVerifiesClean(w: World, t: Terms, seller: Funding, funds: seq<Funding>)
    requires w.PayScriptsCarryNoData() && AllPayable(w, t) && t.assetId < Pow256(32)
    requires BuildSettlement(w, t, seller, funds).Ok?
    ensures var bad := Mismatches(w, BuildSettlement(w, t, seller, funds).value.outputs, t);
            && (bad == [] <==> seller.1 + Net(t) <= U64_MAX || PaidOtherwise(t, funds))
            && (bad == [] || bad == [SellerProceeds])
  {
    hide *;
    BuildParts(w, t, seller, funds);
    var outs := SettlementOutputs(w, t, seller.1, funds).value;
    BuiltPayments(w, t, seller.1, funds);
    BuiltCarriesTransfer(w, t, seller.1, funds);
    ProceedsAreNet(t, seller.1);
    WrapFits(seller.1 + Net(t));
    CleanMeans(w, outs, t);
    OnlySellerMissing(w, outs, t);
    if seller.1 + Net(t) > U64_MAX { SellerPaidExactly(w, t, seller.1, funds); }
  }

  lemma OnlySellerMissing(w: World, outs: seq<TxOutput>, t: Terms)
    requires CarriesToBuyer(w, outs, t) && Extract(w.utf8Lossy, outs) == Some(Transferred(t))
    requires Fee(t) > 0 ==> HasExact(w, outs, PLATFORM, Fee(t))
    requires RoyaltyOf(t) > 0 ==> HasExact(w, outs, t.royaltyAddr, RoyaltyOf(t))
    ensures Mismatches(w, outs, t) == When(!HasAtLeast(w, outs, t.sellerAddr, Net(t)), SellerProceeds)
    ensures Mismatches(w, outs, t) == [] || Mismatches(w, outs, t) == [SellerProceeds]
  {
    hide CarriesToBuyer, HasExact, HasAtLeast, Extract, Fee, RoyaltyOf, Net;
  }

  /** When the proceeds have wrapped, only another output can pay the seller. */
  lemma SellerPaidExactly(w: World, t: Terms, sellerAtoms: u64, funds: seq<Funding>)
    requires AllPayable(w, t) && SettlementOutputs(w, t, sellerAtoms, funds).Ok?
    requires Proceeds(t, sellerAtoms) < Net(t)
    ensures HasAtLeast(w, SettlementOutputs(w, t, sellerAtoms, funds).value, t.sellerAddr, Net(t)) <==>
              PaidOtherwise(t, funds)
  {
    hide Fee, RoyaltyOf, Proceeds, Change, Net, SettlementOutputs, AllPayable, PaidOtherwise, HasAtLeast;
    if PaidOtherwise(t, funds) { OtherwisePays(w, t, sellerAtoms, funds); }
    if HasAtLeast(w, SettlementOutputs(w, t, sellerAtoms, funds).value, t.sellerAddr, Net(t)) {
      PaysOtherwise(w, t, sellerAtoms, funds);
    }
  }

  lemma OtherwisePays(w: World, t: Terms, sellerAtoms: u64, funds: seq<Funding>)
    requires AllPayable(w, t) && SettlementOutputs(w, t, sellerAtoms, funds).Ok?
    requires Proceeds(t, sellerAtoms) < Net(t) && PaidOtherwise(t, funds)
    ensures HasAtLeast(w, SettlementOutputs(w, t, sellerAtoms, funds).value, t.sellerAddr, Net(t))
  {
    Layout(w, t, sellerAtoms, funds);
    var outs := SettlementOutputs(w, t, sellerAtoms, funds).value;
    hide SettlementOutputs, Fee, RoyaltyOf, Proceeds, Change, TransferOutput, Net;
    if t.sellerAddr == PLATFORM && 0 < Fee(t) && Net(t) <= Fee(t) {
      assert outs[3] in outs;
    } else if Net(t) <= CARRIER_ATOMS {
      assert outs[0] in outs;
    } else {
      assert outs[|outs| - 1] in outs;
    }
  }

  lemma PaysOtherwise(w: World, t: Terms, sellerAtoms: u64, funds: seq<Funding>)
    requires AllPayable(w, t) && SettlementOutputs(w, t, sellerAtoms, funds).Ok?
    requires Proceeds(t, sellerAtoms) < Net(t)
    requires HasAtLeast(w, SettlementOutputs(w, t, sellerAtoms, funds).value, t.sellerAddr, Net(t))
    ensures PaidOtherwise(t, funds)
  {
    Layout(w, t, sellerAtoms, funds);
    var outs := SettlementOutputs(w, t, sellerAtoms, funds).value;
    assert RoyaltyOf(t) > 0 ==> t.sellerAddr != t.royaltyAddr;
    assert outs[1].value == 0;
    hide SettlementOutputs, Fee, RoyaltyOf, Proceeds, Change, TransferOutput, Net;
    var o :| o in outs && o.value >= Net(t) && Pays(w, o, t.sellerAddr);
    assert o == outs[0] || o == outs[1] || o == outs[2] || o in PayTo(w, Fee(t), PLATFORM)
           || o in PayTo(w, RoyaltyOf(t), t.royaltyAddr) || o in PayTo(w, Change(t, funds), t.buyerAddr);
  }

  /** A seller whose own coin fills the word is built a settlement that fails its own check. */
  lemma BuiltUnclean(w: World, t: Terms, seller: Funding, coin: Funding)
    requires w.PayScriptsCarryNoData() && t.assetId < Pow256(32)
    requires w.Payable(t.buyerAddr) && w.Payable(t.sellerAddr) && w.Payable(PLATFORM)
    requires t.price == 1_000 && t.royaltyBps == 0 && t.minerFee == 0 && seller.1 == U64_MAX && coin.1 == 10_000
    requires t.sellerAddr != t.buyerAddr && t.sellerAddr != PLATFORM
    ensures var built := BuildSettlement(w, t, seller, [coin]);
            built.Ok? && Mismatches(w, built.value.outputs, t) == [SellerProceeds]
  {
    hide Fee, RoyaltyOf, Net, Wrap, FundSum, PaidOtherwise, Pow256, BuildSettlement, Mismatches;
    SmallSale(t, seller.1, coin);
    Builds(w, t, seller, [coin]);
    BuiltVerifiesClean(w, t, seller, [coin]);
  }

  lemma SmallSale(t: Terms, sellerAtoms: u64, coin: Funding)
    requires t.price == 1_000 && t.royaltyBps == 0 && t.minerFee == 0 && sellerAtoms == U64_MAX && coin.1 == 10_000
    requires t.sellerAddr != t.buyerAddr && t.sellerAddr != PLATFORM
    ensures Wrap(Fee(t) + RoyaltyOf(t)) <= t.price && RoyaltyOf(t) == 0
    ensures Wrap(t.price + CARRIER_ATOMS + t.minerFee) <= Wrap(FundSum([coin]))
    ensures sellerAtoms + Net(t) > U64_MAX && !PaidOtherwise(t, [coin])
  {
    assert Fee(t) == 25;
    assert FundSum([coin]) == 10_000 by { assert FundSum([]) == 0 && [coin][..0] == []; }
    hide Fee, FundSum;
  }

  /** Past the two checks only an unusable address can fail a build. */
  lemma Builds(w: World, t: Terms, seller: Funding, funds: seq<Funding>)
    requires Wrap(Fee(t) + RoyaltyOf(t)) <= t.price
             && Wrap(t.price + CARRIER_ATOMS + t.minerFee) <= Wrap(FundSum(funds))
    requires w.p2pkh(t.buyerAddr).Some? && w.p2pkh(t.sellerAddr).Some?
    requires Fee(t) > 0 ==> w.p2pkh(PLATFORM).Some?
    requires RoyaltyOf(t) > 0 ==> w.p2pkh(t.royaltyAddr).Some?
    ensures BuildSettlement(w, t, seller, funds).Ok?
  {
    hide Fee, RoyaltyOf, Wrap, FundSum, Proceeds, Change, TransferOutput, Inputs;
  }

  lemma {:induction false} ExactConcat(a: seq<TxOutput>, b: seq<TxOutput>)
    ensures Supply.ExactOutputSum(a + b) == Supply.ExactOutputSum(a) + Supply.ExactOutputSum(b)
  {
    if b == [] {
      assert a + b == a;
    } else {
      ExactConcat(a, b[..|b| - 1]);
      assert (a + b)[..|a + b| - 1] == a + b[..|b| - 1];
    }
  }

  /** How often a sum has gone round the 64-bit word. */
  function Rounds(x: int): int { x / 0x1_0000_0000_0000_0000 }

  /** The two sums of the outputs' amounts that can: the seller's proceeds and the buyer's change. */
  function ProceedsRounds(t: Terms, sellerAtoms: u64): int { Rounds(sellerAtoms + t.price - Fee(t) - RoyaltyOf(t)) }

  function ChangeRounds(t: Terms, funds: seq<Funding>): int {
    Rounds(FundSum(funds) - t.price - CARRIER_ATOMS - t.minerFee)
  }

  /** What goes in and does not come out is the miner's fee, exactly when the two sums have gone round the word as often
      forwards as backwards; otherwise coin appears or disappears by whole words. */
  lemma BuiltConserves(w: World, t: Terms, seller: Funding, funds: seq<Funding>)
    requires BuildSettlement(w, t, seller, funds).Ok?
    ensures var paid := Supply.ExactOutputSum(BuildSettlement(w, t, seller, funds).value.outputs) + t.minerFee;
            var net := ProceedsRounds(t, seller.1) + ChangeRounds(t, funds);
            && FundSum([seller] + funds) == paid + net * 0x1_0000_0000_0000_0000
            && (FundSum([seller] + funds) == paid <==> net == 0)
    ensures SumsFit(t, seller.1, funds) ==> ProceedsRounds(t, seller.1) == ChangeRounds(t, funds) == 0
  {
    BuildParts(w, t, seller, funds);
    AmountsBalance(t, seller.1, funds);
    FittingSums(t, seller.1, funds);
    hide *;
    OutputsTotal(w, t, seller.1, funds);
    FundsSplit(seller, funds);
  }

  lemma WrapRounds(x: int)
    ensures Wrap(x) == x - Rounds(x) * 0x1_0000_0000_0000_0000
  {
  }

  /** The six amounts of the layout add up to what comes in, less the miner's fee, up to whole words. */
  lemma AmountsBalance(t: Terms, sellerAtoms: u64, funds: seq<Funding>)
    ensures var words := (ProceedsRounds(t, sellerAtoms) + ChangeRounds(t, funds)) * 0x1_0000_0000_0000_0000;
            sellerAtoms + FundSum(funds) == words
              + CARRIER_ATOMS + Proceeds(t, sellerAtoms) + Fee(t) + RoyaltyOf(t) + Change(t, funds) + t.minerFee
  {
    WrapRounds(sellerAtoms + t.price - Fee(t) - RoyaltyOf(t));
    WrapRounds(FundSum(funds) - t.price - CARRIER_ATOMS - t.minerFee);
    hide Fee, RoyaltyOf, Wrap, FundSum, Rounds;
  }

  /** No addition wraps while building. */
  predicate SumsFit(t: Terms, sellerAtoms: u64, funds: seq<Funding>) {
    && Fee(t) + RoyaltyOf(t) <= U64_MAX
    && t.price + CARRIER_ATOMS + t.minerFee <= U64_MAX
    && FundSum(funds) <= U64_MAX
    && sellerAtoms + Net(t) <= U64_MAX
  }

  lemma FittingSums(t: Terms, sellerAtoms: u64, funds: seq<Funding>)
    requires Wrap(Fee(t) + RoyaltyOf(t)) <= t.price
             && Wrap(t.price + CARRIER_ATOMS + t.minerFee) <= Wrap(FundSum(funds))
    ensures SumsFit(t, sellerAtoms, funds) ==> ProceedsRounds(t, sellerAtoms) == ChangeRounds(t, funds) == 0
  {
    WrapFits(Fee(t) + RoyaltyOf(t));
    WrapFits(t.price + CARRIER_ATOMS + t.minerFee);
    WrapFits(FundSum(funds));
    hide Fee, RoyaltyOf, Wrap, FundSum;
  }

  /** A price just below the word makes the buyer's need wrap to 10499 atoms: 20000 are enough to build, and what comes
      out exceeds what goes in by a whole word. */
  lemma BuiltFromNothing(w: World, t: Terms, seller: Funding, coin: Funding)
    requires w.p2pkh(t.buyerAddr).Some? && w.p2pkh(t.sellerAddr).Some? && w.p2pkh(PLATFORM).Some?
    requires t.price == U64_MAX - 500 && t.royaltyBps == 0 && t.minerFee == 10_000 && seller.1 == 1_000
    requires coin.1 == 20_000
    ensures var built := BuildSettlement(w, t, seller, [coin]);
            && built.Ok?
            && Supply.ExactOutputSum(built.value.outputs) + t.minerFee
            == FundSum([seller] + [coin]) + 0x1_0000_0000_0000_0000
  {
    assert 0 < Fee(t) < t.price - 1_000 && RoyaltyOf(t) == 0;
    assert FundSum([coin]) == 20_000 by { assert FundSum([]) == 0 && [coin][..0] == []; }
    assert ProceedsRounds(t, seller.1) == 0 && ChangeRounds(t, [coin]) == -1;
    hide Fee, RoyaltyOf, FundSum, Rounds, ProceedsRounds, ChangeRounds;
    assert SettlementOutputs(w, t, seller.1, [coin]).Ok?;
    BuiltConserves(w, t, seller, [coin]);
  }

  lemma OutputsTotal(w: World, t: Terms, sellerAtoms: u64, funds: seq<Funding>)
    requires SettlementOutputs(w, t, sellerAtoms, funds).Ok?
    ensures Supply.ExactOutputSum(SettlementOutputs(w, t, sellerAtoms, funds).value) ==
              CARRIER_ATOMS + Proceeds(t, sellerAtoms) + Fee(t) + RoyaltyOf(t) + Change(t, funds)
  {
    Layout(w, t, sellerAtoms, funds);
    var outs := SettlementOutputs(w, t, sellerAtoms, funds).value;
    var fee, royalty := PayTo(w, Fee(t), PLATFORM), PayTo(w, RoyaltyOf(t), t.royaltyAddr);
    var change := PayTo(w, Change(t, funds), t.buyerAddr);
    hide SettlementOutputs, Fee, RoyaltyOf, Proceeds, Change, AddressScript, OpReturnScript, Encode;
    var head := [outs[0], outs[1], outs[2]];
    assert outs == head + fee + royalty + change;
    ExactConcat(head, fee);
    ExactConcat(head + fee, royalty);
    ExactConcat(head + fee + royalty, change);
    ThreeOutputs(head);
    OneOutput(fee);
    OneOutput(royalty);
    OneOutput(change);
  }

  lemma OneOutput(outs: seq<TxOutput>)
    requires |outs| <= 1
    ensures Supply.ExactOutputSum(outs) == if outs == [] then 0 else outs[0].value
  {
  }

  lemma ThreeOutputs(outs: seq<TxOutput>)
    requires |outs| == 3
    ensures Supply.ExactOutputSum(outs) == outs[0].value + outs[1].value + outs[2].value
  {
    assert outs[..2][..1] == outs[..1];
    OneOutput(outs[..1]);
  }

  lemma {:induction false} FundsSplit(first: Funding, rest: seq<Funding>)
    ensures FundSum([first] + rest) == first.1 + FundSum(rest)
  {
    if rest == [] {
      assert [first] + rest == [first];
      assert FundSum([first]) == FundSum([]) + first.1;
    } else {
      FundsSplit(first, rest[..|rest| - 1]);
      assert ([first] + rest)[..|rest|] == [first] + rest[..|rest| - 1];
    }
  }

  // ---- What the indexer makes of it -----------------------------------------

  /** A clean settlement names the transfer, and its first output is the buyer's. */
  lemma CleanNamesBuyer(w: World, tx: Transaction, t: Terms)
    requires Mismatches(w, tx.outputs, t) == []
    ensures Extract(w.utf8Lossy, tx.outputs) == Some(Transferred(t))
            && ResolveDest(w, tx, Transferred(t)) == Some(t.buyerAddr)
  {
    CleanMeans(w, tx.outputs, t);
    hide Mismatches, Extract;
  }

  /** Indexed where its first input resolves to the owning seller, a clean settlement moves exactly the amount from the
      seller to the buyer, and nothing else. */
  lemma SettlementMovesFungible(w: World, ix: Index, tx: Transaction, t: Terms, height: nat)
    requires LedgerInv(ix.ledger) && Mismatches(w, tx.outputs, t) == []
    requires ResolveSource(ix.outpoints, tx) == Some(t.sellerAddr) && t.sellerAddr != t.buyerAddr
    requires t.assetId in ix.ledger.assets && ix.ledger.assets[t.assetId].kind.Fungible?
    requires 0 < t.amount <= Balance(ix.ledger, t.sellerAddr, t.assetId)
    ensures var l, l' := ix.ledger, IndexTx(w, ix, tx, height).ledger;
            && l'.assets == l.assets && l'.owners == l.owners
            && forall a, id {:trigger Balance(l', a, id)} :: Balance(l', a, id) ==
                 if id != t.assetId then Balance(l, a, id)
                 else if a == t.sellerAddr then Balance(l, a, id) - t.amount
                 else if a == t.buyerAddr then Balance(l, a, id) + t.amount
                 else Balance(l, a, id)
  {
    CleanNamesBuyer(w, tx, t);
    hide Mismatches, Extract, LedgerInv, RecordOutputs, ResolveDest, ResolveSource;
  }

  lemma SettlementMovesNft(w: World, ix: Index, tx: Transaction, t: Terms, height: nat)
    requires LedgerInv(ix.ledger) && Mismatches(w, tx.outputs, t) == []
    requires ResolveSource(ix.outpoints, tx) == Some(t.sellerAddr) && t.amount == 1
    requires t.assetId in ix.ledger.owners && ix.ledger.owners[t.assetId] == t.sellerAddr
    ensures IndexTx(w, ix, tx, height).ledger == ix.ledger.(owners := ix.ledger.owners[t.assetId := t.buyerAddr])
  {
    CleanNamesBuyer(w, tx, t);
    hide Mismatches, Extract, RecordOutputs, ResolveDest, ResolveSource;
  }

  // ---- The loops ------------------------------------------------------------

  lemma WrapsOnce(x: int, y: int)
    ensures Wrap(Wrap(x) + y) == Wrap(x + y)
  {
    var m := U64_MAX + 1;
    assert x == m * (x / m) + Wrap(x);
    assert Wrap(x) + y == m * ((Wrap(x) + y) / m) + Wrap(Wrap(x) + y);
    var q := x / m + (Wrap(x) + y) / m;
    assert x + y == m * q + Wrap(Wrap(x) + y);
  }

  method GatherInputs(seller: Funding, buyers: seq<Funding>) returns (inputs: seq<TxInput>, available: u64)
    ensures inputs == Inputs([seller] + buyers) && available == Wrap(FundSum(buyers))
  {
    hide Wrap;
    available := 0;
    WrapFits(0);
    inputs := [TxInput(seller.0, [])];
    var i := 0;
    while i < |buyers|
      invariant 0 <= i <= |buyers|
      invariant available == Wrap(FundSum(buyers[..i]))
      invariant inputs == Inputs([seller] + buyers[..i])
    {
      assert buyers[..i + 1][..i] == buyers[..i];
      assert [seller] + buyers[..i + 1] == ([seller] + buyers[..i]) + [buyers[i]];
      WrapsOnce(FundSum(buyers[..i]), buyers[i].1);
      var sum: int := available + buyers[i].1;
      available := Wrap(sum);
      inputs := inputs + [TxInput(buyers[i].0, [])];
      i := i + 1;
    }
    assert buyers[..i] == buyers;
  }

  method BuildSettlementTx(w: World, t: Terms, seller: Funding, buyers: seq<Funding>)
    returns (r: Result<Transaction, SettlementError>)
    ensures r == BuildSettlement(w, t, seller, buyers)
  {
    hide Fee, RoyaltyOf, Encode, OpReturnScript, Wrap, FundSum, Inputs;
    var fee: int, royalty: int := Fee(t), RoyaltyOf(t);
    if Wrap(fee + royalty) > t.price { return Err(FeesExceedPrice); }
    var inputs, available := GatherInputs(seller, buyers);
    if available < Wrap(t.price + CARRIER_ATOMS + t.minerFee) { return Err(InsufficientBuyerFunds); }
    var spent: int := t.price + CARRIER_ATOMS + t.minerFee;
    var change := Wrap(available - spent);
    WrapsOnce(FundSum(buyers), -spent);
    var outputs := BuildPayouts(w, t, Wrap(seller.1 + t.price - fee - royalty), change);
    if outputs.Err? { return Err(outputs.error); }
    return Ok(NewTransaction(w, inputs, outputs.value, PAYMENT_TAG));
  }

  /** The outputs, one by one. */
  method BuildPayouts(w: World, t: Terms, proceeds: u64, change: u64)
    returns (r: Result<seq<TxOutput>, SettlementError>)
    ensures r == Payouts(w, t, proceeds, change)
  {
    hide Fee, RoyaltyOf, Encode, OpReturnScript, Wrap, FundSum;
    var fee, royalty := Fee(t), RoyaltyOf(t);
    if w.p2pkh(t.buyerAddr).None? { return Err(InvalidAddress(t.buyerAddr)); }
    var outputs := [TxOutput(CARRIER_ATOMS, w.p2pkh(t.buyerAddr).value)];
    assert [] + outputs == outputs;
    outputs := outputs + [TxOutput(0, OpReturnScript(Encode(Transfer(t.assetId, t.amount, 0))))];
    if w.p2pkh(t.sellerAddr).None? { return Err(InvalidAddress(t.sellerAddr)); }
    outputs := outputs + [TxOutput(proceeds, w.p2pkh(t.sellerAddr).value)];
    if fee > 0 {
      if w.p2pkh(PLATFORM).None? { return Err(InvalidAddress(PLATFORM)); }
      outputs := outputs + [TxOutput(fee, w.p2pkh(PLATFORM).value)];
    }
    if royalty > 0 {
      if w.p2pkh(t.royaltyAddr).None? { return Err(InvalidAddress(t.royaltyAddr)); }
      outputs := outputs + [TxOutput(royalty, w.p2pkh(t.royaltyAddr).value)];
    }
    if change > 0 {
      outputs := outputs + [TxOutput(change, w.p2pkh(t.buyerAddr).value)];
    }
    return Ok(outputs);
  }

  method VerifySettlement(w: World, tx: Transaction, t: Terms) returns (bad: seq<Mismatch>)
    ensures bad == Mismatches(w, tx.outputs, t)
  {
    hide Extract, HasExact, HasAtLeast, CarriesToBuyer, Fee, RoyaltyOf, Wrap, Net;
    assert Net(t) == SatSub(t.price, Wrap(Fee(t) + RoyaltyOf(t))) by { NetIs(t); }
    var outs := tx.outputs;
    ghost var m1 := When(!CarriesToBuyer(w, outs, t), CarrierOutput);
    bad := [];
    if !CarriesToBuyer(w, outs, t) { bad := bad + [CarrierOutput]; }
    assert bad == m1;
    ghost var m2 := m1 + When(Extract(w.utf8Lossy, outs) != Some(Transferred(t)), TransferOp);
    var op := ExtractAssetOp(w.utf8Lossy, outs);
    if op != Some(Transfer(t.assetId, t.amount, 0)) { bad := bad + [TransferOp]; }
    assert bad == m2;
    ghost var m3 := m2 + When(Fee(t) > 0 && !HasExact(w, outs, PLATFORM, Fee(t)), PlatformFee);
    if Fee(t) > 0 {
      var paid := HasOutputExact(w, tx, PLATFORM, Fee(t));
      if !paid { bad := bad + [PlatformFee]; }
    }
    assert bad == m3;
    ghost var m4 := m3 + When(RoyaltyOf(t) > 0 && !HasExact(w, outs, t.royaltyAddr, RoyaltyOf(t)), Royalty);
    if RoyaltyOf(t) > 0 {
      var paid := HasOutputExact(w, tx, t.royaltyAddr, RoyaltyOf(t));
      if !paid { bad := bad + [Royalty]; }
    }
    assert bad == m4;
    var paid := HasOutputAtLeast(w, tx, t.sellerAddr, SatSub(t.price, Wrap(Fee(t) + RoyaltyOf(t))));
    if !paid { bad := bad + [SellerProceeds]; }
  }

  lemma NetIs(t: Terms)
    ensures Net(t) == SatSub(t.price, Wrap(Fee(t) + RoyaltyOf(t)))
  {
    hide Fee, RoyaltyOf, Wrap;
  }

  method HasOutputExact(w: World, tx: Transaction, addr: string, atoms: nat) returns (found: bool)
    ensures found <==> HasExact(w, tx.outputs, addr, atoms)
  {
    for i := 0 to |tx.outputs|
      invariant forall k :: 0 <= k < i ==> !(tx.outputs[k].value == atoms && Pays(w, tx.outputs[k], addr))
    {
      if tx.outputs[i].value == atoms && Pays(w, tx.outputs[i], addr) { return true; }
    }
    return false;
  }

  method HasOutputAtLeast(w: World, tx: Transaction, addr: string, least: nat) returns (found: bool)
    ensures found <==> HasAtLeast(w, tx.outputs, addr, least)
  {
    for i := 0 to |tx.outputs|
      invariant forall k :: 0 <= k < i ==> !(tx.outputs[k].value >= least && Pays(w, tx.outputs[k], addr))
    {
      if tx.outputs[i].value >= least && Pays(w, tx.outputs[i], addr) { return true; }
    }
    return false;
  }
}
