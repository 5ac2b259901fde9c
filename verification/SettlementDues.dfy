/** What a settlement that verifies clean pays to whom, and the terms on which one output answers for two payments. */
module SettlementDues {
  import opened Prelude
  import opened Types
  import opened Codec
  import opened Carrier
  import opened Assets
  import opened Validation
  import opened Settlements
  import Supply

  // ---- What a clean check guarantees ----------------------------------------

  /** Everything paid to one address. */
  function PaidTo(w: World, outs: seq<TxOutput>, addr: string): nat {
    if outs == [] then 0
    else PaidTo(w, outs[..|outs| - 1], addr) + if Pays(w, outs[|outs| - 1], addr) then outs[|outs| - 1].value else 0
  }

  function DueIf(b: bool, atoms: nat): nat { if b then atoms else 0 }

  /** What the terms owe an address in all its roles: buyer, platform, creator and seller. */
  function Due(t: Terms, addr: string): nat {
    DueIf(addr == t.buyerAddr, CARRIER_ATOMS) + DueIf(addr == PLATFORM, Fee(t))
    + DueIf(addr == t.royaltyAddr, RoyaltyOf(t)) + DueIf(addr == t.sellerAddr, Net(t))
  }

  /** One output can answer for two amounts owed: they go to one address, and are equal or the check accepts more. */
  predicate Shareable(t: Terms) {
    || (t.royaltyAddr == PLATFORM && RoyaltyOf(t) == Fee(t) > 0)
    || (t.sellerAddr == PLATFORM && Fee(t) >= Net(t) > 0)
    || (t.buyerAddr == PLATFORM && Fee(t) == CARRIER_ATOMS)
    || (t.buyerAddr == t.royaltyAddr && RoyaltyOf(t) == CARRIER_ATOMS)
    || (t.buyerAddr == t.sellerAddr && CARRIER_ATOMS >= Net(t) > 0)
  }

  /** The value of the outputs at the given places. */
  function ValueAt(outs: seq<TxOutput>, places: set<nat>): nat {
    if outs == [] then 0
    else ValueAt(outs[..|outs| - 1], places) + if |outs| - 1 in places then outs[|outs| - 1].value else 0
  }

  lemma {:induction false} ValueAtMore(outs: seq<TxOutput>, places: set<nat>, i: nat)
    requires i < |outs| && i !in places
    ensures ValueAt(outs, places + {i}) == ValueAt(outs, places) + outs[i].value
  {
    var n := |outs| - 1;
    if i < n { ValueAtMore(outs[..n], places, i); } else { ValueAtElsewhere(outs[..n], places, i); }
  }

  lemma {:induction false} ValueAtElsewhere(outs: seq<TxOutput>, places: set<nat>, i: nat)
    requires i >= |outs|
    ensures ValueAt(outs, places + {i}) == ValueAt(outs, places)
  {
    if outs != [] { ValueAtElsewhere(outs[..|outs| - 1], places, i); }
  }

  lemma {:induction false} NowhereIsNothing(outs: seq<TxOutput>)
    ensures ValueAt(outs, {}) == 0
  {
    if outs != [] { NowhereIsNothing(outs[..|outs| - 1]); }
  }

  lemma {:induction false} ValueAtPaid(w: World, outs: seq<TxOutput>, places: set<nat>, addr: string)
    requires forall i :: i in places && i < |outs| ==> Pays(w, outs[i], addr)
    ensures ValueAt(outs, places) <= PaidTo(w, outs, addr)
  {
    if outs != [] { ValueAtPaid(w, outs[..|outs| - 1], places, addr); }
  }

  lemma {:induction false} ValueAtTotal(outs: seq<TxOutput>, places: set<nat>)
    ensures ValueAt(outs, places) <= Supply.ExactOutputSum(outs)
  {
    if outs != [] { ValueAtTotal(outs[..|outs| - 1], places); }
  }

  /** Where a clean settlement pays the fee, the royalty and the proceeds. */
  datatype Places = Places(fee: nat, royalty: nat, net: nat)

  predicate PaidAt(w: World, outs: seq<TxOutput>, i: nat, addr: string, least: nat, exact: bool) {
    i < |outs| && Pays(w, outs[i], addr) && outs[i].value >= least && (exact ==> outs[i].value == least)
  }

  predicate PaysThere(w: World, outs: seq<TxOutput>, t: Terms, at: Places) {
    && PaidAt(w, outs, 0, t.buyerAddr, CARRIER_ATOMS, true)
    && (Fee(t) > 0 ==> PaidAt(w, outs, at.fee, PLATFORM, Fee(t), true))
    && (RoyaltyOf(t) > 0 ==> PaidAt(w, outs, at.royalty, t.royaltyAddr, RoyaltyOf(t), true))
    && PaidAt(w, outs, at.net, t.sellerAddr, Net(t), false)
  }

  lemma CleanPlaces(w: World, outs: seq<TxOutput>, t: Terms) returns (at: Places)
    requires Mismatches(w, outs, t) == []
    ensures PaysThere(w, outs, t, at)
  {
    CleanMeans(w, outs, t);
    hide Mismatches, Fee, RoyaltyOf, Net, Extract, Pays;
    var f, r := 0, 0;
    if Fee(t) > 0 {
      var o :| o in outs && o.value == Fee(t) && Pays(w, o, PLATFORM);
      f :| 0 <= f < |outs| && outs[f] == o;
    }
    if RoyaltyOf(t) > 0 {
      var o :| o in outs && o.value == RoyaltyOf(t) && Pays(w, o, t.royaltyAddr);
      r :| 0 <= r < |outs| && outs[r] == o;
    }
    var o :| o in outs && o.value >= Net(t) && Pays(w, o, t.sellerAddr);
    var n :| 0 <= n < |outs| && outs[n] == o;
    at := Places(f, r, n);
  }

  /** The four places differ, where something is owed at all. */
  predicate Apart(t: Terms, at: Places) {
    && (Fee(t) > 0 ==> at.fee != 0) && (RoyaltyOf(t) > 0 ==> at.royalty != 0) && (Net(t) > 0 ==> at.net != 0)
    && (Fee(t) > 0 && RoyaltyOf(t) > 0 ==> at.fee != at.royalty)
    && (Fee(t) > 0 && Net(t) > 0 ==> at.fee != at.net)
    && (RoyaltyOf(t) > 0 && Net(t) > 0 ==> at.royalty != at.net)
  }

  lemma NotSharedIsApart(w: World, outs: seq<TxOutput>, t: Terms, at: Places)
    requires PaysThere(w, outs, t, at) && !Shareable(t)
    ensures Apart(t, at)
  {
    assert RoyaltyOf(t) > 0 ==> t.sellerAddr != t.royaltyAddr;
    hide Fee, RoyaltyOf, Net;
  }

  /** Adds one amount owed to what is counted so far. */
  lemma CountDue(outs: seq<TxOutput>, places: set<nat>, i: nat, counts: bool, least: nat) returns (more: set<nat>)
    requires counts && least > 0 ==> i < |outs| && i !in places && outs[i].value >= least
    ensures more == if counts && least > 0 then places + {i} else places
    ensures ValueAt(outs, more) >= ValueAt(outs, places) + DueIf(counts, least)
  {
    more := places;
    if counts && least > 0 {
      ValueAtMore(outs, places, i);
      more := places + {i};
    }
  }

  /** The outputs at those places that an address is owed add up to what it is owed. */
  lemma DuesAdd(w: World, outs: seq<TxOutput>, t: Terms, at: Places, addr: string)
    requires PaysThere(w, outs, t, at) && Apart(t, at)
    ensures PaidTo(w, outs, addr) >= Due(t, addr)
  {
    hide Fee, RoyaltyOf, Net, Pays, PaidTo, ValueAt;
    NowhereIsNothing(outs);
    var a := CountDue(outs, {}, 0, addr == t.buyerAddr, CARRIER_ATOMS);
    var b := CountDue(outs, a, at.fee, addr == PLATFORM, Fee(t));
    var c := CountDue(outs, b, at.royalty, addr == t.royaltyAddr, RoyaltyOf(t));
    var d := CountDue(outs, c, at.net, addr == t.sellerAddr, Net(t));
    ValueAtPaid(w, outs, d, addr);
  }

  lemma AllDuesAdd(w: World, outs: seq<TxOutput>, t: Terms, at: Places)
    requires PaysThere(w, outs, t, at) && Apart(t, at)
    ensures Supply.ExactOutputSum(outs) >= CARRIER_ATOMS + Fee(t) + RoyaltyOf(t) + Net(t)
  {
    hide Fee, RoyaltyOf, Net, Pays, PaidTo, ValueAt;
    NowhereIsNothing(outs);
    var a := CountDue(outs, {}, 0, true, CARRIER_ATOMS);
    var b := CountDue(outs, a, at.fee, true, Fee(t));
    var c := CountDue(outs, b, at.royalty, true, RoyaltyOf(t));
    var d := CountDue(outs, c, at.net, true, Net(t));
    ValueAtTotal(outs, d);
  }

  /** Where no output can answer for two amounts owed, a clean settlement pays every address the sum of its dues, and
      pays out the carrier, both cuts and the net price in all. */
  lemma CleanPaysAll(w: World, outs: seq<TxOutput>, t: Terms)
    requires Mismatches(w, outs, t) == [] && !Shareable(t)
    ensures forall addr :: PaidTo(w, outs, addr) >= Due(t, addr)
    ensures Supply.ExactOutputSum(outs) >= CARRIER_ATOMS + Fee(t) + RoyaltyOf(t) + Net(t)
  {
    var at := CleanPlaces(w, outs, t);
    NotSharedIsApart(w, outs, t, at);
    hide PaysThere, Apart, PaidTo, Due, Fee, RoyaltyOf, Net;
    AllDuesAdd(w, outs, t, at);
    forall addr ensures PaidTo(w, outs, addr) >= Due(t, addr) { DuesAdd(w, outs, t, at, addr); }
  }

  // ---- Where one output answers for two --------------------------------------

  datatype Role = Platform | Creator | Seller

  function Owed(t: Terms, role: Role): nat {
    match role case Platform => Fee(t) case Creator => RoyaltyOf(t) case Seller => Net(t)
  }

  function Payee(t: Terms, role: Role): string {
    match role case Platform => PLATFORM case Creator => t.royaltyAddr case Seller => t.sellerAddr
  }

  /** The payment for a role, left out for the role that is dropped. */
  function PayRole(w: World, t: Terms, role: Role, drop: Role): seq<TxOutput>
    requires Owed(t, role) <= U64_MAX
  {
    if role == drop then [] else [TxOutput(Owed(t, role), AddressScript(w, Payee(t, role)))]
  }

  lemma OwedFits(t: Terms, role: Role)
    ensures Owed(t, role) <= U64_MAX
  {
    hide Fee, RoyaltyOf, Wrap;
  }

  /** A settlement that leaves one payment out. */
  function Lean(w: World, t: Terms, drop: Role): seq<TxOutput>
  {
    OwedFits(t, Seller); OwedFits(t, Platform); OwedFits(t, Creator);
    [TxOutput(CARRIER_ATOMS, AddressScript(w, t.buyerAddr))] + [TransferOutput(t)]
    + (PayRole(w, t, Seller, drop) + PayRole(w, t, Platform, drop) + PayRole(w, t, Creator, drop))
  }

  lemma {:induction false} PaidConcat(w: World, a: seq<TxOutput>, b: seq<TxOutput>, addr: string)
    ensures PaidTo(w, a + b, addr) == PaidTo(w, a, addr) + PaidTo(w, b, addr)
  {
    if b == [] {
      assert a + b == a;
    } else {
      PaidConcat(w, a, b[..|b| - 1], addr);
      assert (a + b)[..|a + b| - 1] == a + b[..|b| - 1];
    }
  }

  lemma PaidOne(w: World, o: TxOutput, addr: string)
    ensures PaidTo(w, [o], addr) == if Pays(w, o, addr) then o.value else 0
  {
    assert [o][..0] == [];
  }

  lemma PaidRole(w: World, t: Terms, role: Role, drop: Role, addr: string)
    requires AllPayable(w, t)
    ensures Owed(t, role) <= U64_MAX
    ensures PaidTo(w, PayRole(w, t, role, drop), addr) == DueIf(addr == Payee(t, role) && role != drop, Owed(t, role))
  {
    OwedFits(t, role);
    hide Fee, RoyaltyOf, Net, PaidTo;
    if role != drop { PaidOne(w, PayRole(w, t, role, drop)[0], addr); } else { PaidNothing(w, addr); }
  }

  lemma PaidNothing(w: World, addr: string)
    ensures PaidTo(w, [], addr) == 0
  {
  }

  lemma LeanSum(w: World, t: Terms, drop: Role, addr: string)
    ensures Owed(t, Seller) <= U64_MAX && Owed(t, Platform) <= U64_MAX && Owed(t, Creator) <= U64_MAX
    ensures PaidTo(w, Lean(w, t, drop), addr) ==
              PaidTo(w, [TxOutput(CARRIER_ATOMS, AddressScript(w, t.buyerAddr))], addr)
              + PaidTo(w, [TransferOutput(t)], addr) + PaidTo(w, PayRole(w, t, Seller, drop), addr)
              + PaidTo(w, PayRole(w, t, Platform, drop), addr) + PaidTo(w, PayRole(w, t, Creator, drop), addr)
  {
    OwedFits(t, Seller); OwedFits(t, Platform); OwedFits(t, Creator);
    hide Owed, PaidTo, PayRole, TransferOutput;
    var carrier, op := TxOutput(CARRIER_ATOMS, AddressScript(w, t.buyerAddr)), TransferOutput(t);
    var s, f, r := PayRole(w, t, Seller, drop), PayRole(w, t, Platform, drop), PayRole(w, t, Creator, drop);
    PaidConcat(w, [carrier] + [op], s + f + r, addr);
    PaidConcat(w, [carrier], [op], addr);
    PaidConcat(w, s + f, r, addr);
    PaidConcat(w, s, f, addr);
  }

  lemma CarrierValue(w: World, t: Terms, addr: string)
    requires AllPayable(w, t)
    ensures PaidTo(w, [TxOutput(CARRIER_ATOMS, AddressScript(w, t.buyerAddr))], addr)
              == DueIf(addr == t.buyerAddr, CARRIER_ATOMS)
    ensures PaidTo(w, [TransferOutput(t)], addr) == 0
  {
    hide PaidTo, Fee, RoyaltyOf, Encode, OpReturnScript;
    PaidOne(w, TxOutput(CARRIER_ATOMS, AddressScript(w, t.buyerAddr)), addr);
    PaidOne(w, TransferOutput(t), addr);
  }

  lemma DueIs(t: Terms, drop: Role, addr: string)
    ensures Due(t, addr) ==
              DueIf(addr == t.buyerAddr, CARRIER_ATOMS) + DueIf(addr == Payee(t, Platform), Owed(t, Platform))
              + DueIf(addr == Payee(t, Creator), Owed(t, Creator)) + DueIf(addr == Payee(t, Seller), Owed(t, Seller))
    ensures forall role :: DueIf(addr == Payee(t, role), Owed(t, role)) ==
              DueIf(addr == Payee(t, role) && role != drop, Owed(t, role))
              + if role == drop then DueIf(addr == Payee(t, drop), Owed(t, drop)) else 0
  {
    hide Fee, RoyaltyOf, Net;
  }

  /** It pays every address what it is owed, less what is left out. */
  lemma LeanPays(w: World, t: Terms, drop: Role, addr: string)
    requires AllPayable(w, t)
    ensures PaidTo(w, Lean(w, t, drop), addr) + DueIf(addr == Payee(t, drop), Owed(t, drop)) == Due(t, addr)
  {
    hide *;
    PaidRole(w, t, Seller, drop, addr);
    PaidRole(w, t, Platform, drop, addr);
    PaidRole(w, t, Creator, drop, addr);
    CarrierValue(w, t, addr);
    LeanSum(w, t, drop, addr);
    DueIs(t, drop, addr);
  }

  /** The payment left out is answered for by another. */
  predicate Covered(t: Terms, drop: Role) {
    Owed(t, drop) > 0 &&
    match drop
    case Creator => || (t.royaltyAddr == PLATFORM && RoyaltyOf(t) == Fee(t))
                    || (t.buyerAddr == t.royaltyAddr && RoyaltyOf(t) == CARRIER_ATOMS)
    case Platform => t.buyerAddr == PLATFORM && Fee(t) == CARRIER_ATOMS
    case Seller => || (t.sellerAddr == PLATFORM && Fee(t) >= Net(t))
                   || (t.buyerAddr == t.sellerAddr && CARRIER_ATOMS >= Net(t))
  }

  lemma RolePaid(w: World, t: Terms, role: Role, drop: Role)
    requires AllPayable(w, t) && role != drop
    requires role != Seller ==> Owed(t, role) > 0
    ensures var outs := Lean(w, t, drop);
            HasExact(w, outs, Payee(t, role), Owed(t, role)) && HasAtLeast(w, outs, Payee(t, role), Owed(t, role))
  {
    OwedFits(t, role);
    var o := TxOutput(Owed(t, role), AddressScript(w, Payee(t, role)));
    hide Fee, RoyaltyOf, Net, TransferOutput;
    assert o in PayRole(w, t, role, drop);
    assert o in Lean(w, t, drop);
  }

  lemma CarrierPaid(w: World, t: Terms, drop: Role)
    requires AllPayable(w, t)
    ensures var outs := Lean(w, t, drop);
            && CarriesToBuyer(w, outs, t) && HasExact(w, outs, t.buyerAddr, CARRIER_ATOMS)
            && forall least: nat :: least <= CARRIER_ATOMS ==> HasAtLeast(w, outs, t.buyerAddr, least)
  {
    hide Fee, RoyaltyOf, Net, TransferOutput, PayRole;
    assert Lean(w, t, drop)[0] in Lean(w, t, drop);
  }

  lemma LeanVerifiesClean(w: World, t: Terms, drop: Role)
    requires w.PayScriptsCarryNoData() && AllPayable(w, t) && t.assetId < Pow256(32) && Covered(t, drop)
    ensures Mismatches(w, Lean(w, t, drop), t) == []
  {
    hide *;
    CleanMeans(w, Lean(w, t, drop), t);
    CarrierPaid(w, t, drop);
    LeanCarries(w, t, drop);
    CutsPaid(w, t, drop);
  }

  lemma LeanCarries(w: World, t: Terms, drop: Role)
    requires w.PayScriptsCarryNoData() && AllPayable(w, t) && t.assetId < Pow256(32)
    ensures Extract(w.utf8Lossy, Lean(w, t, drop)) == Some(Transferred(t))
  {
    OwedFits(t, Seller); OwedFits(t, Platform); OwedFits(t, Creator);
    hide Extract, Fee, RoyaltyOf, Net, TransferOutput, Pow256, PayRole;
    CarriesBehindBuyer(w, t, TxOutput(CARRIER_ATOMS, AddressScript(w, t.buyerAddr)),
                       PayRole(w, t, Seller, drop) + PayRole(w, t, Platform, drop) + PayRole(w, t, Creator, drop));
  }

  lemma CutsPaid(w: World, t: Terms, drop: Role)
    requires AllPayable(w, t) && Covered(t, drop)
    ensures var outs := Lean(w, t, drop);
            && (Fee(t) > 0 ==> HasExact(w, outs, PLATFORM, Fee(t)))
            && (RoyaltyOf(t) > 0 ==> HasExact(w, outs, t.royaltyAddr, RoyaltyOf(t)))
            && HasAtLeast(w, outs, t.sellerAddr, Net(t))
  {
    hide Fee, RoyaltyOf, Net, Lean, AllPayable, Pays;
    CarrierPaid(w, t, drop);
    if Fee(t) > 0 && drop != Platform { RolePaid(w, t, Platform, drop); }
    if RoyaltyOf(t) > 0 && drop != Creator { RolePaid(w, t, Creator, drop); }
    if drop != Seller { RolePaid(w, t, Seller, drop); }
  }

  /** The parties' amounts are covered by separate outputs exactly when no two of them can share one: otherwise a clean
      settlement exists that pays some address less than it is owed. */
  lemma CleanPaysAllExactly(w: World, t: Terms)
    requires w.PayScriptsCarryNoData() && AllPayable(w, t) && t.assetId < Pow256(32)
    ensures (forall outs, addr :: Mismatches(w, outs, t) == [] ==> PaidTo(w, outs, addr) >= Due(t, addr))
       <==> !Shareable(t)
  {
    if Shareable(t) {
      var drop := Droppable(t);
      hide *;
      LeanVerifiesClean(w, t, drop);
      LeanPays(w, t, drop, Payee(t, drop));
      CoveredIsOwed(t, drop);
      assert PaidTo(w, Lean(w, t, drop), Payee(t, drop)) < Due(t, Payee(t, drop));
    } else {
      hide *;
      forall outs, addr | Mismatches(w, outs, t) == [] ensures PaidTo(w, outs, addr) >= Due(t, addr) {
        CleanPaysAll(w, outs, t);
      }
    }
  }

  lemma CoveredIsOwed(t: Terms, drop: Role)
    requires Covered(t, drop)
    ensures DueIf(true, Owed(t, drop)) > 0
  {
    hide Owed;
  }

  /** A payment that can be left out. */
  lemma Droppable(t: Terms) returns (drop: Role)
    requires Shareable(t)
    ensures Covered(t, drop)
  {
    hide Fee, RoyaltyOf, Net;
    drop := if Covered(t, Creator) then Creator else if Covered(t, Platform) then Platform else Seller;
  }
}
