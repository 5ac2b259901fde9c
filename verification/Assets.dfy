/** The asset ledger: fungible balances and NFT owners as a deterministic fold over operations. */
module Assets {
  import opened Prelude
  import opened Types
  import opened Codec

  datatype AssetKind = Fungible | NonFungible

  datatype AssetInfo = AssetInfo(kind: AssetKind, ticker: Bytes, name: Bytes, decimals: u8, supply: u64, issuer: string,
                                 royaltyBps: nat, royaltyAddr: Bytes, uri: Bytes, content: Hash256, mintHeight: nat)

  datatype ApplyResult = Applied | Ignored(why: Reason)

  datatype Reason = AssetExists | DecimalsTooHigh | RoyaltyTooHigh | UnknownAsset | BadDest
                  | ZeroAmount | InsufficientBalance | NftAmount | NotOwner

  type Balances = map<(string, Hash256), u64>

  datatype Ledger = Ledger(assets: map<Hash256, AssetInfo>, balances: Balances, owners: map<Hash256, string>)

  const EMPTY_LEDGER: Ledger := Ledger(map[], map[], map[])

  function Balance(l: Ledger, addr: string, id: Hash256): u64 {
    if (addr, id) in l.balances then l.balances[(addr, id)] else 0
  }

  // ---- Conservation ---------------------------------------------------------

  /** All balances of one asset together. */
  ghost function Circulating(b: Balances, id: Hash256): nat
  {
    if b == map[] then 0
    else var k :| k in b; (if k.1 == id then b[k] else 0) + Circulating(b - {k}, id)
  }

  lemma {:induction false} CirculatingPick(b: Balances, id: Hash256, k: (string, Hash256))
    requires k in b
    ensures Circulating(b, id) == (if k.1 == id then b[k] else 0) + Circulating(b - {k}, id)
    decreases |b|
  {
    var j :| j in b && Circulating(b, id) == (if j.1 == id then b[j] else 0) + Circulating(b - {j}, id);
    if j != k {
      assert b == (b - {j})[j := b[j]] && b == (b - {k})[k := b[k]];
      CirculatingPick(b - {j}, id, k);
      CirculatingPick(b - {k}, id, j);
      assert b - {j} - {k} == b - {k} - {j};
    }
  }

  /** Setting one balance moves its asset's total by the difference, and no other asset's. */
  lemma CirculatingPut(b: Balances, id: Hash256, k: (string, Hash256), v: u64)
    ensures Circulating(b[k := v], id) + (if k in b && k.1 == id then b[k] else 0)
         == Circulating(b, id) + (if k.1 == id then v else 0)
  {
    CirculatingPick(b[k := v], id, k);
    assert b[k := v] - {k} == b - {k};
    if k in b { CirculatingPick(b, id, k); } else { assert b - {k} == b; }
  }

  lemma {:induction false} BalanceWithinCirculating(b: Balances, k: (string, Hash256))
    requires k in b
    ensures b[k] <= Circulating(b, k.1)
  {
    CirculatingPick(b, k.1, k);
  }

  /** Balances and owners exist for known assets of their kind only; an asset's balances sum to its supply, and
      every NFT has an owner. */
  ghost predicate LedgerInv(l: Ledger) {
    && (forall k :: k in l.balances ==> k.1 in l.assets && l.assets[k.1].kind.Fungible?)
    && (forall id :: id in l.owners <==> id in l.assets && l.assets[id].kind.NonFungible?)
    && (forall id {:trigger Circulating(l.balances, id)} :: id in l.assets && l.assets[id].kind.Fungible? ==>
          Circulating(l.balances, id) == l.assets[id].supply)
    && (forall id {:trigger Circulating(l.balances, id)} :: id !in l.assets || l.assets[id].kind.NonFungible? ==>
          Circulating(l.balances, id) == 0)
  }

  // ---- One operation --------------------------------------------------------

  /** Taking from one balance and giving to another of the same asset. */
  function Moved(b: Balances, from: string, to: string, id: Hash256, amount: u64): Balances
    requires (from, id) in b && amount <= b[(from, id)]
    requires from != to && (to, id) in b ==> b[(to, id)] + amount <= U64_MAX
  {
    var taken := b[(from, id) := b[(from, id)] - amount];
    taken[(to, id) := (if (to, id) in taken then taken[(to, id)] else 0) + amount]
  }

  /** A conserving ledger never overflows a balance: both sides of a move fit one supply. */
  lemma MoveFits(l: Ledger, from: string, to: string, id: Hash256, amount: u64)
    requires LedgerInv(l) && (from, id) in l.balances && amount <= l.balances[(from, id)]
    ensures from != to && (to, id) in l.balances ==> l.balances[(to, id)] + amount <= U64_MAX
  {
    if from != to && (to, id) in l.balances {
      CirculatingPick(l.balances, id, (from, id));
      BalanceWithinCirculating(l.balances - {(from, id)}, (to, id));
      assert Circulating(l.balances, id) == l.assets[id].supply;
    }
  }

  function Apply(l: Ledger, txid: Hash256, height: nat, source: string, dest: Option<string>, op: AssetOp)
    : (ApplyResult, Ledger)
    requires LedgerInv(l)
  {
    match op
    case Issue(ticker, decimals, supply, name, _) =>
      if txid in l.assets then (Ignored(AssetExists), l)
      else if decimals > 18 then (Ignored(DecimalsTooHigh), l)
      else
        var info := AssetInfo(Fungible, ticker, name, decimals, supply, source, 0, [], [], 0, height);
        (Applied, l.(assets := l.assets[txid := info], balances := l.balances[(source, txid) := supply]))
    case NftMint(_, bps, addr, uri, content) =>
      if txid in l.assets then (Ignored(AssetExists), l)
      else if bps > 10_000 then (Ignored(RoyaltyTooHigh), l)
      else
        var info := AssetInfo(NonFungible, [], [], 0, 1, source, bps, addr, uri, content, height);
        (Applied, l.(assets := l.assets[txid := info], owners := l.owners[txid := source]))
    case Transfer(id, amount, _) =>
      if id !in l.assets then (Ignored(UnknownAsset), l)
      else if dest.None? then (Ignored(BadDest), l)
      else if l.assets[id].kind.Fungible? then
        if amount == 0 then (Ignored(ZeroAmount), l)
        else if Balance(l, source, id) < amount then (Ignored(InsufficientBalance), l)
        else
          MoveFits(l, source, dest.value, id, amount);
          (Applied, l.(balances := Moved(l.balances, source, dest.value, id, amount)))
      else if amount != 1 then (Ignored(NftAmount), l)
      else if l.owners[id] != source then (Ignored(NotOwner), l)
      else (Applied, l.(owners := l.owners[id := dest.value]))
  }

  lemma MovedConserves(b: Balances, from: string, to: string, id: Hash256, amount: u64, any: Hash256)
    requires (from, id) in b && amount <= b[(from, id)]
    requires from != to && (to, id) in b ==> b[(to, id)] + amount <= U64_MAX
    ensures Circulating(Moved(b, from, to, id, amount), any) == Circulating(b, any)
  {
    var taken := b[(from, id) := b[(from, id)] - amount];
    CirculatingPut(b, any, (from, id), b[(from, id)] - amount);
    CirculatingPut(taken, any, (to, id), (if (to, id) in taken then taken[(to, id)] else 0) + amount);
  }

  /** Every operation conserves every asset; ignored ones change nothing. */
  lemma ApplyConserves(l: Ledger, txid: Hash256, height: nat, source: string, dest: Option<string>, op: AssetOp)
    requires LedgerInv(l)
    ensures var (r, l') := Apply(l, txid, height, source, dest, op);
            LedgerInv(l') && (r.Ignored? ==> l' == l)
  {
    var (r, l') := Apply(l, txid, height, source, dest, op);
    if r.Applied? {
      match op
      case Issue(_, _, supply, _, _) =>
        assert (source, txid) !in l.balances;
        forall id
          ensures Circulating(l'.balances, id) == Circulating(l.balances, id) + (if id == txid then supply else 0)
        {
          CirculatingPut(l.balances, id, (source, txid), supply);
        }
      case NftMint(_, _, _, _, _) =>
      case Transfer(asset, amount, _) =>
        if l.assets[asset].kind.Fungible? {
          MoveFits(l, source, dest.value, asset, amount);
          forall id ensures Circulating(l'.balances, id) == Circulating(l.balances, id) {
            MovedConserves(l.balances, source, dest.value, asset, amount, id);
          }
        }
    }
  }

  // ---- Who can move what ----------------------------------------------------

  /** What each kind of operation needs: an unused id and fields in range; or a destination, and of the source the
      amount of a fungible asset, or the NFT itself. */
  predicate Entitled(l: Ledger, txid: Hash256, source: string, dest: Option<string>, op: AssetOp) {
    match op
    case Issue(_, decimals, _, _, _) => txid !in l.assets && decimals <= 18
    case NftMint(_, bps, _, _, _) => txid !in l.assets && bps <= 10_000
    case Transfer(id, amount, _) =>
      && id in l.assets && dest.Some?
      && if l.assets[id].kind.Fungible? then amount > 0 && Balance(l, source, id) >= amount
         else amount == 1 && id in l.owners && l.owners[id] == source
  }

  /** An operation is applied exactly when its source is entitled to it. */
  lemma AppliedExactly(l: Ledger, txid: Hash256, height: nat, source: string, dest: Option<string>, op: AssetOp)
    requires LedgerInv(l)
    ensures Apply(l, txid, height, source, dest, op).0.Applied? <==> Entitled(l, txid, source, dest, op)
  {
    LedgerFacts(l);
    if op.Transfer? && op.asset in l.assets && l.assets[op.asset].kind.Fungible? && dest.Some?
       && Balance(l, source, op.asset) >= op.amount > 0
    {
      MoveFits(l, source, dest.value, op.asset, op.amount);
    }
    hide LedgerInv;
  }

  /** Ignored, it is for the first of these that holds. */
  lemma IgnoredFor(l: Ledger, txid: Hash256, height: nat, source: string, dest: Option<string>, op: AssetOp)
    requires LedgerInv(l) && !Entitled(l, txid, source, dest, op)
    ensures Apply(l, txid, height, source, dest, op).1 == l
    ensures var r := Apply(l, txid, height, source, dest, op).0;
            && (!op.Transfer? && txid in l.assets ==> r == Ignored(AssetExists))
            && (op.Issue? && txid !in l.assets ==> r == Ignored(DecimalsTooHigh))
            && (op.NftMint? && txid !in l.assets ==> r == Ignored(RoyaltyTooHigh))
            && (op.Transfer? ==>
                  && (op.asset !in l.assets ==> r == Ignored(UnknownAsset))
                  && (op.asset in l.assets && dest.None? ==> r == Ignored(BadDest))
                  && (op.asset in l.assets && dest.Some? ==>
                        if l.assets[op.asset].kind.Fungible?
                        then r == Ignored(if op.amount == 0 then ZeroAmount else InsufficientBalance)
                        else r == Ignored(if op.amount != 1 then NftAmount else NotOwner)))
  {
    LedgerFacts(l);
    hide LedgerInv;
  }

  /** An NFT changes hands only when its owner transfers it, to the destination named; a new one is its minter's. */
  lemma OnlyOwnerMoves(l: Ledger, txid: Hash256, height: nat, source: string, dest: Option<string>, op: AssetOp,
                       id: Hash256)
    requires LedgerInv(l)
    ensures var l' := Apply(l, txid, height, source, dest, op).1;
            && (id in l.owners ==>
                  && id in l'.owners
                  && (op.Transfer? && op.asset == id && op.amount == 1 && l.owners[id] == source && dest.Some? ==>
                        l'.owners[id] == dest.value)
                  && (!(op.Transfer? && op.asset == id && op.amount == 1 && l.owners[id] == source && dest.Some?) ==>
                        l'.owners[id] == l.owners[id]))
            && (id !in l.owners && id in l'.owners ==>
                  op.NftMint? && id == txid && txid !in l.assets && l'.owners[id] == source)
  {
    LedgerFacts(l);
    OwnersKnown(l, id);
    if op.Transfer? && op.asset in l.assets && l.assets[op.asset].kind.Fungible? && dest.Some?
       && Balance(l, source, op.asset) >= op.amount > 0
    {
      MoveFits(l, source, dest.value, op.asset, op.amount);
    }
    hide LedgerInv;
  }

  lemma OwnersKnown(l: Ledger, id: Hash256)
    requires LedgerInv(l)
    ensures id in l.owners ==> id in l.assets && l.assets[id].kind.NonFungible?
  {
  }

  /** A balance falls only for the source of a transfer, by the amount, and rises only for its destination, by the
      amount, or for an issuer, to the supply; a transfer to oneself changes nothing. */
  lemma OnlySourcePays(l: Ledger, txid: Hash256, height: nat, source: string, dest: Option<string>, op: AssetOp,
                       addr: string, id: Hash256)
    requires LedgerInv(l)
    ensures var before := Balance(l, addr, id);
            var after := Balance(Apply(l, txid, height, source, dest, op).1, addr, id);
            if op.Transfer? && op.asset == id && dest.Some? && dest != Some(source)
               && id in l.assets && l.assets[id].kind.Fungible? && 0 < op.amount <= Balance(l, source, id)
            then after == if addr == source then before - op.amount
                          else if addr == dest.value then before + op.amount else before
            else if op.Issue? && id == txid && txid !in l.assets && op.decimals <= 18 && addr == source
            then before == 0 && after == op.supply
            else after == before
  {
    LedgerFacts(l);
    if op.Transfer? && op.asset in l.assets && l.assets[op.asset].kind.Fungible? && dest.Some?
       && Balance(l, source, op.asset) >= op.amount > 0
    {
      MoveFits(l, source, dest.value, op.asset, op.amount);
    }
    hide LedgerInv;
  }

  /** A known asset's record never changes, and a new one records what its issuer or minter stated. */
  lemma RecordsStay(l: Ledger, txid: Hash256, height: nat, source: string, dest: Option<string>, op: AssetOp,
                    id: Hash256)
    requires LedgerInv(l)
    ensures var (r, l') := Apply(l, txid, height, source, dest, op);
            && (id in l.assets ==> id in l'.assets && l'.assets[id] == l.assets[id])
            && (id !in l.assets && id in l'.assets ==>
                  && id == txid && r.Applied? && !op.Transfer?
                  && var info := l'.assets[id];
                     && info.issuer == source && info.mintHeight == height
                     && (op.Issue? ==>
                           && info.kind.Fungible? && info.supply == op.supply && info.decimals == op.decimals
                           && info.ticker == op.ticker && info.name == op.name)
                     && (op.NftMint? ==>
                           && info.kind.NonFungible? && info.supply == 1 && info.royaltyBps == op.royaltyBps
                           && info.royaltyAddr == op.royaltyAddr && info.uri == op.uri && info.content == op.content))
  {
    LedgerFacts(l);
    hide LedgerInv;
  }

  lemma LedgerFacts(l: Ledger)
    requires LedgerInv(l)
    ensures forall a, id :: id !in l.assets ==> (a, id) !in l.balances
    ensures forall id :: id in l.assets && l.assets[id].kind.NonFungible? ==> id in l.owners
  {
  }

  // ---- The ledger object ----------------------------------------------------

  class AssetState {
    var assets: map<Hash256, AssetInfo>
    var ftBalances: Balances
    var nftOwner: map<Hash256, string>

    ghost function View(): Ledger
      reads this
    {
      Ledger(assets, ftBalances, nftOwner)
    }

    constructor ()
      ensures View() == EMPTY_LEDGER && LedgerInv(View())
    {
      assets, ftBalances, nftOwner := map[], map[], map[];
    }

    method FtBalance(addr: string, id: Hash256) returns (atoms: u64)
      ensures atoms == Balance(View(), addr, id)
    {
      atoms := if (addr, id) in ftBalances then ftBalances[(addr, id)] else 0;
    }

    method Credit(addr: string, id: Hash256, atoms: u64)
      requires (addr, id) in ftBalances ==> ftBalances[(addr, id)] + atoms <= U64_MAX
      modifies this`ftBalances
      ensures var before := if (addr, id) in old(ftBalances) then old(ftBalances)[(addr, id)] else 0;
              ftBalances == old(ftBalances)[(addr, id) := before + atoms]
    {
      var before := if (addr, id) in ftBalances then ftBalances[(addr, id)] else 0;
      ftBalances := ftBalances[(addr, id) := before + atoms];
    }

    method ApplyIssue(txid: Hash256, height: nat, source: string, op: AssetOp) returns (r: ApplyResult)
      requires LedgerInv(View()) && op.Issue?
      modifies this
      ensures (r, View()) == Apply(old(View()), txid, height, source, None, op)
    {
      LedgerFacts(View());
      hide LedgerInv;
      if txid in assets { return Ignored(AssetExists); }
      if op.decimals > 18 { return Ignored(DecimalsTooHigh); }
      assets :=
        assets[txid := AssetInfo(Fungible, op.ticker, op.name, op.decimals, op.supply, source, 0, [], [], 0, height)];
      Credit(source, txid, op.supply);
      return Applied;
    }

    method ApplyMint(txid: Hash256, height: nat, source: string, op: AssetOp) returns (r: ApplyResult)
      requires LedgerInv(View()) && op.NftMint?
      modifies this
      ensures (r, View()) == Apply(old(View()), txid, height, source, None, op)
    {
      hide LedgerInv;
      if txid in assets { return Ignored(AssetExists); }
      if op.royaltyBps > 10_000 { return Ignored(RoyaltyTooHigh); }
      assets :=
        assets[txid := AssetInfo(NonFungible, [], [], 0, 1, source, op.royaltyBps, op.royaltyAddr, op.uri, op.content,
                                 height)];
      nftOwner := nftOwner[txid := source];
      return Applied;
    }

    method ApplyTransfer(txid: Hash256, height: nat, source: string, dest: Option<string>, op: AssetOp)
      returns (r: ApplyResult)
      requires LedgerInv(View()) && op.Transfer?
      modifies this
      ensures (r, View()) == Apply(old(View()), txid, height, source, dest, op)
    {
      LedgerFacts(View());
      var id := op.asset;
      if id !in assets { return Ignored(UnknownAsset); }
      if dest.None? { return Ignored(BadDest); }
      if assets[id].kind.Fungible? {
        if op.amount == 0 { return Ignored(ZeroAmount); }
        var balance := FtBalance(source, id);
        if balance < op.amount { return Ignored(InsufficientBalance); }
        MoveFits(View(), source, dest.value, id, op.amount);
        hide LedgerInv;
        ftBalances := ftBalances[(source, id) := ftBalances[(source, id)] - op.amount];
        Credit(dest.value, id, op.amount);
        return Applied;
      }
      hide LedgerInv;
      if op.amount != 1 { return Ignored(NftAmount); }
      if nftOwner[id] != source { return Ignored(NotOwner); }
      nftOwner := nftOwner[id := dest.value];
      return Applied;
    }

    /** Applies one operation in place. */
    method ApplyOp(txid: Hash256, height: nat, source: string, dest: Option<string>, op: AssetOp)
      returns (r: ApplyResult)
      requires LedgerInv(View())
      modifies this
      ensures LedgerInv(View()) && (r, View()) == Apply(old(View()), txid, height, source, dest, op)
    {
      hide LedgerInv;
      ApplyConserves(View(), txid, height, source, dest, op);
      match op {
        case Issue(_, _, _, _, _) => r := ApplyIssue(txid, height, source, op);
        case NftMint(_, _, _, _, _) => r := ApplyMint(txid, height, source, op);
        case Transfer(_, _, _) => r := ApplyTransfer(txid, height, source, dest, op);
      }
    }
  }
}
