/** The asset-operation wire format: big-endian fields, OP_RETURN carriers, and extraction from a transaction. */
module Codec {
  import opened Prelude
  import opened Types

  const MAGIC: Bytes := [84, 88, 77, 65]   // "TXMA"
  const VERSION: u8 := 1
  const OP_ISSUE: u8 := 1
  const OP_NFT_MINT: u8 := 2
  const OP_TRANSFER: u8 := 3
  const MAX_PAYLOAD: nat := 520

  /** Text is kept as its UTF-8 bytes. */
  datatype AssetOp =
    | Issue(ticker: Bytes, decimals: u8, supply: u64, name: Bytes, flags: u8)
    | NftMint(collection: Hash256, royaltyBps: nat, royaltyAddr: Bytes, uri: Bytes, content: Hash256)
    | Transfer(asset: Hash256, amount: u64, dest: u8)

  datatype AssetError = BadMagic | BadVersion | UnknownOpcode | Truncated | TooLarge | BadRoyalty

  // ---- Big-endian numbers ---------------------------------------------------

  function ToBytes(n: nat, width: nat): (b: Bytes)
    ensures |b| == width
  {
    if width == 0 then [] else ToBytes(n / 256, width - 1) + [n % 256]
  }

  function FromBytes(b: Bytes): nat
  {
    if b == [] then 0 else FromBytes(b[..|b| - 1]) * 256 + b[|b| - 1]
  }

  function Pow256(n: nat): pos { if n == 0 then 1 else 256 * Pow256(n - 1) }

  lemma {:induction false} BytesRoundTrip(n: nat, width: nat)
    requires n < Pow256(width)
    ensures FromBytes(ToBytes(n, width)) == n
  {
    if width > 0 {
      assert n / 256 < Pow256(width - 1);
      BytesRoundTrip(n / 256, width - 1);
      var init := ToBytes(n / 256, width - 1);
      assert ToBytes(n, width)[..width - 1] == init;
    }
  }

  lemma {:induction false} FromBytesBound(b: Bytes)
    ensures FromBytes(b) < Pow256(|b|)
  {
    if b != [] { FromBytesBound(b[..|b| - 1]); }
  }

  // ---- Encoding -------------------------------------------------------------

  /** A length byte and at most `max` bytes of text. */
  function PutStr(s: Bytes, max: u8): (b: Bytes)
    ensures |b| == 1 + Min(|s|, max)
  {
    var n := Min(|s|, max);
    [n] + s[..n]
  }

  function Header(opcode: u8): Bytes { MAGIC + [VERSION] + [opcode] }

  function Encode(op: AssetOp): Bytes {
    match op
    case Issue(ticker, decimals, supply, name, flags) =>
      Header(OP_ISSUE) + PutStr(ticker, 8) + [decimals] + ToBytes(supply, 8) + PutStr(name, 32) + [flags]
    case NftMint(collection, bps, addr, uri, content) =>
      Header(OP_NFT_MINT) + ToBytes(collection, 32) + ToBytes(bps, 2) + PutStr(addr, 90) + PutStr(uri, 200)
      + ToBytes(content, 32)
    case Transfer(asset, amount, dest) =>
      Header(OP_TRANSFER) + ToBytes(asset, 32) + ToBytes(amount, 8) + [dest]
  }

  // ---- Decoding -------------------------------------------------------------

  /** The `n` bytes at cursor `i`, if they are there. */
  function Take(buf: Bytes, i: nat, n: nat): Result<Bytes, AssetError> {
    if i + n > |buf| then Err(Truncated) else Ok(buf[i..i + n])
  }

  /** Length-prefixed text at cursor `i`; `lossy` replaces what is not valid UTF-8. */
  function TakeStr(lossy: Bytes -> Bytes, buf: Bytes, i: nat): Result<(Bytes, nat), AssetError> {
    match Take(buf, i, 1)
    case Err(e) => Err(e)
    case Ok(len) =>
      match Take(buf, i + 1, len[0])
      case Err(e) => Err(e)
      case Ok(bytes) => Ok((lossy(bytes), i + 1 + len[0]))
  }

  function DecodeIssue(lossy: Bytes -> Bytes, buf: Bytes, i: nat): Result<AssetOp, AssetError> {
    match TakeStr(lossy, buf, i)
    case Err(e) => Err(e)
    case Ok((ticker, i1)) =>
      match Take(buf, i1, 1)
      case Err(e) => Err(e)
      case Ok(decimals) =>
        match Take(buf, i1 + 1, 8)
        case Err(e) => Err(e)
        case Ok(supply) =>
          match TakeStr(lossy, buf, i1 + 9)
          case Err(e) => Err(e)
          case Ok((name, i2)) =>
            match Take(buf, i2, 1)
            case Err(e) => Err(e)
            case Ok(flags) => FromBytesBound(supply); Ok(Issue(ticker, decimals[0], FromBytes(supply), name, flags[0]))
  }

  function DecodeNftMint(lossy: Bytes -> Bytes, buf: Bytes, i: nat): Result<AssetOp, AssetError> {
    match Take(buf, i, 32)
    case Err(e) => Err(e)
    case Ok(collection) =>
      match Take(buf, i + 32, 2)
      case Err(e) => Err(e)
      case Ok(bps) =>
        if FromBytes(bps) > 10_000 then Err(BadRoyalty)
        else
          match TakeStr(lossy, buf, i + 34)
          case Err(e) => Err(e)
          case Ok((addr, i1)) =>
            match TakeStr(lossy, buf, i1)
            case Err(e) => Err(e)
            case Ok((uri, i2)) =>
              match Take(buf, i2, 32)
              case Err(e) => Err(e)
              case Ok(content) => Ok(NftMint(FromBytes(collection), FromBytes(bps), addr, uri, FromBytes(content)))
  }

  function DecodeTransfer(buf: Bytes, i: nat): Result<AssetOp, AssetError> {
    match Take(buf, i, 32)
    case Err(e) => Err(e)
    case Ok(asset) =>
      match Take(buf, i + 32, 8)
      case Err(e) => Err(e)
      case Ok(amount) =>
        match Take(buf, i + 40, 1)
        case Err(e) => Err(e)
        case Ok(dest) => FromBytesBound(amount); Ok(Transfer(FromBytes(asset), FromBytes(amount), dest[0]))
  }

  function Decode(lossy: Bytes -> Bytes, buf: Bytes): Result<AssetOp, AssetError> {
    if |buf| > MAX_PAYLOAD then Err(TooLarge)
    else if |buf| < 4 then Err(Truncated)
    else if buf[..4] != MAGIC then Err(BadMagic)
    else if |buf| < 5 then Err(Truncated)
    else if buf[4] != VERSION then Err(BadVersion)
    else if |buf| < 6 then Err(Truncated)
    else if buf[5] == OP_ISSUE then DecodeIssue(lossy, buf, 6)
    else if buf[5] == OP_NFT_MINT then DecodeNftMint(lossy, buf, 6)
    else if buf[5] == OP_TRANSFER then DecodeTransfer(buf, 6)
    else Err(UnknownOpcode)
  }

  // ---- Round trip -----------------------------------------------------------

  predicate TextFits(lossy: Bytes -> Bytes, s: Bytes, max: nat) { |s| <= max && lossy(s) == s }

  /** Fields within the protocol's limits, text in valid UTF-8. */
  predicate WithinLimits(lossy: Bytes -> Bytes, op: AssetOp) {
    match op
    case Issue(ticker, _, _, name, _) => TextFits(lossy, ticker, 8) && TextFits(lossy, name, 32)
    case NftMint(collection, bps, addr, uri, content) =>
      && collection < Pow256(32) && content < Pow256(32) && bps <= 10_000
      && TextFits(lossy, addr, 90) && TextFits(lossy, uri, 200)
    case Transfer(asset, _, _) => asset < Pow256(32)
  }

  /** A field read where it was written. */
  lemma TakeAt(pre: Bytes, field: Bytes, post: Bytes)
    ensures Take(pre + field + post, |pre|, |field|) == Ok(field)
  {
    assert (pre + field + post)[|pre|..|pre| + |field|] == field;
  }

  lemma TakeStrAt(lossy: Bytes -> Bytes, pre: Bytes, s: Bytes, max: u8, post: Bytes)
    requires TextFits(lossy, s, max)
    ensures TakeStr(lossy, pre + PutStr(s, max) + post, |pre|) == Ok((s, |pre| + 1 + |s|))
  {
    var buf := pre + PutStr(s, max) + post;
    TakeAt(pre, [|s|], s + post);
    assert pre + [|s|] + (s + post) == buf;
    TakeAt(pre + [|s|], s, post);
    assert pre + [|s|] + s + post == buf;
  }

  lemma SmallPowers()
    ensures Pow256(2) == 65536 && Pow256(8) == U64_MAX + 1
  {
    assert Pow256(1) == 256 && Pow256(4) == 4294967296 by { assert Pow256(3) == 16777216; }
    assert Pow256(6) == 281474976710656;
  }

  /** Decoding dispatches on the byte after magic and version. */
  lemma DecodeDispatches(lossy: Bytes -> Bytes, opcode: u8, body: Bytes)
    requires |body| <= MAX_PAYLOAD - 6
    ensures var buf := Header(opcode) + body;
            Decode(lossy, buf) == if opcode == OP_ISSUE then DecodeIssue(lossy, buf, 6)
                                  else if opcode == OP_NFT_MINT then DecodeNftMint(lossy, buf, 6)
                                  else if opcode == OP_TRANSFER then DecodeTransfer(buf, 6)
                                  else Err(UnknownOpcode)
  {
    var buf := Header(opcode) + body;
    hide DecodeIssue, DecodeNftMint, DecodeTransfer;
    assert buf[..4] == MAGIC && buf[4] == VERSION && buf[5] == opcode;
  }

  /** The dispatch, opcode by opcode. */
  lemma DecodeBodies(lossy: Bytes -> Bytes, body: Bytes)
    requires |body| <= MAX_PAYLOAD - 6
    ensures Decode(lossy, Header(OP_ISSUE) + body) == DecodeIssue(lossy, Header(OP_ISSUE) + body, 6)
    ensures Decode(lossy, Header(OP_NFT_MINT) + body) == DecodeNftMint(lossy, Header(OP_NFT_MINT) + body, 6)
    ensures Decode(lossy, Header(OP_TRANSFER) + body) == DecodeTransfer(Header(OP_TRANSFER) + body, 6)
  {
    hide Decode, DecodeIssue, DecodeNftMint, DecodeTransfer, Header;
    DecodeDispatches(lossy, OP_ISSUE, body);
    DecodeDispatches(lossy, OP_NFT_MINT, body);
    DecodeDispatches(lossy, OP_TRANSFER, body);
  }

  lemma Regroup(head: Bytes, a: Bytes, b: Bytes, c: Bytes, d: Bytes, e: Bytes)
    ensures head + a + b + c + d + e == head + (a + b + c + d + e)
  {
  }

  /** Where the fields of an encoded issue are. */
  lemma IssueFields(lossy: Bytes -> Bytes, head: Bytes, ticker: Bytes, d: Bytes, s: Bytes, name: Bytes, f: Bytes)
    requires |head| == 6 && |d| == 1 && |s| == 8 && |f| == 1 && TextFits(lossy, ticker, 8) && TextFits(lossy, name, 32)
    ensures var buf := head + PutStr(ticker, 8) + d + s + PutStr(name, 32) + f;
            && TakeStr(lossy, buf, 6) == Ok((ticker, 7 + |ticker|))
            && Take(buf, 7 + |ticker|, 1) == Ok(d) && Take(buf, 8 + |ticker|, 8) == Ok(s)
            && TakeStr(lossy, buf, 16 + |ticker|) == Ok((name, 17 + |ticker| + |name|))
            && Take(buf, 17 + |ticker| + |name|, 1) == Ok(f)
  {
    var t, n := PutStr(ticker, 8), PutStr(name, 32);
    hide PutStr, Take, TakeStr;
    var buf := head + t + d + s + n + f;
    assert buf == head + t + (d + s + n + f);
    TakeStrAt(lossy, head, ticker, 8, d + s + n + f);
    assert buf == head + t + d + (s + n + f);
    TakeAt(head + t, d, s + n + f);
    assert buf == head + t + d + s + (n + f);
    TakeAt(head + t + d, s, n + f);
    TakeStrAt(lossy, head + t + d + s, name, 32, f);
    assert buf == head + t + d + s + n + f + [];
    TakeAt(head + t + d + s + n, f, []);
  }

  lemma IssueLayout(lossy: Bytes -> Bytes, op: AssetOp)
    requires op.Issue? && WithinLimits(lossy, op)
    ensures var body := PutStr(op.ticker, 8) + [op.decimals] + ToBytes(op.supply, 8) + PutStr(op.name, 32) + [op.flags];
            && Encode(op) == Header(OP_ISSUE) + body && |body| <= MAX_PAYLOAD - 6
            && Encode(op) == Header(OP_ISSUE) + PutStr(op.ticker, 8) + [op.decimals] + ToBytes(op.supply, 8)
                             + PutStr(op.name, 32) + [op.flags]
    ensures TextFits(lossy, op.ticker, 8) && TextFits(lossy, op.name, 32)
            && FromBytes(ToBytes(op.supply, 8)) == op.supply
  {
    SmallPowers();
    BytesRoundTrip(op.supply, 8);
    hide PutStr, ToBytes, FromBytes, Header, Pow256;
    Regroup(Header(OP_ISSUE), PutStr(op.ticker, 8), [op.decimals], ToBytes(op.supply, 8), PutStr(op.name, 32),
            [op.flags]);
  }

  lemma DecodeIssueAt(lossy: Bytes -> Bytes, buf: Bytes, op: AssetOp, s: Bytes)
    requires op.Issue? && |s| == 8 && FromBytes(s) == op.supply
    requires TakeStr(lossy, buf, 6) == Ok((op.ticker, 7 + |op.ticker|))
    requires Take(buf, 7 + |op.ticker|, 1) == Ok([op.decimals]) && Take(buf, 8 + |op.ticker|, 8) == Ok(s)
    requires TakeStr(lossy, buf, 16 + |op.ticker|) == Ok((op.name, 17 + |op.ticker| + |op.name|))
    requires Take(buf, 17 + |op.ticker| + |op.name|, 1) == Ok([op.flags])
    ensures DecodeIssue(lossy, buf, 6) == Ok(op)
  {
    hide Take, TakeStr, FromBytes;
  }

  lemma IssueRoundTrip(lossy: Bytes -> Bytes, op: AssetOp)
    requires op.Issue? && WithinLimits(lossy, op)
    ensures Decode(lossy, Encode(op)) == Ok(op) && |Encode(op)| <= MAX_PAYLOAD
  {
    hide *;
    var body := PutStr(op.ticker, 8) + [op.decimals] + ToBytes(op.supply, 8) + PutStr(op.name, 32) + [op.flags];
    HeaderSize(OP_ISSUE);
    IssueLayout(lossy, op);
    IssueFields(lossy, Header(OP_ISSUE), op.ticker, [op.decimals], ToBytes(op.supply, 8), op.name, [op.flags]);
    DecodeBodies(lossy, body);
    DecodeIssueAt(lossy, Encode(op), op, ToBytes(op.supply, 8));
  }

  lemma HeaderSize(opcode: u8)
    ensures |Header(opcode)| == 6
  {
  }

  /** Where the fields of an encoded mint are. */
  lemma NftFields(lossy: Bytes -> Bytes, head: Bytes, c: Bytes, b: Bytes, addr: Bytes, uri: Bytes, h: Bytes)
    requires |c| == 32 && |b| == 2 && |h| == 32 && |head| == 6 && TextFits(lossy, addr, 90) && TextFits(lossy, uri, 200)
    ensures var buf := head + c + b + PutStr(addr, 90) + PutStr(uri, 200) + h;
            && Take(buf, 6, 32) == Ok(c) && Take(buf, 38, 2) == Ok(b)
            && TakeStr(lossy, buf, 40) == Ok((addr, 41 + |addr|))
            && TakeStr(lossy, buf, 41 + |addr|) == Ok((uri, 42 + |addr| + |uri|))
            && Take(buf, 42 + |addr| + |uri|, 32) == Ok(h)
  {
    var a, u := PutStr(addr, 90), PutStr(uri, 200);
    hide PutStr, Take, TakeStr;
    var buf := head + c + b + a + u + h;
    assert buf == head + c + (b + a + u + h);
    TakeAt(head, c, b + a + u + h);
    assert buf == head + c + b + (a + u + h);
    TakeAt(head + c, b, a + u + h);
    assert buf == head + c + b + a + (u + h);
    TakeStrAt(lossy, head + c + b, addr, 90, u + h);
    TakeStrAt(lossy, head + c + b + a, uri, 200, h);
    assert buf == head + c + b + a + u + h + [];
    TakeAt(head + c + b + a + u, h, []);
  }

  lemma NftLayout(lossy: Bytes -> Bytes, op: AssetOp)
    requires op.NftMint? && WithinLimits(lossy, op)
    ensures var c, b, h := ToBytes(op.collection, 32), ToBytes(op.royaltyBps, 2), ToBytes(op.content, 32);
            var a, u := PutStr(op.royaltyAddr, 90), PutStr(op.uri, 200);
            && Encode(op) == Header(OP_NFT_MINT) + (c + b + a + u + h) && |c + b + a + u + h| <= MAX_PAYLOAD - 6
            && Encode(op) == Header(OP_NFT_MINT) + c + b + a + u + h
            && FromBytes(c) == op.collection && FromBytes(b) == op.royaltyBps <= 10_000 && FromBytes(h) == op.content
    ensures TextFits(lossy, op.royaltyAddr, 90) && TextFits(lossy, op.uri, 200)
  {
    SmallPowers();
    BytesRoundTrip(op.collection, 32);
    BytesRoundTrip(op.royaltyBps, 2);
    BytesRoundTrip(op.content, 32);
    hide PutStr, ToBytes, FromBytes, Header, Pow256;
    Regroup(Header(OP_NFT_MINT), ToBytes(op.collection, 32), ToBytes(op.royaltyBps, 2), PutStr(op.royaltyAddr, 90),
            PutStr(op.uri, 200), ToBytes(op.content, 32));
  }

  lemma DecodeNftAt(lossy: Bytes -> Bytes, buf: Bytes, op: AssetOp, c: Bytes, b: Bytes, h: Bytes)
    requires op.NftMint? && FromBytes(c) == op.collection && FromBytes(b) == op.royaltyBps <= 10_000
             && FromBytes(h) == op.content
    requires Take(buf, 6, 32) == Ok(c) && Take(buf, 38, 2) == Ok(b)
    requires TakeStr(lossy, buf, 40) == Ok((op.royaltyAddr, 41 + |op.royaltyAddr|))
    requires TakeStr(lossy, buf, 41 + |op.royaltyAddr|) == Ok((op.uri, 42 + |op.royaltyAddr| + |op.uri|))
    requires Take(buf, 42 + |op.royaltyAddr| + |op.uri|, 32) == Ok(h)
    ensures DecodeNftMint(lossy, buf, 6) == Ok(op)
  {
    hide Take, TakeStr, FromBytes;
  }

  lemma NftRoundTrip(lossy: Bytes -> Bytes, op: AssetOp)
    requires op.NftMint? && WithinLimits(lossy, op)
    ensures Decode(lossy, Encode(op)) == Ok(op) && |Encode(op)| <= MAX_PAYLOAD
  {
    hide *;
    var c, b, h := ToBytes(op.collection, 32), ToBytes(op.royaltyBps, 2), ToBytes(op.content, 32);
    HeaderSize(OP_NFT_MINT);
    NftLayout(lossy, op);
    NftFields(lossy, Header(OP_NFT_MINT), c, b, op.royaltyAddr, op.uri, h);
    DecodeBodies(lossy, c + b + PutStr(op.royaltyAddr, 90) + PutStr(op.uri, 200) + h);
    DecodeNftAt(lossy, Encode(op), op, c, b, h);
  }

  /** Where the fields of an encoded transfer are. */
  lemma TransferFields(head: Bytes, a: Bytes, m: Bytes, d: Bytes)
    requires |head| == 6 && |a| == 32 && |m| == 8 && |d| == 1
    ensures var buf := head + a + m + d;
            Take(buf, 6, 32) == Ok(a) && Take(buf, 38, 8) == Ok(m) && Take(buf, 46, 1) == Ok(d)
  {
    hide Take;
    var buf := head + a + m + d;
    assert buf == head + a + (m + d);
    TakeAt(head, a, m + d);
    TakeAt(head + a, m, d);
    assert buf == head + a + m + d + [];
    TakeAt(head + a + m, d, []);
  }

  lemma TransferLayout(lossy: Bytes -> Bytes, op: AssetOp)
    requires op.Transfer? && WithinLimits(lossy, op)
    ensures var a, m, d := ToBytes(op.asset, 32), ToBytes(op.amount, 8), [op.dest];
            && |a + m + d| <= MAX_PAYLOAD - 6
            && Encode(op) == Header(OP_TRANSFER) + (a + m + d) && Encode(op) == Header(OP_TRANSFER) + a + m + d
            && FromBytes(a) == op.asset && FromBytes(m) == op.amount
  {
    SmallPowers();
    BytesRoundTrip(op.asset, 32);
    BytesRoundTrip(op.amount, 8);
    hide ToBytes, FromBytes, Header, Pow256;
  }

  lemma DecodeTransferAt(buf: Bytes, op: AssetOp, a: Bytes, m: Bytes)
    requires op.Transfer? && FromBytes(a) == op.asset && FromBytes(m) == op.amount
    requires Take(buf, 6, 32) == Ok(a) && Take(buf, 38, 8) == Ok(m) && Take(buf, 46, 1) == Ok([op.dest])
    ensures DecodeTransfer(buf, 6) == Ok(op)
  {
    hide Take, FromBytes;
  }

  lemma TransferRoundTrip(lossy: Bytes -> Bytes, op: AssetOp)
    requires op.Transfer? && WithinLimits(lossy, op)
    ensures Decode(lossy, Encode(op)) == Ok(op) && |Encode(op)| <= MAX_PAYLOAD
  {
    hide *;
    var a, m, d := ToBytes(op.asset, 32), ToBytes(op.amount, 8), [op.dest];
    HeaderSize(OP_TRANSFER);
    TransferLayout(lossy, op);
    TransferFields(Header(OP_TRANSFER), a, m, d);
    DecodeBodies(lossy, a + m + d);
    DecodeTransferAt(Encode(op), op, a, m);
  }

  // ---- What decodes was encoded ---------------------------------------------

  lemma {:induction false} BytesInverse(b: Bytes)
    ensures ToBytes(FromBytes(b), |b|) == b
  {
    if b != [] {
      var n := |b| - 1;
      BytesInverse(b[..n]);
      assert FromBytes(b) / 256 == FromBytes(b[..n]) && FromBytes(b) % 256 == b[n];
      assert b == b[..n] + [b[n]];
    }
  }

  /** Everywhere in the buffer the text is valid UTF-8, so that repair changes nothing. */
  ghost predicate Repaired(lossy: Bytes -> Bytes, buf: Bytes) {
    forall i, j :: 0 <= i <= j <= |buf| ==> lossy(buf[i..j]) == buf[i..j]
  }

  /** Texts are no longer than the encoder keeps. */
  predicate TextsShort(op: AssetOp) {
    match op
    case Issue(ticker, _, _, name, _) => |ticker| <= 8 && |name| <= 32
    case NftMint(_, _, addr, uri, _) => |addr| <= 90 && |uri| <= 200
    case Transfer(_, _, _) => true
  }

  lemma TakenText(lossy: Bytes -> Bytes, buf: Bytes, i: nat, max: u8)
    requires Repaired(lossy, buf) && TakeStr(lossy, buf, i).Ok?
    ensures var (s, next) := TakeStr(lossy, buf, i).value;
            && i < next <= |buf| && next == i + 1 + |s|
            && (|s| <= max ==> buf[i..next] == PutStr(s, max))
  {
    var len := buf[i];
    assert buf[i..i + 1] == [len];
    assert buf[i..i + 1 + len] == [len] + buf[i + 1..i + 1 + len];
  }

  lemma Header6(buf: Bytes, opcode: u8)
    requires |buf| >= 6 && buf[..4] == MAGIC && buf[4] == VERSION && buf[5] == opcode
    ensures buf[..6] == Header(opcode)
  {
    assert buf[..6] == buf[..4] + [buf[4]] + [buf[5]];
  }

  lemma Joins(buf: Bytes, i: nat, j: nat, k: nat)
    requires i <= j <= k <= |buf|
    ensures buf[i..j] + buf[j..k] == buf[i..k]
  {
  }

  lemma TransferDecodes(buf: Bytes)
    requires |buf| >= 6 && buf[..6] == Header(OP_TRANSFER) && DecodeTransfer(buf, 6).Ok?
    ensures Encode(DecodeTransfer(buf, 6).value) <= buf
  {
    BytesInverse(buf[6..38]);
    BytesInverse(buf[38..46]);
    assert buf[46..47] == [buf[46]];
    hide ToBytes, FromBytes, Header;
    Joins(buf, 0, 6, 38);
    Joins(buf, 0, 38, 46);
    Joins(buf, 0, 46, 47);
    assert buf[..47] == buf[0..47] && buf[..6] == buf[0..6];
  }

  lemma IssueDecodes(lossy: Bytes -> Bytes, buf: Bytes)
    requires |buf| >= 6 && buf[..6] == Header(OP_ISSUE) && Repaired(lossy, buf) && DecodeIssue(lossy, buf, 6).Ok?
    ensures TextsShort(DecodeIssue(lossy, buf, 6).value) ==> Encode(DecodeIssue(lossy, buf, 6).value) <= buf
  {
    var op := DecodeIssue(lossy, buf, 6).value;
    if TextsShort(op) {
      var i1 := TakeStr(lossy, buf, 6).value.1;
      TakenText(lossy, buf, 6, 8);
      TakenText(lossy, buf, i1 + 9, 32);
      var i2 := TakeStr(lossy, buf, i1 + 9).value.1;
      BytesInverse(buf[i1 + 1..i1 + 9]);
      assert buf[i1..i1 + 1] == [op.decimals] && buf[i2..i2 + 1] == [op.flags];
      hide ToBytes, FromBytes, Header, PutStr, Repaired, TakeStr;
      Joins(buf, 0, 6, i1);
      Joins(buf, 0, i1, i1 + 1);
      Joins(buf, 0, i1 + 1, i1 + 9);
      Joins(buf, 0, i1 + 9, i2);
      Joins(buf, 0, i2, i2 + 1);
      assert buf[..i2 + 1] == buf[0..i2 + 1] && buf[..6] == buf[0..6];
    }
  }

  lemma MintDecodes(lossy: Bytes -> Bytes, buf: Bytes)
    requires |buf| >= 6 && buf[..6] == Header(OP_NFT_MINT) && Repaired(lossy, buf) && DecodeNftMint(lossy, buf, 6).Ok?
    ensures TextsShort(DecodeNftMint(lossy, buf, 6).value) ==> Encode(DecodeNftMint(lossy, buf, 6).value) <= buf
  {
    var op := DecodeNftMint(lossy, buf, 6).value;
    if TextsShort(op) {
      TakenText(lossy, buf, 40, 90);
      var i1 := TakeStr(lossy, buf, 40).value.1;
      TakenText(lossy, buf, i1, 200);
      var i2 := TakeStr(lossy, buf, i1).value.1;
      BytesInverse(buf[6..38]);
      BytesInverse(buf[38..40]);
      BytesInverse(buf[i2..i2 + 32]);
      hide ToBytes, FromBytes, Header, PutStr, Repaired, TakeStr;
      Joins(buf, 0, 6, 38);
      Joins(buf, 0, 38, 40);
      Joins(buf, 0, 40, i1);
      Joins(buf, 0, i1, i2);
      Joins(buf, 0, i2, i2 + 32);
      assert buf[..i2 + 32] == buf[0..i2 + 32] && buf[..6] == buf[0..6];
    }
  }

  /** Whatever decodes starts with its own encoding, as far as its text is valid and short enough for the encoder to
      keep whole; what follows is ignored. And it is within the cap, with a royalty within ten thousand basis points. */
  lemma DecodedIsEncoded(lossy: Bytes -> Bytes, buf: Bytes)
    requires Decode(lossy, buf).Ok?
    ensures var op := Decode(lossy, buf).value;
            && 6 <= |buf| <= MAX_PAYLOAD && buf[..4] == MAGIC && buf[4] == VERSION
            && buf[5] == (match op case Issue(_, _, _, _, _) => OP_ISSUE case NftMint(_, _, _, _, _) => OP_NFT_MINT
                          case Transfer(_, _, _) => OP_TRANSFER)
            && (op.NftMint? ==> op.royaltyBps <= 10_000)
            && (Repaired(lossy, buf) && TextsShort(op) ==> Encode(op) <= buf)
            && (op.Transfer? ==> Encode(op) <= buf)
  {
    DecodesBy(lossy, buf);
    Header6(buf, buf[5]);
    hide Decode, DecodeIssue, DecodeNftMint, DecodeTransfer, Encode, Repaired, Header;
    if buf[5] == OP_TRANSFER { TransferDecodes(buf); }
    if Repaired(lossy, buf) {
      if buf[5] == OP_ISSUE { IssueDecodes(lossy, buf); }
      if buf[5] == OP_NFT_MINT { MintDecodes(lossy, buf); }
    }
  }

  lemma DecodesBy(lossy: Bytes -> Bytes, buf: Bytes)
    requires Decode(lossy, buf).Ok?
    ensures 6 <= |buf| <= MAX_PAYLOAD && buf[..4] == MAGIC && buf[4] == VERSION
    ensures buf[5] in {OP_ISSUE, OP_NFT_MINT, OP_TRANSFER}
    ensures buf[5] == OP_ISSUE ==> Decode(lossy, buf) == DecodeIssue(lossy, buf, 6) && Decode(lossy, buf).value.Issue?
    ensures buf[5] == OP_NFT_MINT ==>
              && Decode(lossy, buf) == DecodeNftMint(lossy, buf, 6) && Decode(lossy, buf).value.NftMint?
              && Decode(lossy, buf).value.royaltyBps <= 10_000
    ensures buf[5] == OP_TRANSFER ==> Decode(lossy, buf) == DecodeTransfer(buf, 6) && Decode(lossy, buf).value.Transfer?
  {
    hide TakeStr, Take, FromBytes;
  }
}
