/** Asset operations inside transactions: OP_RETURN carriers, extraction, output building, and the cursor decoder. */
module Carrier {
  import opened Prelude
  import opened Types
  import opened Codec

  /** An OP_RETURN script pushing `data` with the smallest push opcode. */
  function OpReturnScript(data: Bytes): Script {
    var n := |data|;
    if n <= 0x4b then [OP_RETURN, n] + data
    else if n <= 0xff then [OP_RETURN, 0x4c, n] + data
    else [OP_RETURN, 0x4d, n % 256, (n / 256) % 256] + data
  }

  /** The bytes pushed after an OP_RETURN, if the script is a data carrier. */
  function OpReturnData(spk: Script): Option<Bytes> {
    if |spk| < 2 || spk[0] != OP_RETURN then None
    else if 0x01 <= spk[1] <= 0x4b then Slice(spk, 2, spk[1])
    else if spk[1] == 0x4c then if |spk| < 3 then None else Slice(spk, 3, spk[2])
    else if spk[1] == 0x4d then if |spk| < 4 then None else Slice(spk, 4, PushLength(spk[2], spk[3]))
    else None
  }

  function PushLength(lo: nat, hi: nat): nat { lo + 256 * hi }

  function Slice(b: Bytes, i: nat, n: nat): Option<Bytes> { if i + n > |b| then None else Some(b[i..i + n]) }

  /** Data survives its carrier exactly when it is not empty and its length fits the two-byte push. */
  lemma CarrierRoundTrip(data: Bytes)
    ensures OpReturnData(OpReturnScript(data)) == Some(data) <==> 1 <= |data| <= 0xffff
  {
    var n := |data|;
    var spk := OpReturnScript(data);
    if n <= 0x4b {
      assert spk[2..2 + n] == data;
    } else if n <= 0xff {
      assert spk[3..3 + n] == data;
    } else {
      var len := n % 256 + 256 * ((n / 256) % 256);
      assert n == n % 256 + 256 * (n / 256);
      if n <= 0xffff {
        assert (n / 256) % 256 == n / 256;
        assert spk[4..4 + n] == data;
      } else {
        assert len <= 0xffff < n;
      }
    }
  }

  /** The first valid asset operation among a transaction's outputs. */
  function Extract(lossy: Bytes -> Bytes, outs: seq<TxOutput>): Option<AssetOp>
  {
    if outs == [] then None
    else match OpReturnData(outs[0].script)
         case None => Extract(lossy, outs[1..])
         case Some(data) =>
           match Decode(lossy, data)
           case Ok(op) => Some(op)
           case Err(_) => Extract(lossy, outs[1..])
  }

  /** The script starts with these bytes and then the data. */
  predicate StartsWith(spk: Script, head: Bytes, data: Bytes) {
    && |head| + |data| <= |spk| && (forall i :: 0 <= i < |head| ==> spk[i] == head[i])
    && spk[|head|..|head| + |data|] == data
  }

  /** The data is what follows OP_RETURN and the length of a push: one byte up to 75, a marked byte, or two marked
      bytes, the low one first. What stands behind the data does not matter. */
  lemma DataIsPush(spk: Script, data: Bytes)
    ensures var n := |data|;
            OpReturnData(spk) == Some(data) <==>
              || (1 <= n <= 0x4b && StartsWith(spk, [OP_RETURN, n], data))
              || (n <= 0xff && StartsWith(spk, [OP_RETURN, 0x4c, n], data))
              || (n <= 0xffff && StartsWith(spk, [OP_RETURN, 0x4d, n % 256, n / 256], data))
  {
    var n := |data|;
    if n <= 0xffff { StartsWithTwo(spk, data); }
    if |spk| >= 4 && spk[1] == 0x4d { LengthBytes(spk[2], spk[3]); }
    StartsWithOne(spk, data);
    hide StartsWith;
  }

  lemma LengthBytes(lo: nat, hi: nat)
    requires lo < 256 && hi < 256
    ensures PushLength(lo, hi) <= 0xffff && PushLength(lo, hi) % 256 == lo && PushLength(lo, hi) / 256 == hi
  {
  }

  lemma StartsWithOne(spk: Script, data: Bytes)
    ensures var n := |data|;
            && (n <= 0xff ==> (StartsWith(spk, [OP_RETURN, n], data) <==>
                                 |spk| >= 2 && spk[0] == OP_RETURN && spk[1] == n && Slice(spk, 2, n) == Some(data)))
            && (n <= 0xff ==> (StartsWith(spk, [OP_RETURN, 0x4c, n], data) <==>
                                 |spk| >= 3 && spk[0] == OP_RETURN && spk[1] == 0x4c && spk[2] == n
                                 && Slice(spk, 3, n) == Some(data)))
    ensures forall i, n :: Slice(spk, i, n) == Some(data) ==> n == |data|
  {
  }

  lemma StartsWithTwo(spk: Script, data: Bytes)
    requires |data| <= 0xffff
    ensures var lo, hi := |data| % 256, |data| / 256;
            && hi < 256 && PushLength(lo, hi) == |data|
            && (StartsWith(spk, [OP_RETURN, 0x4d, lo, hi], data) <==>
                  |spk| >= 4 && spk[0] == OP_RETURN && spk[1] == 0x4d && spk[2] == lo && spk[3] == hi
                  && Slice(spk, 4, |data|) == Some(data))
  {
  }

  /** The output carries the operation. */
  predicate Carries(lossy: Bytes -> Bytes, o: TxOutput, op: AssetOp) {
    var data := OpReturnData(o.script);
    data.Some? && Decode(lossy, data.value) == Ok(op)
  }

  /** Output `i` carries the operation, and none before it carries any. */
  ghost predicate FirstCarrier(lossy: Bytes -> Bytes, outs: seq<TxOutput>, op: AssetOp, i: nat) {
    i < |outs| && Carries(lossy, outs[i], op) && forall j, other :: 0 <= j < i ==> !Carries(lossy, outs[j], other)
  }

  /** What is extracted is the operation of the first output that carries any, whatever else the outputs hold. */
  lemma {:induction false} ExtractsFirst(lossy: Bytes -> Bytes, outs: seq<TxOutput>, op: AssetOp)
    ensures Extract(lossy, outs) == Some(op) <==> exists i :: FirstCarrier(lossy, outs, op, i)
  {
    hide OpReturnData, Decode;
    if outs != [] {
      var rest := outs[1..];
      ExtractsFirst(lossy, rest, op);
      var data := OpReturnData(outs[0].script);
      if data.Some? && Decode(lossy, data.value).Ok? {
        assert Carries(lossy, outs[0], Decode(lossy, data.value).value);
      }
      if other :| Carries(lossy, outs[0], other) {
        if other == op { assert FirstCarrier(lossy, outs, op, 0); }
      } else {
        assert Extract(lossy, outs) == Extract(lossy, rest);
        if i: nat :| FirstCarrier(lossy, rest, op, i) {
          forall j, other | 0 <= j < i + 1 ensures !Carries(lossy, outs[j], other) {
            if j > 0 { assert outs[j] == rest[j - 1]; }
          }
          assert FirstCarrier(lossy, outs, op, i + 1);
        }
        if i: nat :| FirstCarrier(lossy, outs, op, i) {
          assert rest[i - 1] == outs[i];
          forall j, other | 0 <= j < i - 1 ensures !Carries(lossy, rest[j], other) { assert rest[j] == outs[j + 1]; }
          assert FirstCarrier(lossy, rest, op, i - 1);
        }
      }
    }
  }

  lemma EncodedSize(op: AssetOp)
    ensures 1 <= |Encode(op)| <= MAX_PAYLOAD
  {
  }

  lemma OpRoundTrip(lossy: Bytes -> Bytes, op: AssetOp)
    requires WithinLimits(lossy, op)
    ensures Decode(lossy, Encode(op)) == Ok(op)
  {
    match op
    case Issue(_, _, _, _, _) => IssueRoundTrip(lossy, op);
    case NftMint(_, _, _, _, _) => NftRoundTrip(lossy, op);
    case Transfer(_, _, _) => TransferRoundTrip(lossy, op);
  }

  /** Behind any prefix of outputs that are no carriers, the carrier of `op` is what is extracted. */
  lemma {:induction false} ExtractCarried(lossy: Bytes -> Bytes, pre: seq<TxOutput>, carrier: TxOutput,
                                          post: seq<TxOutput>, op: AssetOp)
    requires WithinLimits(lossy, op) && carrier.script == OpReturnScript(Encode(op))
    requires forall o :: o in pre ==> !IsOpReturn(o.script)
    ensures Extract(lossy, pre + [carrier] + post) == Some(op)
  {
    var outs := pre + [carrier] + post;
    if pre == [] {
      OpRoundTrip(lossy, op);
      EncodedSize(op);
      CarrierRoundTrip(Encode(op));
      assert outs[0] == carrier;
    } else {
      assert outs[0] == pre[0] && outs[1..] == pre[1..] + [carrier] + post;
      ExtractCarried(lossy, pre[1..], carrier, post, op);
    }
  }

  // ---- Building an asset transaction's outputs ------------------------------

  datatype BuildError = InsufficientBalance | InvalidRecipient | InvalidChange

  function BuildOutputs(w: World, op: AssetOp, dest: Option<(string, u64)>, changeAddr: string, totalIn: u64, fee: u64)
    : Result<seq<TxOutput>, BuildError>
  {
    var destAtoms := if dest.Some? then dest.value.1 else 0;
    var spent := SatAdd(destAtoms, fee);
    if totalIn < spent then Err(InsufficientBalance)
    else if dest.Some? && w.p2pkh(dest.value.0).None? then Err(InvalidRecipient)
    else
      var recipient := if dest.Some? then [TxOutput(destAtoms, w.p2pkh(dest.value.0).value)] else [];
      var carrier := TxOutput(0, OpReturnScript(Encode(op)));
      var change := totalIn - spent;
      if change == 0 then Ok(recipient + [carrier])
      else match w.p2pkh(changeAddr)
           case None => Err(InvalidChange)
           case Some(script) => Ok(recipient + [carrier] + [TxOutput(change, script)])
  }

  /** Whatever was built carries exactly the operation asked for, to everyone who extracts it. */
  lemma BuiltCarriesOp(w: World, op: AssetOp, dest: Option<(string, u64)>, changeAddr: string, totalIn: u64, fee: u64)
    requires w.PayScriptsCarryNoData() && WithinLimits(w.utf8Lossy, op)
    requires BuildOutputs(w, op, dest, changeAddr, totalIn, fee).Ok?
    ensures Extract(w.utf8Lossy, BuildOutputs(w, op, dest, changeAddr, totalIn, fee).value) == Some(op)
  {
    hide *;
    BuiltLayout(w, op, dest, changeAddr, totalIn, fee);
    var outs := BuildOutputs(w, op, dest, changeAddr, totalIn, fee).value;
    var at := if dest.Some? then 1 else 0;
    assert outs == outs[..at] + [outs[at]] + outs[at + 1..];
    ExtractCarried(w.utf8Lossy, outs[..at], outs[at], outs[at + 1..], op);
  }

  /** The carrier stands behind the recipient's output, if there is one. */
  lemma BuiltLayout(w: World, op: AssetOp, dest: Option<(string, u64)>, changeAddr: string, totalIn: u64, fee: u64)
    requires w.PayScriptsCarryNoData() && BuildOutputs(w, op, dest, changeAddr, totalIn, fee).Ok?
    ensures var outs := BuildOutputs(w, op, dest, changeAddr, totalIn, fee).value;
            var at := if dest.Some? then 1 else 0;
            && at < |outs| && outs[at].script == OpReturnScript(Encode(op))
            && (forall o :: o in outs[..at] ==> !IsOpReturn(o.script))
  {
    hide Encode, OpReturnScript;
  }

  /** Outputs are built exactly when the inputs cover destination and fee and the addresses to be paid can be; and then
      they pay the destination, carry the operation in an output of no value, and return all the rest as change. */
  lemma BuiltPays(w: World, op: AssetOp, dest: Option<(string, u64)>, changeAddr: string, totalIn: u64, fee: u64)
    ensures var r := BuildOutputs(w, op, dest, changeAddr, totalIn, fee);
            var spent := SatAdd(if dest.Some? then dest.value.1 else 0, fee);
            var n, extra := if dest.Some? then 1 else 0, if totalIn > spent then 1 else 0;
            && (r.Ok? <==>
                  && totalIn >= spent && (dest.Some? ==> w.p2pkh(dest.value.0).Some?)
                  && (totalIn > spent ==> w.p2pkh(changeAddr).Some?))
            && (r.Ok? ==>
                  var outs := r.value;
                  && |outs| == n + 1 + extra && outs[n].value == 0 && outs[n].script == OpReturnScript(Encode(op))
                  && (dest.Some? ==>
                        outs[0].value == dest.value.1 && Some(outs[0].script) == w.p2pkh(dest.value.0))
                  && (extra == 1 ==>
                        outs[n + 1].value == totalIn - spent && Some(outs[n + 1].script) == w.p2pkh(changeAddr)))
  {
    hide Encode, OpReturnScript, SatAdd;
  }

  // ---- The loops ------------------------------------------------------------

  /** Decodes with a cursor that only ever reads inside the buffer. */
  class Decoder {
    const buf: Bytes
    var i: nat

    constructor (buf: Bytes)
      ensures this.buf == buf && i == 0
    {
      this.buf := buf;
      i := 0;
    }

    /** The next `n` bytes, moving past them; at the end of the buffer the cursor stays. */
    method TakeBytes(n: nat) returns (r: Result<Bytes, AssetError>)
      modifies this
      ensures r == Take(buf, old(i), n)
      ensures i == if r.Ok? then old(i) + n else old(i)
    {
      if i + n > |buf| { return Err(Truncated); }
      r := Ok(buf[i..i + n]);
      i := i + n;
    }

    method TakeText(lossy: Bytes -> Bytes) returns (r: Result<Bytes, AssetError>)
      modifies this
      ensures match TakeStr(lossy, buf, old(i))
              case Err(e) => r == Err(e)
              case Ok((text, next)) => r == Ok(text) && i == next
    {
      var len := TakeBytes(1);
      if len.Err? { return Err(len.error); }
      var bytes := TakeBytes(len.value[0]);
      if bytes.Err? { return Err(bytes.error); }
      return Ok(lossy(bytes.value));
    }

    method DecodeIssueBody(lossy: Bytes -> Bytes) returns (r: Result<AssetOp, AssetError>)
      modifies this
      ensures r == DecodeIssue(lossy, buf, old(i))
    {
      hide TakeStr, FromBytes;
      var ticker := TakeText(lossy);
      if ticker.Err? { return Err(ticker.error); }
      var decimals := TakeBytes(1);
      if decimals.Err? { return Err(decimals.error); }
      var supply := TakeBytes(8);
      if supply.Err? { return Err(supply.error); }
      FromBytesBound(supply.value);
      var name := TakeText(lossy);
      if name.Err? { return Err(name.error); }
      var flags := TakeBytes(1);
      if flags.Err? { return Err(flags.error); }
      return Ok(Issue(ticker.value, decimals.value[0], FromBytes(supply.value), name.value, flags.value[0]));
    }

    method DecodeNftBody(lossy: Bytes -> Bytes) returns (r: Result<AssetOp, AssetError>)
      modifies this
      ensures r == DecodeNftMint(lossy, buf, old(i))
    {
      hide TakeStr, FromBytes;
      var collection := TakeBytes(32);
      if collection.Err? { return Err(collection.error); }
      var bps := TakeBytes(2);
      if bps.Err? { return Err(bps.error); }
      if FromBytes(bps.value) > 10_000 { return Err(BadRoyalty); }
      var addr := TakeText(lossy);
      if addr.Err? { return Err(addr.error); }
      var uri := TakeText(lossy);
      if uri.Err? { return Err(uri.error); }
      var content := TakeBytes(32);
      if content.Err? { return Err(content.error); }
      return Ok(NftMint(FromBytes(collection.value), FromBytes(bps.value), addr.value, uri.value,
                        FromBytes(content.value)));
    }

    method DecodeTransferBody() returns (r: Result<AssetOp, AssetError>)
      modifies this
      ensures r == DecodeTransfer(buf, old(i))
    {
      hide FromBytes;
      var asset := TakeBytes(32);
      if asset.Err? { return Err(asset.error); }
      var amount := TakeBytes(8);
      if amount.Err? { return Err(amount.error); }
      FromBytesBound(amount.value);
      var dest := TakeBytes(1);
      if dest.Err? { return Err(dest.error); }
      return Ok(Transfer(FromBytes(asset.value), FromBytes(amount.value), dest.value[0]));
    }
  }

  method DecodeOp(lossy: Bytes -> Bytes, buf: Bytes) returns (r: Result<AssetOp, AssetError>)
    ensures r == Decode(lossy, buf)
  {
    if |buf| > MAX_PAYLOAD { return Err(TooLarge); }
    var d := new Decoder(buf);
    var magic := d.TakeBytes(4);
    if magic.Err? { return Err(magic.error); }
    if magic.value != MAGIC { return Err(BadMagic); }
    var version := d.TakeBytes(1);
    if version.Err? { return Err(version.error); }
    if version.value[0] != VERSION { return Err(BadVersion); }
    var opcode := d.TakeBytes(1);
    if opcode.Err? { return Err(opcode.error); }
    hide DecodeIssue, DecodeNftMint, DecodeTransfer;
    if opcode.value[0] == OP_ISSUE {
      r := d.DecodeIssueBody(lossy);
    } else if opcode.value[0] == OP_NFT_MINT {
      r := d.DecodeNftBody(lossy);
    } else if opcode.value[0] == OP_TRANSFER {
      r := d.DecodeTransferBody();
    } else {
      r := Err(UnknownOpcode);
    }
  }

  method ExtractAssetOp(lossy: Bytes -> Bytes, outs: seq<TxOutput>) returns (op: Option<AssetOp>)
    ensures op == Extract(lossy, outs)
  {
    var i := 0;
    while i < |outs|
      invariant 0 <= i <= |outs|
      invariant Extract(lossy, outs) == Extract(lossy, outs[i..])
    {
      assert outs[i..][1..] == outs[i + 1..];
      var data := OpReturnData(outs[i].script);
      if data.Some? {
        var r := DecodeOp(lossy, data.value);
        if r.Ok? { return Some(r.value); }
      }
      i := i + 1;
    }
    return None;
  }
}
