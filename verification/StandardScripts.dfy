/** The standard locking scripts, exactly who can spend them and when, and what other modules assume of them. */
module StandardScripts {
  import opened Prelude
  import opened Types
  import opened Codec
  import opened Scripts

  const OP_1: u8 := 0x51

  // ---- Layouts --------------------------------------------------------------

  /** `<data>` pushed with a single length byte. */
  function PushOf(data: Bytes, rest: Script): Script
    requires |data| <= 0x4b
  {
    [|data|] + data + rest
  }

  /** Checks a key against its hash, then a signature against the key. */
  function PayTail(hash20: Bytes, rest: Script): Script
    requires |hash20| == 20
  {
    [OP_DUP] + ([OP_HASH160] + PushOf(hash20, [OP_EQUALVERIFY] + ([OP_CHECKSIG] + rest)))
  }

  function P2pkhScript(hash20: Bytes): Script
    requires |hash20| == 20
  {
    [OP_DUP, OP_HASH160, 0x14] + hash20 + [OP_EQUALVERIFY, OP_CHECKSIG]
  }

  /** A height as little-endian bytes without leading zeros, at least one byte. */
  function EncodeLocktime(height: nat): (b: Bytes)
    ensures b != [] && LittleEndian(b) == height
  {
    if height < 256 then [height]
    else
      var b := [height % 256] + EncodeLocktime(height / 256);
      assert b[1..] == EncodeLocktime(height / 256);
      b
  }

  lemma {:induction false} LocktimeSize(height: nat, width: nat)
    requires height < Pow256(width) && width >= 1
    ensures |EncodeLocktime(height)| <= width
  {
    if height >= 256 {
      assert height / 256 < Pow256(width - 1) && width > 1;
      LocktimeSize(height / 256, width - 1);
    }
  }

  lemma LocktimeFits(height: u64)
    ensures 1 <= |EncodeLocktime(height)| <= 8
  {
    SmallPowers();
    LocktimeSize(height, 8);
  }

  function ToLittleEndian(n: nat, width: nat): (b: Bytes)
    ensures |b| == width
  {
    if width == 0 then [] else [n % 256] + ToLittleEndian(n / 256, width - 1)
  }

  /** A fixed-width encoding without its top zeros is the short one. */
  lemma {:induction false} TrimTop(n: nat, width: nat)
    requires width >= 1 && n < Pow256(width)
    ensures var b := ToLittleEndian(n, width);
            if width == 1 || b[width - 1] != 0 then b == EncodeLocktime(n)
            else b[..width - 1] == ToLittleEndian(n, width - 1) && n < Pow256(width - 1)
  {
    if width == 1 {
      assert ToLittleEndian(n, 1) == [n];
    } else {
      assert n / 256 < Pow256(width - 1);
      TrimTop(n / 256, width - 1);
      var b, tail := ToLittleEndian(n, width), ToLittleEndian(n / 256, width - 1);
      assert b[width - 1] == tail[width - 2] && b[..width - 1] == [n % 256] + tail[..width - 2];
      if width == 2 {
        assert tail == [n / 256];
      }
    }
  }

  /** Drops the top zero bytes of the eight-byte encoding, keeping one. */
  method EncodeLocktimeBytes(locktime: u64) returns (b: Bytes)
    ensures b == EncodeLocktime(locktime)
  {
    var bytes := ToLittleEndian(locktime, 8);
    SmallPowers();
    assert bytes[..8] == bytes;
    var len := 8;
    TrimTop(locktime, len);
    while len > 1 && bytes[len - 1] == 0
      invariant 1 <= len <= 8 && locktime < Pow256(len)
      invariant bytes[..len] == ToLittleEndian(locktime, len)
    {
      TrimTop(locktime, len);
      len := len - 1;
    }
    TrimTop(locktime, len);
    return bytes[..len];
  }

  /** Nothing beyond this point before the given height. */
  function Gate(locktime: u64, rest: Script): Script {
    LocktimeFits(locktime);
    PushOf(EncodeLocktime(locktime), [OP_CHECKLOCKTIMEVERIFY] + ([OP_DROP] + rest))
  }

  /** A payment to a key, spendable from a height on. */
  function CltvScript(locktime: u64, hash20: Bytes): Script
    requires |hash20| == 20
  {
    Gate(locktime, PayTail(hash20, []))
  }

  /** A hash time-locked contract: a preimage pays the recipient; from a height on, the other key takes it back. */
  function HtlcScript(digest: Bytes, recipient: Bytes, refund: Bytes, locktime: u64): Script
    requires |digest| == 32 && |recipient| == 20 && |refund| == 20
  {
    [OP_IF] + ([OP_SHA256] + PushOf(digest, [OP_EQUALVERIFY] + PayTail(recipient,
      [OP_ELSE] + Gate(locktime, PayTail(refund, [OP_ENDIF])))))
  }

  // ---- Running the pieces ---------------------------------------------------

  predicate IsPlain(op: u8) { (op == 0 || op > 0x4c) && op !in {OP_IF, OP_ELSE, OP_ENDIF} }

  /** A push in a branch that executes, where the stack must have room, or in one that does not. */
  lemma RunPush(c: Crypto, ctx: Context, data: Bytes, rest: Script, s: Stack, ifs: seq<bool>, sigs: bool)
    requires |data| <= 0x4b
    ensures Run(c, ctx, PushOf(data, rest), s, ifs, sigs) ==
              if !Executing(ifs) then Run(c, ctx, rest, s, ifs, sigs)
              else if |s| >= MAX_STACK_DEPTH then Err(StackOverflow)
              else Run(c, ctx, rest, s + [data], ifs, sigs)
  {
    hide Truthy, CheckSig, CheckMultiSig, LockTime;
    var code := PushOf(data, rest);
    assert code[1..1 + |data|] == data && code[1 + |data|..] == rest;
  }

  lemma RunOp(c: Crypto, ctx: Context, op: u8, rest: Script, s: Stack, ifs: seq<bool>, sigs: bool)
    requires IsPlain(op)
    ensures var next := if Executing(ifs) then Operate(c, ctx, s, op, sigs) else Ok(s);
            Run(c, ctx, [op] + rest, s, ifs, sigs) ==
              if next.Err? then next else Run(c, ctx, rest, next.value, ifs, sigs)
  {
    hide Operate, Truthy;
    assert ([op] + rest)[1..] == rest;
  }

  lemma RunBranch(c: Crypto, ctx: Context, rest: Script, s: Stack, b: bool, sigs: bool)
    ensures Run(c, ctx, [OP_IF] + rest, s, [], sigs) ==
              if s == [] then Err(StackUnderflow) else Run(c, ctx, rest, Pop(s, 1), [Truthy(Top(s))], sigs)
    ensures Run(c, ctx, [OP_ELSE] + rest, s, [b], sigs) == Run(c, ctx, rest, s, [!b], sigs)
    ensures Run(c, ctx, [OP_ENDIF] + rest, s, [b], sigs) == Run(c, ctx, rest, s, [], sigs)
  {
    hide Operate, Truthy;
    assert ([OP_IF] + rest)[1..] == rest && ([OP_ELSE] + rest)[1..] == rest && ([OP_ENDIF] + rest)[1..] == rest;
    assert [b][..0] == [] && [] + [!b] == [!b];
    if s != [] { assert [] + [Truthy(Top(s))] == [Truthy(Top(s))]; }
  }

  lemma RunNothing(c: Crypto, ctx: Context, s: Stack, sigs: bool)
    ensures Run(c, ctx, [], s, [], sigs) == Ok(s)
  {
  }

  lemma PlainOps()
    ensures IsPlain(OP_0) && IsPlain(OP_1) && IsPlain(OP_DUP) && IsPlain(OP_DROP)
    ensures IsPlain(OP_SHA256) && IsPlain(OP_HASH160)
    ensures IsPlain(OP_EQUALVERIFY) && IsPlain(OP_CHECKSIG) && IsPlain(OP_CHECKLOCKTIMEVERIFY)
  {
  }

  /** The outcome of a key check, on which what follows is run. */
  function Checked(c: Crypto, ctx: Context, s: Stack, hash20: Bytes): Outcome {
    if s == [] then Err(StackUnderflow)
    else if |s| > MAX_STACK_DEPTH - 2 then Err(StackOverflow)
    else if c.sha256(Top(s))[..20] != hash20 then Err(VerifyFailed)
    else CheckSig(c, ctx, s)
  }

  /** How the operations of a key check act on a stack. */
  lemma PayOps(c: Crypto, ctx: Context, s: Stack, hash20: Bytes)
    requires s != []
    ensures var hashed := c.sha256(Top(s))[..20];
            && Operate(c, ctx, s, OP_DUP, true) == PushItem(s, Top(s))
            && Operate(c, ctx, s + [Top(s)], OP_HASH160, true) == Ok(s + [hashed])
            && Operate(c, ctx, s + [hashed] + [hash20], OP_EQUALVERIFY, true)
                 == (if hashed != hash20 then Err(VerifyFailed) else Ok(s))
            && Operate(c, ctx, s, OP_CHECKSIG, true) == CheckSig(c, ctx, s)
  {
    hide CheckMultiSig, CheckSig, LockTime, Truthy;
    var hashed := c.sha256(Top(s))[..20];
    assert Pop(s + [Top(s)], 1) == s && Top(s + [Top(s)]) == Top(s);
    assert Pop(s + [hashed] + [hash20], 2) == s;
  }

  lemma TailRuns(c: Crypto, ctx: Context, s: Stack, hash20: Bytes, rest: Script, ifs: seq<bool>)
    requires |hash20| == 20 && Executing(ifs)
    ensures var r := Checked(c, ctx, s, hash20);
            Run(c, ctx, PayTail(hash20, rest), s, ifs, true) ==
              if r.Err? then r else Run(c, ctx, rest, r.value, ifs, true)
  {
    PlainOps();
    assert s == [] ==> Operate(c, ctx, s, OP_DUP, true) == Err(StackUnderflow);
    hide Run, Operate, IsPlain, Executing, PushOf, CheckSig;
    var verify := [OP_EQUALVERIFY] + ([OP_CHECKSIG] + rest);
    RunOp(c, ctx, OP_DUP, [OP_HASH160] + PushOf(hash20, verify), s, ifs, true);
    if s != [] {
      PayOps(c, ctx, s, hash20);
      var hashed := c.sha256(Top(s))[..20];
      RunOp(c, ctx, OP_HASH160, PushOf(hash20, verify), s + [Top(s)], ifs, true);
      RunPush(c, ctx, hash20, verify, s + [hashed], ifs, true);
      RunOp(c, ctx, OP_EQUALVERIFY, [OP_CHECKSIG] + rest, s + [hashed] + [hash20], ifs, true);
      RunOp(c, ctx, OP_CHECKSIG, rest, s, ifs, true);
    }
  }

  /** A key check in a branch not taken is skipped whole. */
  lemma TailSkips(c: Crypto, ctx: Context, s: Stack, hash20: Bytes, rest: Script, ifs: seq<bool>)
    requires |hash20| == 20 && !Executing(ifs)
    ensures Run(c, ctx, PayTail(hash20, rest), s, ifs, true) == Run(c, ctx, rest, s, ifs, true)
  {
    PlainOps();
    hide Run, Operate, IsPlain, Executing, PushOf;
    var verify := [OP_EQUALVERIFY] + ([OP_CHECKSIG] + rest);
    RunOp(c, ctx, OP_DUP, [OP_HASH160] + PushOf(hash20, verify), s, ifs, true);
    RunOp(c, ctx, OP_HASH160, PushOf(hash20, verify), s, ifs, true);
    RunPush(c, ctx, hash20, verify, s, ifs, true);
    RunOp(c, ctx, OP_EQUALVERIFY, [OP_CHECKSIG] + rest, s, ifs, true);
    RunOp(c, ctx, OP_CHECKSIG, rest, s, ifs, true);
  }

  lemma GateOps(c: Crypto, ctx: Context, data: Bytes, s: Stack)
    requires |data| <= 8
    ensures Operate(c, ctx, s + [data], OP_CHECKLOCKTIMEVERIFY, true) ==
              if ctx.height < LittleEndian(data) then Err(LockTimeNotMet) else Ok(s + [data])
    ensures Operate(c, ctx, s + [data], OP_DROP, true) == Ok(s)
  {
    hide Operate, LittleEndian;
    var t := s + [data];
    OperateOne(c, ctx, t);
    assert Top(t) == data && Pop(t, 1) == s;
  }

  lemma OperateOne(c: Crypto, ctx: Context, t: Stack)
    requires t != []
    ensures Operate(c, ctx, t, OP_CHECKLOCKTIMEVERIFY, true) == LockTime(ctx, t)
    ensures Operate(c, ctx, t, OP_DROP, true) == Ok(Pop(t, 1))
  {
    hide Top, Pop, PushItem, CheckSig, CheckMultiSig, LockTime, Truthy, Flag;
  }

  /** A timelock holds back what follows exactly until its height, and then is as if it were not there; it needs room
      for one item. */
  lemma GateHolds(c: Crypto, ctx: Context, locktime: u64, rest: Script, s: Stack, ifs: seq<bool>)
    ensures Run(c, ctx, Gate(locktime, rest), s, ifs, true) ==
              if Executing(ifs) && |s| >= MAX_STACK_DEPTH then Err(StackOverflow)
              else if Executing(ifs) && ctx.height < locktime then Err(LockTimeNotMet)
              else Run(c, ctx, rest, s, ifs, true)
  {
    var data := EncodeLocktime(locktime);
    LocktimeFits(locktime);
    PlainOps();
    GateOps(c, ctx, data, s);
    hide Run, Operate, IsPlain, Executing, PushOf, EncodeLocktime, LittleEndian;
    var tail := [OP_CHECKLOCKTIMEVERIFY] + ([OP_DROP] + rest);
    RunPush(c, ctx, data, tail, s, ifs, true);
    var s1 := if Executing(ifs) then s + [data] else s;
    RunOp(c, ctx, OP_CHECKLOCKTIMEVERIFY, [OP_DROP] + rest, s1, ifs, true);
    RunOp(c, ctx, OP_DROP, rest, s1, ifs, true);
  }

  // ---- Who can spend --------------------------------------------------------

  predicate Signed(c: Crypto, ctx: Context, sig: Bytes, key: Bytes, hash20: Bytes) {
    c.sha256(key)[..20] == hash20 && c.isKey(key) && c.isSig(sig) && c.verifies(key, sig, ctx.sigHash)
  }

  /** On top of the stack, with room for two more items, lie a signature and the key that hashes to `hash20` and
      verifies it. */
  predicate SignedTop(c: Crypto, ctx: Context, s: Stack, hash20: Bytes) {
    2 <= |s| <= MAX_STACK_DEPTH - 2 && Signed(c, ctx, s[|s| - 2], s[|s| - 1], hash20)
  }

  lemma VerdictOfFlag(s: Stack, b: bool)
    ensures Verdict(Ok(s + [Flag(b)])) == Ok(b)
  {
    assert Truthy([1]) by { assert 1 in [1]; }
  }

  lemma CheckedMeansSigned(c: Crypto, ctx: Context, s: Stack, hash20: Bytes)
    ensures Verdict(Checked(c, ctx, s, hash20)) == Ok(true) <==> SignedTop(c, ctx, s, hash20)
  {
    hide Flag, Truthy;
    if |s| >= 2 { VerdictOfFlag(Pop(s, 2), c.verifies(s[|s| - 1], s[|s| - 2], ctx.sigHash)); }
    hide Verdict;
    FailsFalse();
  }

  lemma FailsFalse()
    ensures forall e :: Verdict(Err(e)) != Ok(true)
  {
  }

  /** The stack an unlocking script leaves, if it runs through and the two scripts are not too long together. */
  function Left(c: Crypto, ctx: Context, unlock: Script, size: nat): Option<Stack> {
    if |unlock| + size > MAX_SCRIPT_SIZE then None
    else match Run(c, ctx, unlock, [], [], false)
         case Err(_) => None
         case Ok(s) => Some(s)
  }

  /** On that stack, a locking script that is no script hash decides alone. */
  lemma ExecuteRuns(c: Crypto, ctx: Context, unlock: Script, spk: Script)
    requires |spk| != 23
    ensures var left := Left(c, ctx, unlock, |spk|);
            if left.None? then Execute(c, unlock, spk, ctx).Err?
            else Execute(c, unlock, spk, ctx) == Verdict(Run(c, ctx, spk, left.value, [], true))
  {
    hide Run, Verdict;
  }

  /** Spending a pay-to-address output takes exactly an unlocking script, of any form, that leaves a key that hashes to
      it under it a signature which the key verifies. */
  lemma P2pkhUnlocks(c: Crypto, ctx: Context, unlock: Script, hash20: Bytes)
    requires |hash20| == 20
    ensures var left := Left(c, ctx, unlock, 25);
            Execute(c, unlock, P2pkhScript(hash20), ctx) == Ok(true) <==>
              left.Some? && SignedTop(c, ctx, left.value, hash20)
  {
    P2pkhLayout(hash20);
    assert Executing([]);
    hide *;
    ExecuteRuns(c, ctx, unlock, P2pkhScript(hash20));
    var left := Left(c, ctx, unlock, 25);
    if left.Some? {
      TailRuns(c, ctx, left.value, hash20, [], []);
      EndOfScript(c, ctx, Checked(c, ctx, left.value, hash20));
      CheckedMeansSigned(c, ctx, left.value, hash20);
    }
  }

  lemma EndOfScript(c: Crypto, ctx: Context, r: Outcome)
    ensures r.Ok? ==> Run(c, ctx, [], r.value, [], true) == r
  {
  }

  lemma P2pkhLayout(hash20: Bytes)
    requires |hash20| == 20
    ensures P2pkhScript(hash20) == PayTail(hash20, []) && |P2pkhScript(hash20)| == 25
  {
  }

  /** A vesting output opens to its key exactly from its height on. */
  lemma CltvUnlocks(c: Crypto, ctx: Context, unlock: Script, locktime: u64, hash20: Bytes)
    requires |hash20| == 20
    ensures var left := Left(c, ctx, unlock, |CltvScript(locktime, hash20)|);
            Execute(c, unlock, CltvScript(locktime, hash20), ctx) == Ok(true) <==>
              left.Some? && ctx.height >= locktime && SignedTop(c, ctx, left.value, hash20)
  {
    ScriptSizes(locktime);
    var spk := CltvScript(locktime, hash20);
    assert Executing([]) && spk == Gate(locktime, PayTail(hash20, []));
    assert |spk| != 23 && (forall s: Stack :: SignedTop(c, ctx, s, hash20) ==> |s| < MAX_STACK_DEPTH);
    hide *;
    FailsFalse();
    ExecuteRuns(c, ctx, unlock, spk);
    var left := Left(c, ctx, unlock, |spk|);
    if left.Some? {
      GateHolds(c, ctx, locktime, PayTail(hash20, []), left.value, []);
      TailRuns(c, ctx, left.value, hash20, [], []);
      EndOfScript(c, ctx, Checked(c, ctx, left.value, hash20));
      CheckedMeansSigned(c, ctx, left.value, hash20);
    }
  }

  lemma ScriptSizes(locktime: u64)
    ensures forall rest: Script :: |rest| >= 25 ==> |Gate(locktime, rest)| >= 25
  {
    hide EncodeLocktime;
  }

  /** The stack a claim needs: a signature, its key, a preimage of the digest, and something true. */
  predicate Claims(c: Crypto, ctx: Context, s: Stack, digest: Bytes, recipient: Bytes) {
    |s| >= 2 && c.sha256(s[|s| - 2]) == digest && SignedTop(c, ctx, Pop(s, 2), recipient)
  }

  /** A contract opens exactly by a claim, with a preimage of its digest and the recipient's signature, at any height;
      or by a refund, from its height on and with the refund key's signature. What lies on top chooses. */
  lemma HtlcUnlocks(c: Crypto, ctx: Context, unlock: Script, digest: Bytes, recipient: Bytes, refund: Bytes,
                    locktime: u64)
    requires |digest| == 32 && |recipient| == 20 && |refund| == 20
    ensures var left := Left(c, ctx, unlock, |HtlcScript(digest, recipient, refund, locktime)|);
            Execute(c, unlock, HtlcScript(digest, recipient, refund, locktime), ctx) == Ok(true) <==>
              && left.Some? && left.value != []
              && if Truthy(Top(left.value)) then Claims(c, ctx, left.value, digest, recipient)
                 else ctx.height >= locktime && SignedTop(c, ctx, Pop(left.value, 1), refund)
  {
    HtlcSize(digest, recipient, refund, locktime);
    hide *;
    var spk := HtlcScript(digest, recipient, refund, locktime);
    ExecuteRuns(c, ctx, unlock, spk);
    var left := Left(c, ctx, unlock, |spk|);
    FailsFalse();
    if left.Some? {
      HtlcRuns(c, ctx, left.value, digest, recipient, refund, locktime);
      if left.value != [] {
        ClaimedMeansClaims(c, ctx, left.value, digest, recipient);
        RefundedMeansSigned(c, ctx, Pop(left.value, 1), refund, locktime);
      }
    }
  }

  lemma HtlcSize(digest: Bytes, recipient: Bytes, refund: Bytes, locktime: u64)
    requires |digest| == 32 && |recipient| == 20 && |refund| == 20
    ensures |HtlcScript(digest, recipient, refund, locktime)| > 23
  {
    LocktimeFits(locktime);
    hide EncodeLocktime;
  }

  /** The outcome of the claiming branch, below the item that chose it. */
  function Claimed(c: Crypto, ctx: Context, s: Stack, digest: Bytes, recipient: Bytes): Outcome {
    if s == [] then Err(StackUnderflow)
    else if |s| >= MAX_STACK_DEPTH then Err(StackOverflow)
    else if c.sha256(Top(s)) != digest then Err(VerifyFailed)
    else Checked(c, ctx, Pop(s, 1), recipient)
  }

  /** And of the refunding branch. */
  function Refunded(c: Crypto, ctx: Context, s: Stack, refund: Bytes, locktime: u64): Outcome {
    if |s| >= MAX_STACK_DEPTH then Err(StackOverflow)
    else if ctx.height < locktime then Err(LockTimeNotMet)
    else Checked(c, ctx, s, refund)
  }

  lemma ClaimedMeansClaims(c: Crypto, ctx: Context, s: Stack, digest: Bytes, recipient: Bytes)
    requires s != []
    ensures Verdict(Claimed(c, ctx, Pop(s, 1), digest, recipient)) == Ok(true) <==> Claims(c, ctx, s, digest, recipient)
  {
    hide Verdict, Checked, Signed;
    FailsFalse();
    var t := Pop(s, 1);
    if t != [] {
      assert Pop(t, 1) == Pop(s, 2) && Top(t) == s[|s| - 2];
      CheckedMeansSigned(c, ctx, Pop(t, 1), recipient);
    }
  }

  lemma RefundedMeansSigned(c: Crypto, ctx: Context, s: Stack, refund: Bytes, locktime: u64)
    ensures Verdict(Refunded(c, ctx, s, refund, locktime)) == Ok(true) <==>
              ctx.height >= locktime && SignedTop(c, ctx, s, refund)
  {
    hide Verdict, Checked, Signed;
    FailsFalse();
    CheckedMeansSigned(c, ctx, s, refund);
  }

  /** A contract run on any stack. */
  lemma HtlcRuns(c: Crypto, ctx: Context, s: Stack, digest: Bytes, recipient: Bytes, refund: Bytes, locktime: u64)
    requires |digest| == 32 && |recipient| == 20 && |refund| == 20
    ensures Run(c, ctx, HtlcScript(digest, recipient, refund, locktime), s, [], true) ==
              if s == [] then Err(StackUnderflow)
              else if Truthy(Top(s)) then Claimed(c, ctx, Pop(s, 1), digest, recipient)
              else Refunded(c, ctx, Pop(s, 1), refund, locktime)
  {
    var otherwise := Gate(locktime, PayTail(refund, [OP_ENDIF]));
    var pay := PayTail(recipient, [OP_ELSE] + otherwise);
    var body := [OP_SHA256] + PushOf(digest, [OP_EQUALVERIFY] + pay);
    assert HtlcScript(digest, recipient, refund, locktime) == [OP_IF] + body;
    hide *;
    RunBranch(c, ctx, body, s, true, true);
    if s != [] {
      if Truthy(Top(s)) {
        ClaimRuns(c, ctx, Pop(s, 1), digest, recipient, refund, locktime);
      } else {
        RefundRuns(c, ctx, Pop(s, 1), digest, recipient, refund, locktime);
      }
    }
  }

  /** How the operations of a preimage check act on a stack. */
  lemma PreimageOps(c: Crypto, ctx: Context, s: Stack, digest: Bytes)
    ensures Operate(c, ctx, [], OP_SHA256, true) == Err(StackUnderflow)
    ensures s != [] ==>
              && Operate(c, ctx, s, OP_SHA256, true) == Ok(Pop(s, 1) + [c.sha256(Top(s))])
              && Operate(c, ctx, Pop(s, 1) + [c.sha256(Top(s))] + [digest], OP_EQUALVERIFY, true)
                   == (if c.sha256(Top(s)) != digest then Err(VerifyFailed) else Ok(Pop(s, 1)))
  {
    hide CheckMultiSig, CheckSig, LockTime, Truthy;
    if s != [] { assert Pop(Pop(s, 1) + [c.sha256(Top(s))] + [digest], 2) == Pop(s, 1); }
  }

  lemma ClaimRuns(c: Crypto, ctx: Context, s: Stack, digest: Bytes, recipient: Bytes, refund: Bytes, locktime: u64)
    requires |digest| == 32 && |recipient| == 20 && |refund| == 20
    ensures var otherwise := Gate(locktime, PayTail(refund, [OP_ENDIF]));
            var pay := PayTail(recipient, [OP_ELSE] + otherwise);
            Run(c, ctx, [OP_SHA256] + PushOf(digest, [OP_EQUALVERIFY] + pay), s, [true], true)
              == Claimed(c, ctx, s, digest, recipient)
  {
    PlainOps();
    PreimageOps(c, ctx, s, digest);
    assert Executing([true]);
    hide Run, PushOf, Executing, IsPlain, Operate, PayTail, Gate, Checked, Truthy;
    var otherwise := Gate(locktime, PayTail(refund, [OP_ENDIF]));
    var pay := PayTail(recipient, [OP_ELSE] + otherwise);
    RunOp(c, ctx, OP_SHA256, PushOf(digest, [OP_EQUALVERIFY] + pay), s, [true], true);
    if s != [] {
      var hashed := c.sha256(Top(s));
      RunPush(c, ctx, digest, [OP_EQUALVERIFY] + pay, Pop(s, 1) + [hashed], [true], true);
      RunOp(c, ctx, OP_EQUALVERIFY, pay, Pop(s, 1) + [hashed] + [digest], [true], true);
      TailRuns(c, ctx, Pop(s, 1), recipient, [OP_ELSE] + otherwise, [true]);
      var r := Checked(c, ctx, Pop(s, 1), recipient);
      if r.Ok? { RefundSkipped(c, ctx, refund, locktime, r.value); }
    }
  }

  /** After a claim the refund branch is skipped whole. */
  lemma RefundSkipped(c: Crypto, ctx: Context, refund: Bytes, locktime: u64, s: Stack)
    requires |refund| == 20
    ensures Run(c, ctx, [OP_ELSE] + Gate(locktime, PayTail(refund, [OP_ENDIF])), s, [true], true) == Ok(s)
  {
    assert !Executing([false]) && [OP_ENDIF] + [] == [OP_ENDIF];
    hide Run, Executing, PayTail, Gate;
    RunBranch(c, ctx, Gate(locktime, PayTail(refund, [OP_ENDIF])), s, true, true);
    GateHolds(c, ctx, locktime, PayTail(refund, [OP_ENDIF]), s, [false]);
    TailSkips(c, ctx, s, refund, [OP_ENDIF], [false]);
    RunBranch(c, ctx, [], s, false, true);
    RunNothing(c, ctx, s, true);
  }

  lemma RefundRuns(c: Crypto, ctx: Context, s: Stack, digest: Bytes, recipient: Bytes, refund: Bytes, locktime: u64)
    requires |digest| == 32 && |recipient| == 20 && |refund| == 20
    ensures var otherwise := Gate(locktime, PayTail(refund, [OP_ENDIF]));
            var pay := PayTail(recipient, [OP_ELSE] + otherwise);
            Run(c, ctx, [OP_SHA256] + PushOf(digest, [OP_EQUALVERIFY] + pay), s, [false], true)
              == Refunded(c, ctx, s, refund, locktime)
  {
    PlainOps();
    assert Executing([true]) && !Executing([false]) && [OP_ENDIF] + [] == [OP_ENDIF];
    hide Run, PushOf, Executing, IsPlain, Operate, PayTail, Gate, Checked, Truthy;
    var otherwise := Gate(locktime, PayTail(refund, [OP_ENDIF]));
    var pay := PayTail(recipient, [OP_ELSE] + otherwise);
    RunOp(c, ctx, OP_SHA256, PushOf(digest, [OP_EQUALVERIFY] + pay), s, [false], true);
    RunPush(c, ctx, digest, [OP_EQUALVERIFY] + pay, s, [false], true);
    RunOp(c, ctx, OP_EQUALVERIFY, pay, s, [false], true);
    TailSkips(c, ctx, s, recipient, [OP_ELSE] + otherwise, [false]);
    RunBranch(c, ctx, otherwise, s, false, true);
    GateHolds(c, ctx, locktime, PayTail(refund, [OP_ENDIF]), s, [true]);
    TailRuns(c, ctx, s, refund, [OP_ENDIF], [true]);
    var r := Checked(c, ctx, s, refund);
    if r.Ok? {
      RunBranch(c, ctx, [], r.value, true, true);
      RunNothing(c, ctx, r.value, true);
    }
  }

  // ---- The usual unlocking scripts ------------------------------------------

  /** A signature, its key, and then what chooses a branch. */
  function Unlock(sig: Bytes, key: Bytes, rest: Script): Script
    requires |sig| <= 0x4b && |key| <= 0x4b
  {
    PushOf(sig, PushOf(key, rest))
  }

  lemma UnlockPushes(c: Crypto, ctx: Context, sig: Bytes, key: Bytes, rest: Script)
    requires |sig| <= 0x4b && |key| <= 0x4b
    ensures Run(c, ctx, Unlock(sig, key, rest), [], [], false) == Run(c, ctx, rest, [sig, key], [], false)
  {
    assert Executing([]);
    hide Run, PushOf, Executing;
    RunPush(c, ctx, sig, PushOf(key, rest), [], [], false);
    RunPush(c, ctx, key, rest, [] + [sig], [], false);
    assert [] + [sig] + [key] == [sig, key];
  }

  /** Pushing a signature, its key and a preimage claims a contract whatever the height. */
  lemma HtlcClaims(c: Crypto, ctx: Context, sig: Bytes, key: Bytes, preimage: Bytes,
                   digest: Bytes, recipient: Bytes, refund: Bytes, locktime: u64)
    requires |sig| <= 0x4b && |key| <= 0x4b && |preimage| <= 0x4b
    requires |digest| == 32 && |recipient| == 20 && |refund| == 20
    ensures var unlock := Unlock(sig, key, PushOf(preimage, [OP_1]));
            Execute(c, unlock, HtlcScript(digest, recipient, refund, locktime), ctx) == Ok(true) <==>
              c.sha256(preimage) == digest && Signed(c, ctx, sig, key, recipient)
  {
    UnlockFits(sig, key, preimage, digest, recipient, refund, locktime);
    var unlock := Unlock(sig, key, PushOf(preimage, [OP_1]));
    var s := [sig, key, preimage, [1]];
    assert Truthy([1]) by { assert 1 in [1]; }
    assert Pop(s, 2) == [sig, key] && s[|s| - 2] == preimage;
    assert Claims(c, ctx, s, digest, recipient) <==>
             c.sha256(preimage) == digest && Signed(c, ctx, sig, key, recipient);
    hide Run, Signed, Claims, Execute, HtlcScript, Unlock, PushOf;
    ClaimStack(c, ctx, sig, key, preimage);
    HtlcUnlocks(c, ctx, unlock, digest, recipient, refund, locktime);
  }

  /** Pushing a signature and its key refunds it from its height on. */
  lemma HtlcRefunds(c: Crypto, ctx: Context, sig: Bytes, key: Bytes,
                    digest: Bytes, recipient: Bytes, refund: Bytes, locktime: u64)
    requires |sig| <= 0x4b && |key| <= 0x4b && |digest| == 32 && |recipient| == 20 && |refund| == 20
    ensures Execute(c, Unlock(sig, key, [OP_0]), HtlcScript(digest, recipient, refund, locktime), ctx) == Ok(true) <==>
              ctx.height >= locktime && Signed(c, ctx, sig, key, refund)
  {
    UnlockFits(sig, key, [], digest, recipient, refund, locktime);
    var unlock := Unlock(sig, key, [OP_0]);
    var s := [sig, key, []];
    assert Pop(s, 1) == [sig, key] && !Truthy([]);
    hide Run, Signed, Claims, Execute, HtlcScript, Unlock, PushOf;
    RefundStack(c, ctx, sig, key);
    HtlcUnlocks(c, ctx, unlock, digest, recipient, refund, locktime);
  }

  lemma UnlockFits(sig: Bytes, key: Bytes, preimage: Bytes, digest: Bytes, recipient: Bytes, refund: Bytes,
                   locktime: u64)
    requires |sig| <= 0x4b && |key| <= 0x4b && |preimage| <= 0x4b
    requires |digest| == 32 && |recipient| == 20 && |refund| == 20
    ensures var size := |HtlcScript(digest, recipient, refund, locktime)|;
            && |Unlock(sig, key, PushOf(preimage, [OP_1]))| + size <= MAX_SCRIPT_SIZE
            && |Unlock(sig, key, [OP_0])| + size <= MAX_SCRIPT_SIZE
  {
    LocktimeFits(locktime);
    hide EncodeLocktime;
  }

  lemma ClaimStack(c: Crypto, ctx: Context, sig: Bytes, key: Bytes, preimage: Bytes)
    requires |sig| <= 0x4b && |key| <= 0x4b && |preimage| <= 0x4b
    ensures Run(c, ctx, Unlock(sig, key, PushOf(preimage, [OP_1])), [], [], false) == Ok([sig, key, preimage, [1]])
  {
    PlainOps();
    assert Executing([]) && [OP_1] + [] == [OP_1];
    assert Operate(c, ctx, [sig, key] + [preimage], OP_1, false) == Ok([sig, key, preimage, [1]]) by {
      assert [sig, key] + [preimage] + [[1]] == [sig, key, preimage, [1]];
    }
    hide Run, PushOf, Executing, IsPlain, Operate, Unlock;
    UnlockPushes(c, ctx, sig, key, PushOf(preimage, [OP_1]));
    RunPush(c, ctx, preimage, [OP_1], [sig, key], [], false);
    RunOp(c, ctx, OP_1, [], [sig, key] + [preimage], [], false);
    RunNothing(c, ctx, [sig, key, preimage, [1]], false);
  }

  lemma RefundStack(c: Crypto, ctx: Context, sig: Bytes, key: Bytes)
    requires |sig| <= 0x4b && |key| <= 0x4b
    ensures Run(c, ctx, Unlock(sig, key, [OP_0]), [], [], false) == Ok([sig, key, []])
  {
    PlainOps();
    assert Executing([]) && [OP_0] + [] == [OP_0];
    assert Operate(c, ctx, [sig, key], OP_0, false) == Ok([sig, key, []]) by {
      assert [sig, key] + [[]] == [sig, key, []];
    }
    hide Run, PushOf, Executing, IsPlain, Operate, Unlock;
    UnlockPushes(c, ctx, sig, key, [OP_0]);
    RunOp(c, ctx, OP_0, [], [sig, key], [], false);
    RunNothing(c, ctx, [sig, key, []], false);
  }

  // ---- Addresses ------------------------------------------------------------

  /** The bech32 codec, uninterpreted. */
  datatype Bech32 = Bech32(decode: string -> Option<(string, Bytes)>, encode: (string, Bytes) -> Option<string>)

  const ADDRESS_HRP: string := "txm"
  const P2SH_HRP: string := "txms"

  function P2pkhFromAddress(b: Bech32, addr: string): Option<Script> {
    match b.decode(addr)
    case None => None
    case Some((hrp, hash)) => if hrp != ADDRESS_HRP || |hash| != 20 then None else Some(P2pkhScript(hash))
  }

  function ExtractAddress(b: Bech32, spk: Script): Option<string> {
    if IsP2sh(spk) then b.encode(P2SH_HRP, spk[2..22])
    else if |spk| == 25 && spk[0] == OP_DUP && spk[1] == OP_HASH160 && spk[2] == 0x14
            && spk[23] == OP_EQUALVERIFY && spk[24] == OP_CHECKSIG then b.encode(ADDRESS_HRP, spk[3..23])
    else None
  }

  /** The rest of the model, run on this machine and these scripts. */
  function Interpreted(w: World, c: Crypto, b: Bech32): World {
    w.(execute := (sig: Script, spk: Script, hash: Hash256, height: nat) =>
         Execute(c, sig, spk, Context(hash, height)) == Ok(true),
       p2pkh := (addr: string) => P2pkhFromAddress(b, addr),
       extractAddress := (spk: Script) => ExtractAddress(b, spk))
  }

  /** What the rest of the model assumes of scripts holds of them: acceptance is monotone in height, and pay-to-address
      scripts carry no data. */
  lemma InterpretedMeetsAssumptions(w: World, c: Crypto, b: Bech32)
    ensures Interpreted(w, c, b).ScriptsMonotone() && Interpreted(w, c, b).PayScriptsCarryNoData()
  {
    var v := Interpreted(w, c, b);
    hide Execute;
    forall sig, spk, h, x: nat, y: nat | x <= y && v.execute(sig, spk, h, x) ensures v.execute(sig, spk, h, y) {
      ExecuteMonotone(c, sig, spk, h, x, y);
    }
  }

  /** An address can be paid and read back exactly when it is the canonical encoding of the hash it decodes to. */
  lemma PayableIffCanonical(w: World, c: Crypto, b: Bech32, addr: string)
    ensures Interpreted(w, c, b).Payable(addr) <==>
              match b.decode(addr)
              case None => false
              case Some((hrp, hash)) => hrp == ADDRESS_HRP && |hash| == 20 && b.encode(ADDRESS_HRP, hash) == Some(addr)
  {
    hide Execute;
    match b.decode(addr)
    case None =>
    case Some((hrp, hash)) =>
      if |hash| == 20 { assert P2pkhScript(hash)[3..23] == hash; }
  }

  /** A codec that reads one address in either case, as bech32 does, and writes it in lower case. */
  function EitherCase(lower: string, upper: string, hash: Bytes): Bech32 {
    Bech32(addr => if addr == lower || addr == upper then Some((ADDRESS_HRP, hash)) else None,
           (hrp, data) => if hrp == ADDRESS_HRP && data == hash then Some(lower) else None)
  }

  const LOWER: string := "txm1px2nmtp087mz8dv3lplqadwzxawk0c5kg0mt24"
  const UPPER: string := "TXM1PX2NMTP087MZ8DV3LPLQADWZXAWK0C5KG0MT24"

  /** Under it the upper-case address is paid by the same script, which reads back as the lower-case one. */
  lemma UpperCaseUnpayable(w: World, c: Crypto, hash: Bytes)
    requires |hash| == 20
    ensures var v := Interpreted(w, c, EitherCase(LOWER, UPPER, hash));
            && v.p2pkh(UPPER) == v.p2pkh(LOWER) == Some(P2pkhScript(hash))
            && v.Payable(LOWER) && !v.Payable(UPPER)
  {
    var b := EitherCase(LOWER, UPPER, hash);
    assert LOWER[0] != UPPER[0];
    PayableIffCanonical(w, c, b, LOWER);
    PayableIffCanonical(w, c, b, UPPER);
    hide Execute, P2pkhScript;
  }
}
