/** Multi-signature locking scripts, bare and behind a script hash: exactly what opens them. */
module MultiSigs {
  import opened Prelude
  import opened Types
  import opened Codec
  import opened Scripts
  import opened StandardScripts

  const KEY_SIZE: nat := 33

  // ---- Layouts --------------------------------------------------------------

  /** Each item pushed with its length byte, in order. */
  function PushAll(items: seq<Bytes>, rest: Script): Script
    requires forall i :: i in items ==> |i| <= 0x4b
  {
    if items == [] then rest else PushOf(items[0], PushAll(items[1..], rest))
  }

  predicate KeyList(m: nat, keys: seq<Bytes>) { 1 <= m <= |keys| <= 16 && forall k :: k in keys ==> |k| == KEY_SIZE }

  /** `OP_m <key>... OP_n OP_CHECKMULTISIG`; the source refuses other counts and key lengths. */
  function MultiSigScript(m: nat, keys: seq<Bytes>): Result<Script, ScriptError> {
    if !KeyList(m, keys) then Err(InvalidKey)
    else Ok([0x50 + m] + PushAll(keys, [0x50 + |keys|] + ([OP_CHECKMULTISIG] + [])))
  }

  function P2shScript(hash20: Bytes): Script
    requires |hash20| == 20
  {
    [OP_HASH160, 0x14] + hash20 + [OP_EQUAL]
  }

  lemma {:induction false} PushAllSize(keys: seq<Bytes>, rest: Script)
    requires forall k :: k in keys ==> |k| == KEY_SIZE
    ensures |PushAll(keys, rest)| == 34 * |keys| + |rest|
  {
    if keys != [] { PushAllSize(keys[1..], rest); }
  }

  // ---- Running them ---------------------------------------------------------

  lemma {:induction false} RunPushAll(c: Crypto, ctx: Context, items: seq<Bytes>, rest: Script, s: Stack, sigs: bool)
    requires (forall i :: i in items ==> |i| <= 0x4b) && |s| <= MAX_STACK_DEPTH
    ensures Run(c, ctx, PushAll(items, rest), s, [], sigs) ==
              if |s| + |items| > MAX_STACK_DEPTH then Err(StackOverflow) else Run(c, ctx, rest, s + items, [], sigs)
    decreases |items|
  {
    assert Executing([]);
    hide Run, PushOf, Executing;
    if items == [] {
      assert s + items == s;
    } else {
      RunPush(c, ctx, items[0], PushAll(items[1..], rest), s, [], sigs);
      if |s| < MAX_STACK_DEPTH {
        RunPushAll(c, ctx, items[1..], rest, s + [items[0]], sigs);
        assert s + [items[0]] + items[1..] == s + items;
      }
    }
  }

  /** The count on top, the items it counts below it. */
  lemma TakesItems(s: Stack, items: seq<Bytes>, most: nat, op: u8)
    requires |items| <= most && |items| < 256
    ensures TakeItems(s + items + [[|items|]], most, op) == Ok((items, s))
  {
    var t := s + items + [[|items|]];
    assert Pop(t, 1) == s + items && Pop(s + items, |items|) == s;
  }

  /** What is left of a count `m` and the signatures below it. */
  lemma TakesSigs(s: Stack, m: nat, most: nat, op: u8)
    requires m <= most && m < 256
    ensures TakeItems(s + [[m]], most, op) ==
              if |s| < m then Err(StackUnderflow) else Ok((s[|s| - m..], Pop(s, m)))
  {
    assert Pop(s + [[m]], 1) == s;
  }

  lemma ChecksKeys(c: Crypto, ctx: Context, s: Stack, m: nat, keys: seq<Bytes>)
    requires 1 <= m <= |keys| <= 16 && |s| <= MAX_STACK_DEPTH
    ensures CheckMultiSig(c, ctx, s + [[m]] + keys + [[|keys|]], OP_CHECKMULTISIG) ==
              if |s| < m then Err(StackUnderflow)
              else Ok(Pop(s, m) + [Flag(Matched(c, ctx.sigHash, s[|s| - m..], keys))])
  {
    TakesItems(s + [[m]], keys, 16, OP_CHECKMULTISIG);
    TakesSigs(s, m, |keys|, OP_CHECKMULTISIG);
    hide TakeItems, Matched, Flag;
  }

  lemma CountOps(c: Crypto, ctx: Context, s: Stack, n: nat)
    requires 1 <= n <= 16
    ensures IsPlain(0x50 + n) && IsPlain(OP_CHECKMULTISIG)
    ensures Operate(c, ctx, s, 0x50 + n, true) == PushItem(s, [n])
    ensures Operate(c, ctx, s, OP_CHECKMULTISIG, true) == CheckMultiSig(c, ctx, s, OP_CHECKMULTISIG)
  {
    hide PushItem, CheckSig, CheckMultiSig, LockTime, Truthy, Flag;
  }

  /** Enough signatures lie on top, in an order in which later keys verify later ones; and the keys find room above. */
  ghost predicate Cosigned(c: Crypto, ctx: Context, s: Stack, m: nat, keys: seq<Bytes>) {
    m <= |s| <= MAX_STACK_DEPTH - 2 - |keys| && Assignable(c, ctx.sigHash, s[|s| - m..], keys)
  }

  /** Run from any stack, the script accepts exactly what is cosigned. */
  lemma MultiSigRuns(c: Crypto, ctx: Context, s: Stack, m: nat, keys: seq<Bytes>)
    requires KeyList(m, keys) && |s| <= MAX_STACK_DEPTH
    ensures Verdict(Run(c, ctx, MultiSigScript(m, keys).value, s, [], true)) == Ok(true) <==>
              Cosigned(c, ctx, s, m, keys)
  {
    var n := |keys|;
    var tail := [0x50 + n] + ([OP_CHECKMULTISIG] + []);
    assert Executing([]) && forall k :: k in keys ==> |k| <= 0x4b;
    assert MultiSigScript(m, keys) == Ok([0x50 + m] + PushAll(keys, tail));
    hide *;
    CountOps(c, ctx, s, m);
    RunOp(c, ctx, 0x50 + m, PushAll(keys, tail), s, [], true);
    FailsFalse();
    Pushes(s, [m]);
    if |s| < MAX_STACK_DEPTH {
      var s1 := s + [[m]];
      RunPushAll(c, ctx, keys, tail, s1, true);
      var s2 := s1 + keys;
      if |s1| + n <= MAX_STACK_DEPTH {
        CountOps(c, ctx, s2, n);
        RunOp(c, ctx, 0x50 + n, [OP_CHECKMULTISIG] + [], s2, [], true);
        Pushes(s2, [n]);
        if |s2| < MAX_STACK_DEPTH {
          var s3 := s2 + [[n]];
          CountOps(c, ctx, s3, n);
          RunOp(c, ctx, OP_CHECKMULTISIG, [], s3, [], true);
          ChecksKeys(c, ctx, s, m, keys);
          if m <= |s| { MultiSigVerdict(c, ctx, s, m, keys); }
        }
      }
    }
    CosignedIs(c, ctx, s, m, keys);
  }

  lemma CosignedIs(c: Crypto, ctx: Context, s: Stack, m: nat, keys: seq<Bytes>)
    ensures Cosigned(c, ctx, s, m, keys) <==>
              m <= |s| <= MAX_STACK_DEPTH - 2 - |keys| && Assignable(c, ctx.sigHash, s[|s| - m..], keys)
  {
    hide Assignable;
  }

  lemma Pushes(s: Stack, item: Bytes)
    ensures PushItem(s, item) == if |s| >= MAX_STACK_DEPTH then Err(StackOverflow) else Ok(s + [item])
  {
  }

  lemma MultiSigVerdict(c: Crypto, ctx: Context, s: Stack, m: nat, keys: seq<Bytes>)
    requires m <= |s|
    ensures var ok := Matched(c, ctx.sigHash, s[|s| - m..], keys);
            && (Verdict(Run(c, ctx, [], Pop(s, m) + [Flag(ok)], [], true)) == Ok(true) <==> ok)
            && (ok <==> Assignable(c, ctx.sigHash, s[|s| - m..], keys))
  {
    hide *;
    GreedyMatches(c, ctx.sigHash, s[|s| - m..], keys);
    var ok := Matched(c, ctx.sigHash, s[|s| - m..], keys);
    RunNothing(c, ctx, Pop(s, m) + [Flag(ok)], true);
    VerdictOfFlag(Pop(s, m), ok);
  }

  // ---- Who can spend --------------------------------------------------------

  lemma {:induction false} LeftFits(c: Crypto, ctx: Context, code: Script, s: Stack, ifs: seq<bool>, sigs: bool)
    requires |s| <= MAX_STACK_DEPTH && Run(c, ctx, code, s, ifs, sigs).Ok?
    ensures |Run(c, ctx, code, s, ifs, sigs).value| <= MAX_STACK_DEPTH
    decreases |code|
  {
    hide Operate, Truthy;
    if code != [] {
      match PushAt(code)
      case Some(Ok((data, n))) =>
        LeftFits(c, ctx, code[n..], if Executing(ifs) then s + [data] else s, ifs, sigs);
      case None =>
        var rest := code[1..];
        if code[0] == OP_IF {
          if !Executing(ifs) { LeftFits(c, ctx, rest, s, ifs + [false], sigs); }
          else { LeftFits(c, ctx, rest, Pop(s, 1), ifs + [Truthy(Top(s))], sigs); }
        } else if code[0] == OP_ELSE {
          LeftFits(c, ctx, rest, s, if ifs == [] then ifs else ifs[..|ifs| - 1] + [!ifs[|ifs| - 1]], sigs);
        } else if code[0] == OP_ENDIF {
          LeftFits(c, ctx, rest, s, if ifs == [] then ifs else ifs[..|ifs| - 1], sigs);
        } else if !Executing(ifs) {
          LeftFits(c, ctx, rest, s, ifs, sigs);
        } else {
          OperateFits(c, ctx, s, code[0], sigs);
          LeftFits(c, ctx, rest, Operate(c, ctx, s, code[0], sigs).value, ifs, sigs);
        }
    }
  }

  lemma OperateFits(c: Crypto, ctx: Context, s: Stack, op: u8, sigs: bool)
    requires |s| <= MAX_STACK_DEPTH && Operate(c, ctx, s, op, sigs).Ok?
    ensures |Operate(c, ctx, s, op, sigs).value| <= MAX_STACK_DEPTH
  {
    hide Matched, Truthy, LittleEndian;
  }

  /** An m-of-n output opens, to an unlocking script of any form, exactly when that leaves m signatures on top, each
      verified by a later key of the list than the one before. */
  lemma MultiSigUnlocks(c: Crypto, ctx: Context, unlock: Script, m: nat, keys: seq<Bytes>)
    requires KeyList(m, keys)
    ensures var spk := MultiSigScript(m, keys).value;
            var left := Left(c, ctx, unlock, |spk|);
            Execute(c, unlock, spk, ctx) == Ok(true) <==> left.Some? && Cosigned(c, ctx, left.value, m, keys)
  {
    var spk := MultiSigScript(m, keys).value;
    MultiSigSize(m, keys);
    hide *;
    ExecuteRuns(c, ctx, unlock, spk);
    var left := Left(c, ctx, unlock, |spk|);
    LeftIs(c, ctx, unlock, |spk|);
    if left.Some? {
      LeftFits(c, ctx, unlock, [], [], false);
      MultiSigRuns(c, ctx, left.value, m, keys);
    }
  }

  lemma LeftIs(c: Crypto, ctx: Context, unlock: Script, size: nat)
    ensures var left := Left(c, ctx, unlock, size);
            left.Some? ==> Run(c, ctx, unlock, [], [], false) == Ok(left.value)
    ensures 0 <= MAX_STACK_DEPTH && |unlock| + size <= MAX_SCRIPT_SIZE ==>
              (Left(c, ctx, unlock, size).Some? <==> Run(c, ctx, unlock, [], [], false).Ok?)
  {
    hide Run;
  }

  lemma MultiSigSize(m: nat, keys: seq<Bytes>)
    requires KeyList(m, keys)
    ensures MultiSigScript(m, keys).Ok? && |MultiSigScript(m, keys).value| == 3 + 34 * |keys|
    ensures |MultiSigScript(m, keys).value| != 23
  {
    PushAllSize(keys, [0x50 + |keys|] + ([OP_CHECKMULTISIG] + []));
  }

  /** A script-hash output opens exactly when the unlocking script leaves on top a script of that hash, and that script
      accepts the rest of the stack. */
  lemma P2shUnlocks(c: Crypto, ctx: Context, unlock: Script, hash20: Bytes)
    requires |hash20| == 20
    ensures var left := Left(c, ctx, unlock, 23);
            Execute(c, unlock, P2shScript(hash20), ctx) == Ok(true) <==>
              && left.Some? && left.value != [] && c.sha256(Top(left.value))[..20] == hash20
              && Verdict(Run(c, ctx, Top(left.value), Pop(left.value, 1), [], true)) == Ok(true)
  {
    var spk := P2shScript(hash20);
    assert IsP2sh(spk) && spk[2..22] == hash20;
    hide Run, Verdict, P2shScript, IsP2sh;
  }

  /** So when the unlocking script puts an m-of-n script on top, the output of that script's hash opens exactly when the
      signatures below satisfy it. */
  lemma P2shMultiSigUnlocks(c: Crypto, ctx: Context, unlock: Script, m: nat, keys: seq<Bytes>)
    requires KeyList(m, keys)
    requires var left := Left(c, ctx, unlock, 23);
             left.Some? && left.value != [] && Top(left.value) == MultiSigScript(m, keys).value
    ensures var redeem := MultiSigScript(m, keys).value;
            Execute(c, unlock, P2shScript(c.sha256(redeem)[..20]), ctx) == Ok(true) <==>
              Cosigned(c, ctx, Pop(Left(c, ctx, unlock, 23).value, 1), m, keys)
  {
    var redeem := MultiSigScript(m, keys).value;
    var left := Left(c, ctx, unlock, 23);
    hide MultiSigScript, Cosigned, Run, Left, Execute, Verdict, KeyList;
    P2shUnlocks(c, ctx, unlock, c.sha256(redeem)[..20]);
    LeftIs(c, ctx, unlock, 23);
    LeftFits(c, ctx, unlock, [], [], false);
    MultiSigRuns(c, ctx, Pop(left.value, 1), m, keys);
  }

  /** The redeem script pushed with its length, behind a marker byte from 76 bytes on; the source stops at 255. */
  function PushScript(redeem: Script): Script
    requires |redeem| <= 0xff
  {
    if |redeem| <= 0x4b then [|redeem|] + redeem else [OP_PUSHDATA1, |redeem|] + redeem
  }

  /** The unlocking script: the signatures, then the script they are for. */
  function P2shUnlock(sigs: seq<Bytes>, redeem: Script): Script
    requires |redeem| <= 0xff && forall s :: s in sigs ==> |s| <= 0x4b
  {
    PushAll(sigs, PushScript(redeem))
  }

  lemma RunPushScript(c: Crypto, ctx: Context, redeem: Script, s: Stack)
    requires |redeem| <= 0xff && redeem != []
    ensures Run(c, ctx, PushScript(redeem), s, [], false) ==
              if |s| >= MAX_STACK_DEPTH then Err(StackOverflow) else Ok(s + [redeem])
  {
    var code := PushScript(redeem);
    var from := if |redeem| <= 0x4b then 1 else 2;
    assert code[from..from + |redeem|] == redeem && code[from + |redeem|..] == [];
    assert Executing([]);
    hide Truthy, Operate;
    if |s| < MAX_STACK_DEPTH { RunNothing(c, ctx, s + [redeem], false); }
  }

  /** What such an unlocking script leaves. */
  lemma UnlockLeaves(c: Crypto, ctx: Context, sigs: seq<Bytes>, redeem: Script)
    requires 0 < |redeem| <= 0xff && |sigs| < MAX_STACK_DEPTH && forall s :: s in sigs ==> |s| <= 0x4b
    ensures |P2shUnlock(sigs, redeem)| <= 76 * |sigs| + 257
    ensures Left(c, ctx, P2shUnlock(sigs, redeem), 23) == Some(sigs + [redeem])
  {
    PushAllBound(sigs, PushScript(redeem));
    RunPushAll(c, ctx, sigs, PushScript(redeem), [], false);
    assert [] + sigs == sigs;
    RunPushScript(c, ctx, redeem, sigs);
    hide Run, PushAll;
  }

  lemma {:induction false} PushAllBound(items: seq<Bytes>, rest: Script)
    requires forall i :: i in items ==> |i| <= 0x4b
    ensures |PushAll(items, rest)| <= 76 * |items| + |rest|
  {
    if items != [] { PushAllBound(items[1..], rest); }
  }

  /** Signatures and the m-of-n script itself open the output of its hash exactly when the last m of them satisfy it. */
  lemma P2shMultiSigOpens(c: Crypto, ctx: Context, sigs: seq<Bytes>, m: nat, keys: seq<Bytes>)
    requires KeyList(m, keys) && |MultiSigScript(m, keys).value| <= 0xff
    requires |sigs| <= MAX_STACK_DEPTH - 2 - |keys| && forall s :: s in sigs ==> |s| <= 0x4b
    ensures var redeem := MultiSigScript(m, keys).value;
            Execute(c, P2shUnlock(sigs, redeem), P2shScript(c.sha256(redeem)[..20]), ctx) == Ok(true) <==>
              m <= |sigs| && Assignable(c, ctx.sigHash, sigs[|sigs| - m..], keys)
  {
    var redeem := MultiSigScript(m, keys).value;
    MultiSigSize(m, keys);
    hide *;
    UnlockLeaves(c, ctx, sigs, redeem);
    TopOf(sigs, redeem);
    P2shMultiSigUnlocks(c, ctx, P2shUnlock(sigs, redeem), m, keys);
    CosignedIs(c, ctx, sigs, m, keys);
  }

  lemma TopOf(s: Stack, item: Bytes)
    ensures s + [item] != [] && Top(s + [item]) == item && Pop(s + [item], 1) == s
  {
  }
}
