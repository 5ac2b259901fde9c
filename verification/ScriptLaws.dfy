/** Laws of the script machine beyond the standard scripts: single operations, long pushes, and what a branch not taken
    does. */
module ScriptLaws {
  import opened Prelude
  import opened Types
  import opened Codec
  import opened Scripts
  import opened StandardScripts

  // ---- Operations -----------------------------------------------------------

  /** The outcome of two operations in turn. */
  function Twice(c: Crypto, ctx: Context, s: Stack, a: u8, b: u8): Outcome {
    var r := Operate(c, ctx, s, a, true);
    if r.Err? then r else Operate(c, ctx, r.value, b, true)
  }

  /** Swapping twice changes nothing, dropping twice is dropping two, and what is duplicated can be dropped again. */
  lemma StackLaws(c: Crypto, ctx: Context, s: Stack)
    requires |s| >= 2
    ensures Operate(c, ctx, s, OP_SWAP, true) == Ok(Pop(s, 2) + [Top(s)] + [Top(Pop(s, 1))])
    ensures Twice(c, ctx, s, OP_SWAP, OP_SWAP) == Ok(s)
    ensures Twice(c, ctx, s, OP_DROP, OP_DROP) == Operate(c, ctx, s, OP_2DROP, true) == Ok(Pop(s, 2))
    ensures |s| < MAX_STACK_DEPTH ==> Twice(c, ctx, s, OP_DUP, OP_DROP) == Ok(s)
  {
    StackOps(c, ctx, s);
    var t := Pop(s, 2) + [s[|s| - 1], s[|s| - 2]];
    StackOps(c, ctx, t);
    StackOps(c, ctx, Pop(s, 1));
    StackOps(c, ctx, s + [Top(s)]);
    hide Operate;
    assert t == Pop(s, 2) + [Top(s)] + [Top(Pop(s, 1))];
    assert Pop(t, 2) == Pop(s, 2) && Pop(s, 2) + [s[|s| - 2], s[|s| - 1]] == s;
    assert Pop(Pop(s, 1), 1) == Pop(s, 2) && Pop(s + [Top(s)], 1) == s;
  }

  lemma StackOps(c: Crypto, ctx: Context, s: Stack)
    requires s != []
    ensures Operate(c, ctx, s, OP_DROP, true) == Ok(Pop(s, 1))
    ensures Operate(c, ctx, s, OP_DUP, true) == PushItem(s, Top(s))
    ensures |s| >= 2 ==> Operate(c, ctx, s, OP_2DROP, true) == Ok(Pop(s, 2))
    ensures |s| >= 2 ==> Operate(c, ctx, s, OP_SWAP, true) == Ok(Pop(s, 2) + [s[|s| - 1], s[|s| - 2]])
  {
    hide PushItem, CheckSig, LockTime, CheckMultiSig, Truthy, Flag;
  }

  lemma CheckOps(c: Crypto, ctx: Context, s: Stack)
    ensures Operate(c, ctx, s, OP_EQUAL, true) ==
              if |s| < 2 then Err(StackUnderflow) else Ok(Pop(s, 2) + [Flag(s[|s| - 2] == s[|s| - 1])])
    ensures Operate(c, ctx, s, OP_EQUALVERIFY, true) ==
              if |s| < 2 then Err(StackUnderflow) else if s[|s| - 2] != s[|s| - 1] then Err(VerifyFailed)
              else Ok(Pop(s, 2))
    ensures Operate(c, ctx, s, OP_VERIFY, true) ==
              if s == [] then Err(StackUnderflow) else if !Truthy(Top(s)) then Err(VerifyFailed) else Ok(Pop(s, 1))
    ensures Operate(c, ctx, s, OP_CHECKMULTISIG, true) == CheckMultiSig(c, ctx, s, OP_CHECKMULTISIG)
    ensures Operate(c, ctx, s, OP_CHECKMULTISIGVERIFY, true) == CheckMultiSig(c, ctx, s, OP_CHECKMULTISIGVERIFY)
  {
    hide PushItem, CheckSig, LockTime, CheckMultiSig, Truthy, Flag;
  }

  /** The verifying forms are the plain ones followed by a check: for equality to the same outcome, and for signatures
      succeeding together. */
  lemma VerifyLaws(c: Crypto, ctx: Context, s: Stack)
    ensures Twice(c, ctx, s, OP_EQUAL, OP_VERIFY) == Operate(c, ctx, s, OP_EQUALVERIFY, true)
    ensures |s| <= MAX_STACK_DEPTH ==>
              Twice(c, ctx, s, OP_CHECKMULTISIG, OP_VERIFY).Ok?
                == Operate(c, ctx, s, OP_CHECKMULTISIGVERIFY, true).Ok?
  {
    CheckOps(c, ctx, s);
    TruthOfFlags();
    VerifyingForm(c, ctx, s);
    hide Operate, CheckMultiSig, Truthy;
    if |s| >= 2 {
      var t := Pop(s, 2) + [Flag(s[|s| - 2] == s[|s| - 1])];
      CheckOps(c, ctx, t);
      assert Pop(t, 1) == Pop(s, 2);
    }
    var r := CheckMultiSig(c, ctx, s, OP_CHECKMULTISIG);
    if r.Ok? { CheckOps(c, ctx, r.value); }
  }

  lemma TruthOfFlags()
    ensures !Truthy(Flag(false)) && Truthy(Flag(true))
  {
    assert 1 in [1];
  }

  lemma VerifyingForm(c: Crypto, ctx: Context, s: Stack)
    ensures |s| <= MAX_STACK_DEPTH ==>
              var plain := CheckMultiSig(c, ctx, s, OP_CHECKMULTISIG);
              CheckMultiSig(c, ctx, s, OP_CHECKMULTISIGVERIFY).Ok?
                == (plain.Ok? && plain.value != [] && Truthy(Top(plain.value)))
  {
    TruthOfFlags();
    TakenShorter(s, 16);
    var r := TakeItems(s, 16, OP_CHECKMULTISIG);
    if r.Ok? {
      TakenShorter(r.value.1, |r.value.0|);
      var r2 := TakeItems(r.value.1, |r.value.0|, OP_CHECKMULTISIG);
      if r2.Ok? {
        var t := r2.value.1 + [Flag(Matched(c, ctx.sigHash, r2.value.0, r.value.0))];
        assert Top(t) == Flag(Matched(c, ctx.sigHash, r2.value.0, r.value.0));
      }
    }
    hide Matched, TakeItems, Truthy;
  }

  lemma TakenShorter(s: Stack, most: nat)
    ensures var a, b := TakeItems(s, most, OP_CHECKMULTISIG), TakeItems(s, most, OP_CHECKMULTISIGVERIFY);
            && (a.Ok? <==> b.Ok?) && (a.Ok? ==> a.value == b.value && |a.value.1| < |s|)
  {
  }

  // ---- Branches not taken ----------------------------------------------------

  /** Complete pushes, single operations and nested conditionals without an alternative, `depth` of them still open. */
  predicate SkipsWhole(code: Script, depth: nat)
    decreases |code|
  {
    if code == [] then depth == 0
    else match PushAt(code)
      case Some(Err(_)) => false
      case Some(Ok((_, n))) => SkipsWhole(code[n..], depth)
      case None =>
        if code[0] == OP_IF then SkipsWhole(code[1..], depth + 1)
        else if code[0] == OP_ELSE then false
        else if code[0] == OP_ENDIF then depth > 0 && SkipsWhole(code[1..], depth - 1)
        else SkipsWhole(code[1..], depth)
  }

  function Nested(ifs: seq<bool>, depth: nat): seq<bool> {
    if depth == 0 then ifs else Nested(ifs, depth - 1) + [false]
  }

  lemma NestedStays(ifs: seq<bool>, depth: nat)
    requires !Executing(ifs)
    ensures !Executing(Nested(ifs, depth)) && Nested(ifs, depth) != []
    ensures depth > 0 ==> Nested(ifs, depth)[..|Nested(ifs, depth)| - 1] == Nested(ifs, depth - 1)
  {
  }

  lemma PushStays(code: Script, rest: Script)
    requires code != []
    ensures PushAt(code).None? ==> PushAt(code + rest).None?
    ensures PushAt(code).Some? && PushAt(code).value.Ok? ==>
              PushAt(code + rest) == PushAt(code) && 0 < PushAt(code).value.value.1 <= |code|
              && (code + rest)[PushAt(code).value.value.1..] == code[PushAt(code).value.value.1..] + rest
    ensures (code + rest)[1..] == code[1..] + rest
  {
    var p := PushAt(code);
    if p.Some? && p.value.Ok? {
      var (data, n) := p.value.value;
      assert (code + rest)[n - |data|..n] == code[n - |data|..n];
    }
  }

  /** In a branch not taken such code has no effect, whatever it holds. */
  lemma {:induction false} SkippedWhole(c: Crypto, ctx: Context, code: Script, rest: Script, s: Stack, ifs: seq<bool>,
                                        depth: nat, sigs: bool)
    requires !Executing(ifs) && SkipsWhole(code, depth)
    ensures Run(c, ctx, code + rest, s, Nested(ifs, depth), sigs) == Run(c, ctx, rest, s, ifs, sigs)
    decreases |code|
  {
    NestedStays(ifs, depth);
    if code == [] {
      assert code + rest == rest;
    } else {
      PushStays(code, rest);
      hide Operate, Truthy, PushAt, Executing;
      if PushAt(code).Some? {
        SkippedWhole(c, ctx, code[PushAt(code).value.value.1..], rest, s, ifs, depth, sigs);
      } else if code[0] == OP_IF {
        SkippedWhole(c, ctx, code[1..], rest, s, ifs, depth + 1, sigs);
      } else if code[0] == OP_ENDIF {
        SkippedWhole(c, ctx, code[1..], rest, s, ifs, depth - 1, sigs);
      } else {
        SkippedWhole(c, ctx, code[1..], rest, s, ifs, depth, sigs);
      }
    }
  }

  /** But the alternative of a conditional nested in a branch not taken is run: only the innermost condition counts. */
  lemma NestedElseRuns(c: Crypto, ctx: Context, item: Bytes, s: Stack, sigs: bool)
    requires |item| <= 0x4b && |s| < MAX_STACK_DEPTH
    ensures var inner := [OP_IF] + ([OP_ELSE] + PushOf(item, [OP_ENDIF] + []));
            Run(c, ctx, [OP_0] + ([OP_IF] + (inner + ([OP_ENDIF] + []))), s, [], sigs) == Ok(s + [item])
  {
    var tail := [OP_ENDIF] + [];
    var inner := [OP_IF] + ([OP_ELSE] + PushOf(item, [OP_ENDIF] + []));
    assert inner + tail == [OP_IF] + ([OP_ELSE] + PushOf(item, [OP_ENDIF] + tail));
    assert Executing([]) && !Truthy([]);
    assert Operate(c, ctx, s, OP_0, sigs) == PushItem(s, []) by { PushesEmpty(c, ctx, s, sigs); }
    PlainOps();
    assert Pop(s + [[]], 1) == s && Top(s + [[]]) == [];
    hide Run, Operate, Truthy, PushOf, IsPlain;
    RunOp(c, ctx, OP_0, [OP_IF] + (inner + tail), s, [], sigs);
    RunBranch(c, ctx, inner + tail, s + [[]], false, sigs);
    NestedConditional(c, ctx, item, tail, s, sigs);
    RunBranch(c, ctx, [], s + [item], false, sigs);
    RunNothing(c, ctx, s + [item], sigs);
  }

  lemma PushesEmpty(c: Crypto, ctx: Context, s: Stack, sigs: bool)
    ensures Operate(c, ctx, s, OP_0, sigs) == PushItem(s, [])
  {
    hide PushItem, CheckSig, CheckMultiSig, LockTime, Truthy, Flag;
  }

  /** Inside a branch not taken. */
  lemma NestedConditional(c: Crypto, ctx: Context, item: Bytes, tail: Script, s: Stack, sigs: bool)
    requires |item| <= 0x4b && |s| < MAX_STACK_DEPTH
    ensures Run(c, ctx, [OP_IF] + ([OP_ELSE] + PushOf(item, [OP_ENDIF] + tail)), s, [false], sigs)
         == Run(c, ctx, tail, s + [item], [false], sigs)
  {
    var a, b := PushOf(item, [OP_ENDIF] + tail), [OP_ENDIF] + tail;
    assert ([OP_IF] + ([OP_ELSE] + a))[1..] == [OP_ELSE] + a && ([OP_ELSE] + a)[1..] == a && b[1..] == tail;
    assert [false] + [false] == [false, false] && [false, false][..1] + [true] == [false, true];
    assert [false, true][..1] == [false] && Executing([false, true]) && !Executing([false]);
    hide Operate, Truthy, PushOf;
    RunPush(c, ctx, item, b, s, [false, true], sigs);
  }
}
