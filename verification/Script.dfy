/** The script machine behind every payment. */
module Scripts {
  import opened Prelude
  import opened Types
  import opened Codec

  const OP_0: u8 := 0x00
  const OP_PUSHDATA1: u8 := 0x4c
  const OP_IF: u8 := 0x63
  const OP_ELSE: u8 := 0x67
  const OP_ENDIF: u8 := 0x68
  const OP_VERIFY: u8 := 0x69
  const OP_2DROP: u8 := 0x6f
  const OP_DROP: u8 := 0x75
  const OP_DUP: u8 := 0x76
  const OP_SWAP: u8 := 0x7c
  const OP_EQUAL: u8 := 0x87
  const OP_EQUALVERIFY: u8 := 0x88
  const OP_SHA256: u8 := 0xa8
  const OP_HASH160: u8 := 0xa9
  const OP_CHECKSIG: u8 := 0xac
  const OP_CHECKMULTISIG: u8 := 0xae
  const OP_CHECKMULTISIGVERIFY: u8 := 0xaf
  const OP_CHECKLOCKTIMEVERIFY: u8 := 0xb1

  const MAX_STACK_DEPTH: nat := 100
  const MAX_SCRIPT_SIZE: nat := 10_000
  const MAX_ELEMENT_SIZE: nat := 520

  datatype ScriptError =
    | StackOverflow | StackUnderflow | ScriptTooLarge | ElementTooLarge | InvalidOpcode(op: u8)
    | InvalidSignature | InvalidKey
    | VerifyFailed | UnexpectedEndOfScript | ScriptInSigContainsChecksig | LockTimeNotMet | P2shHashMismatch

  /** The top of the stack is its last item. */
  type Stack = seq<Bytes>
  type Outcome = Result<Stack, ScriptError>

  type Digest = b: Bytes | |b| == 32 witness seq(32, _ => 0)

  /** Hashing and signatures, uninterpreted. */
  datatype Crypto = Crypto(sha256: Bytes -> Digest, isKey: Bytes -> bool, isSig: Bytes -> bool,
                           verifies: (Bytes, Bytes, Hash256) -> bool)

  datatype Context = Context(sigHash: Hash256, height: nat)

  predicate Truthy(item: Bytes) { exists b :: b in item && b != 0 }

  function Flag(b: bool): Bytes { if b then [1] else [] }

  function Top(s: Stack): Bytes requires s != [] { s[|s| - 1] }

  function Pop(s: Stack, n: nat): Stack requires n <= |s| { s[..|s| - n] }

  function PushItem(s: Stack, item: Bytes): Outcome {
    if |s| >= MAX_STACK_DEPTH then Err(StackOverflow) else Ok(s + [item])
  }

  // ---- Signatures -----------------------------------------------------------

  predicate Good(c: Crypto, key: Bytes, sig: Bytes, hash: Hash256) { c.isKey(key) && c.verifies(key, sig, hash) }

  /** Signatures claimed in order, each by the first remaining key that verifies it. */
  predicate Matched(c: Crypto, hash: Hash256, sigs: seq<Bytes>, keys: seq<Bytes>) {
    if sigs == [] then true
    else if !c.isSig(sigs[0]) || keys == [] then false
    else if Good(c, keys[0], sigs[0], hash) then Matched(c, hash, sigs[1..], keys[1..])
    else Matched(c, hash, sigs, keys[1..])
  }

  function CheckSig(c: Crypto, ctx: Context, s: Stack): Outcome {
    if |s| < 2 then Err(StackUnderflow)
    else
      var key, sig := s[|s| - 1], s[|s| - 2];
      if !c.isKey(key) then Err(InvalidKey)
      else if !c.isSig(sig) then Err(ScriptError.InvalidSignature)
      else Ok(Pop(s, 2) + [Flag(c.verifies(key, sig, ctx.sigHash))])
  }

  /** Takes a count and that many items below it, in script order. */
  function TakeItems(s: Stack, most: nat, op: u8): Result<(seq<Bytes>, Stack), ScriptError> {
    if s == [] then Err(StackUnderflow)
    else if Top(s) == [] || Top(s)[0] > most then Err(InvalidOpcode(op))
    else
      var n, below := Top(s)[0], Pop(s, 1);
      if |below| < n then Err(StackUnderflow) else Ok((below[|below| - n..], Pop(below, n)))
  }

  function CheckMultiSig(c: Crypto, ctx: Context, s: Stack, op: u8): Outcome {
    match TakeItems(s, 16, op)
    case Err(e) => Err(e)
    case Ok((keys, s1)) =>
      match TakeItems(s1, |keys|, op)
      case Err(e) => Err(e)
      case Ok((sigs, s2)) =>
        var ok := Matched(c, ctx.sigHash, sigs, keys);
        if op == OP_CHECKMULTISIGVERIFY then if ok then Ok(s2) else Err(VerifyFailed)
        else PushItem(s2, Flag(ok))
  }

  // ---- The machine ----------------------------------------------------------

  function LittleEndian(b: Bytes): nat { if b == [] then 0 else b[0] + 256 * LittleEndian(b[1..]) }

  function LockTime(c: Context, s: Stack): Outcome {
    if s == [] then Err(StackUnderflow)
    else if |Top(s)| > 8 || c.height < LittleEndian(Top(s)) then Err(LockTimeNotMet)
    else Ok(s)
  }

  /** One operation other than a data push or flow control. */
  function Operate(c: Crypto, ctx: Context, s: Stack, op: u8, allowSigs: bool): Outcome {
    if op == OP_RETURN then Err(VerifyFailed)
    else if op == OP_DUP then if s == [] then Err(StackUnderflow) else PushItem(s, Top(s))
    else if op == OP_DROP then if s == [] then Err(StackUnderflow) else Ok(Pop(s, 1))
    else if op == OP_2DROP then if |s| < 2 then Err(StackUnderflow) else Ok(Pop(s, 2))
    else if op == OP_SWAP then if |s| < 2 then Err(StackUnderflow) else Ok(Pop(s, 2) + [s[|s| - 1], s[|s| - 2]])
    else if op == OP_SHA256 then if s == [] then Err(StackUnderflow) else Ok(Pop(s, 1) + [c.sha256(Top(s))])
    else if op == OP_HASH160 then if s == [] then Err(StackUnderflow) else Ok(Pop(s, 1) + [c.sha256(Top(s))[..20]])
    else if op == OP_CHECKSIG then if !allowSigs then Err(ScriptInSigContainsChecksig) else CheckSig(c, ctx, s)
    else if op == OP_EQUAL then
      if |s| < 2 then Err(StackUnderflow) else Ok(Pop(s, 2) + [Flag(s[|s| - 2] == s[|s| - 1])])
    else if op == OP_EQUALVERIFY then
      if |s| < 2 then Err(StackUnderflow) else if s[|s| - 2] != s[|s| - 1] then Err(VerifyFailed) else Ok(Pop(s, 2))
    else if op == OP_VERIFY then
      if s == [] then Err(StackUnderflow) else if !Truthy(Top(s)) then Err(VerifyFailed) else Ok(Pop(s, 1))
    else if 0x51 <= op <= 0x60 then PushItem(s, [op - 0x50])
    else if op == OP_CHECKMULTISIG || op == OP_CHECKMULTISIGVERIFY then
      if !allowSigs then Err(ScriptInSigContainsChecksig) else CheckMultiSig(c, ctx, s, op)
    else if op == OP_0 then PushItem(s, [])
    else if op == OP_CHECKLOCKTIMEVERIFY then LockTime(ctx, s)
    else Err(InvalidOpcode(op))
  }

  /** The data pushed by the instruction at the front of `code`, and the instruction's length; nothing if it is none. */
  function PushAt(code: Script): Option<Result<(Bytes, nat), ScriptError>>
    requires code != []
  {
    if 0x01 <= code[0] <= 0x4b then Some(PushFrom(code, 1, code[0]))
    else if code[0] == OP_PUSHDATA1 then
      Some(if |code| < 2 then Err(UnexpectedEndOfScript) else PushFrom(code, 2, code[1]))
    else None
  }

  function PushFrom(code: Script, from: nat, n: nat): Result<(Bytes, nat), ScriptError> {
    if from + n > |code| then Err(UnexpectedEndOfScript) else Ok((code[from..from + n], from + n))
  }

  predicate Executing(ifs: seq<bool>) { ifs == [] || ifs[|ifs| - 1] }

  /** Runs the rest of a script from a stack, inside the given nesting of conditionals. */
  function Run(c: Crypto, ctx: Context, code: Script, s: Stack, ifs: seq<bool>, allowSigs: bool): Outcome
    decreases |code|
  {
    if code == [] then Ok(s)
    else match PushAt(code)
      case Some(Err(e)) => Err(e)
      case Some(Ok((data, n))) =>
        if !Executing(ifs) then Run(c, ctx, code[n..], s, ifs, allowSigs)
        else if |data| > MAX_ELEMENT_SIZE then Err(ElementTooLarge)
        else
          (match PushItem(s, data)
           case Err(e) => Err(e)
           case Ok(s') => Run(c, ctx, code[n..], s', ifs, allowSigs))
      case None =>
        var rest := code[1..];
        if code[0] == OP_IF then
          if !Executing(ifs) then Run(c, ctx, rest, s, ifs + [false], allowSigs)
          else if s == [] then Err(StackUnderflow)
          else Run(c, ctx, rest, Pop(s, 1), ifs + [Truthy(Top(s))], allowSigs)
        else if code[0] == OP_ELSE then
          Run(c, ctx, rest, s, if ifs == [] then ifs else ifs[..|ifs| - 1] + [!ifs[|ifs| - 1]], allowSigs)
        else if code[0] == OP_ENDIF then
          Run(c, ctx, rest, s, if ifs == [] then ifs else ifs[..|ifs| - 1], allowSigs)
        else if !Executing(ifs) then Run(c, ctx, rest, s, ifs, allowSigs)
        else
          match Operate(c, ctx, s, code[0], allowSigs)
          case Err(e) => Err(e)
          case Ok(s') => Run(c, ctx, rest, s', ifs, allowSigs)
  }

  predicate IsP2sh(spk: Script) { |spk| == 23 && spk[0] == OP_HASH160 && spk[1] == 0x14 && spk[22] == OP_EQUAL }

  /** The unlocking script, then the locking script (or the script it is the hash of), on one stack. */
  function Execute(c: Crypto, sig: Script, spk: Script, ctx: Context): Result<bool, ScriptError> {
    if |sig| + |spk| > MAX_SCRIPT_SIZE then Err(ScriptTooLarge)
    else match Run(c, ctx, sig, [], [], false)
         case Err(e) => Err(e)
         case Ok(s) =>
           if IsP2sh(spk) then
             if s == [] then Err(StackUnderflow)
             else if c.sha256(Top(s))[..20] != spk[2..22] then Err(P2shHashMismatch)
             else Verdict(Run(c, ctx, Top(s), Pop(s, 1), [], true))
           else Verdict(Run(c, ctx, spk, s, [], true))
  }

  function Verdict(r: Outcome): Result<bool, ScriptError> {
    match r
    case Err(e) => Err(e)
    case Ok(s) => Ok(s != [] && Truthy(Top(s)))
  }

  // ---- Height only ever helps -----------------------------------------------

  lemma OperateMonotone(c: Crypto, hash: Hash256, s: Stack, op: u8, allowSigs: bool, a: nat, b: nat)
    requires a <= b && Operate(c, Context(hash, a), s, op, allowSigs).Ok?
    ensures Operate(c, Context(hash, b), s, op, allowSigs) == Operate(c, Context(hash, a), s, op, allowSigs)
  {
    hide Matched, TakeItems, Truthy, PushItem, LittleEndian;
  }

  /** A script that runs through at one height runs through at every later one, to the same stack. */
  lemma {:induction false} RunMonotone(c: Crypto, hash: Hash256, code: Script, s: Stack, ifs: seq<bool>,
                                       allowSigs: bool, a: nat, b: nat)
    requires a <= b && Run(c, Context(hash, a), code, s, ifs, allowSigs).Ok?
    ensures Run(c, Context(hash, b), code, s, ifs, allowSigs) == Run(c, Context(hash, a), code, s, ifs, allowSigs)
    decreases |code|
  {
    hide Operate, Truthy;
    if code != [] {
      match PushAt(code)
      case Some(Ok((data, n))) =>
        if !Executing(ifs) {
          RunMonotone(c, hash, code[n..], s, ifs, allowSigs, a, b);
        } else {
          RunMonotone(c, hash, code[n..], s + [data], ifs, allowSigs, a, b);
        }
      case None =>
        var rest := code[1..];
        if code[0] == OP_IF {
          if !Executing(ifs) {
            RunMonotone(c, hash, rest, s, ifs + [false], allowSigs, a, b);
          } else {
            RunMonotone(c, hash, rest, Pop(s, 1), ifs + [Truthy(Top(s))], allowSigs, a, b);
          }
        } else if code[0] == OP_ELSE {
          var flipped := if ifs == [] then ifs else ifs[..|ifs| - 1] + [!ifs[|ifs| - 1]];
          RunMonotone(c, hash, rest, s, flipped, allowSigs, a, b);
        } else if code[0] == OP_ENDIF {
          RunMonotone(c, hash, rest, s, if ifs == [] then ifs else ifs[..|ifs| - 1], allowSigs, a, b);
        } else if !Executing(ifs) {
          RunMonotone(c, hash, rest, s, ifs, allowSigs, a, b);
        } else {
          OperateMonotone(c, hash, s, code[0], allowSigs, a, b);
          RunMonotone(c, hash, rest, Operate(c, Context(hash, a), s, code[0], allowSigs).value, ifs, allowSigs, a, b);
        }
    }
  }

  lemma ExecuteMonotone(c: Crypto, sig: Script, spk: Script, hash: Hash256, a: nat, b: nat)
    requires a <= b && Execute(c, sig, spk, Context(hash, a)).Ok?
    ensures Execute(c, sig, spk, Context(hash, b)) == Execute(c, sig, spk, Context(hash, a))
  {
    hide Run;
    RunMonotone(c, hash, sig, [], [], false, a, b);
    var s := Run(c, Context(hash, a), sig, [], [], false).value;
    if IsP2sh(spk) {
      RunMonotone(c, hash, Top(s), Pop(s, 1), [], true, a, b);
    } else {
      RunMonotone(c, hash, spk, s, [], true, a, b);
    }
  }

  // ---- Multi-signature matching ---------------------------------------------

  /** Each signature, in order, assigned a later key than the one before. */
  ghost predicate Assignment(c: Crypto, hash: Hash256, sigs: seq<Bytes>, keys: seq<Bytes>, at: seq<nat>) {
    && |at| == |sigs|
    && (forall i, j :: 0 <= i < j < |at| ==> at[i] < at[j])
    && (forall i :: 0 <= i < |at| ==> at[i] < |keys| && c.isSig(sigs[i]) && Good(c, keys[at[i]], sigs[i], hash))
  }

  /** An assignment survives dropping a first key it does not use. */
  lemma AssignmentSkips(c: Crypto, hash: Hash256, sigs: seq<Bytes>, keys: seq<Bytes>, at: seq<nat>)
    requires keys != [] && Assignment(c, hash, sigs, keys, at) && (at == [] || at[0] > 0)
    ensures Assignment(c, hash, sigs, keys[1..], Shift(at))
  {
    hide Good;
  }

  /** And one that uses it can give it up together with the first signature. */
  lemma AssignmentDrops(c: Crypto, hash: Hash256, sigs: seq<Bytes>, keys: seq<Bytes>, at: seq<nat>)
    requires sigs != [] && Assignment(c, hash, sigs, keys, at)
    ensures keys != [] && Assignment(c, hash, sigs[1..], keys[1..], Shift(at[1..]))
  {
    hide Good;
    assert at[0] < |keys|;
    forall i | 0 <= i < |at| - 1 ensures at[1..][i] > 0 && sigs[1..][i] == sigs[i + 1] {
      assert at[0] < at[i + 1];
    }
  }

  lemma AssignmentRaises(c: Crypto, hash: Hash256, sigs: seq<Bytes>, keys: seq<Bytes>, at: seq<nat>)
    requires keys != [] && Assignment(c, hash, sigs, keys[1..], at)
    ensures Assignment(c, hash, sigs, keys, Raise(at))
  {
    hide Good;
  }

  lemma AssignmentPrepends(c: Crypto, hash: Hash256, sigs: seq<Bytes>, keys: seq<Bytes>, at: seq<nat>)
    requires sigs != [] && keys != [] && c.isSig(sigs[0]) && Good(c, keys[0], sigs[0], hash)
    requires Assignment(c, hash, sigs[1..], keys[1..], at)
    ensures Assignment(c, hash, sigs, keys, [0] + Raise(at))
  {
    hide Good;
    var whole := [0] + Raise(at);
    forall i | 0 <= i < |whole|
      ensures whole[i] < |keys| && c.isSig(sigs[i]) && Good(c, keys[whole[i]], sigs[i], hash)
    {
      if i > 0 { assert sigs[1..][i - 1] == sigs[i] && keys[1..][at[i - 1]] == keys[whole[i]]; }
    }
  }

  lemma FirstAssigned(c: Crypto, hash: Hash256, sigs: seq<Bytes>, keys: seq<Bytes>, at: seq<nat>)
    requires sigs != [] && Assignment(c, hash, sigs, keys, at)
    ensures at != [] && at[0] < |keys| && c.isSig(sigs[0]) && Good(c, keys[at[0]], sigs[0], hash)
  {
  }

  ghost predicate Assignable(c: Crypto, hash: Hash256, sigs: seq<Bytes>, keys: seq<Bytes>) {
    exists at :: Assignment(c, hash, sigs, keys, at)
  }

  /** Claiming the first key that fits finds an order-preserving assignment whenever there is one. */
  lemma {:induction false} GreedyMatches(c: Crypto, hash: Hash256, sigs: seq<Bytes>, keys: seq<Bytes>)
    ensures Matched(c, hash, sigs, keys) <==> Assignable(c, hash, sigs, keys)
    decreases |keys|
  {
    if sigs == [] {
      assert Assignment(c, hash, sigs, keys, []);
    } else if !c.isSig(sigs[0]) || keys == [] {
      forall at ensures !Assignment(c, hash, sigs, keys, at) {
        if Assignment(c, hash, sigs, keys, at) { FirstAssigned(c, hash, sigs, keys, at); }
      }
    } else if Good(c, keys[0], sigs[0], hash) {
      hide Assignment, Good;
      GreedyMatches(c, hash, sigs[1..], keys[1..]);
      if at :| Assignment(c, hash, sigs, keys, at) { AssignmentDrops(c, hash, sigs, keys, at); }
      if at :| Assignment(c, hash, sigs[1..], keys[1..], at) { AssignmentPrepends(c, hash, sigs, keys, at); }
    } else {
      GreedyMatches(c, hash, sigs, keys[1..]);
      forall at | Assignment(c, hash, sigs, keys, at) ensures at[0] > 0 {
        FirstAssigned(c, hash, sigs, keys, at);
      }
      hide Assignment, Good;
      if at :| Assignment(c, hash, sigs, keys, at) { AssignmentSkips(c, hash, sigs, keys, at); }
      if at :| Assignment(c, hash, sigs, keys[1..], at) { AssignmentRaises(c, hash, sigs, keys, at); }
    }
  }

  function Shift(at: seq<nat>): seq<nat> { seq(|at|, i requires 0 <= i < |at| => SatSub(at[i], 1)) }

  function Raise(at: seq<nat>): seq<nat> { seq(|at|, i requires 0 <= i < |at| => at[i] + 1) }

  // ---- The loops ------------------------------------------------------------

  /** Walks the keys once, each signature taking the first remaining key that verifies it. */
  method MatchSignatures(c: Crypto, hash: Hash256, sigs: seq<Bytes>, keys: seq<Bytes>) returns (matched: bool)
    ensures matched <==> Matched(c, hash, sigs, keys)
  {
    hide Good;
    var n, next := 0, 0;
    while n < |sigs|
      invariant 0 <= n <= |sigs| && 0 <= next <= |keys|
      invariant Matched(c, hash, sigs, keys) <==> Matched(c, hash, sigs[n..], keys[next..])
    {
      assert sigs[n..][1..] == sigs[n + 1..];
      if !c.isSig(sigs[n]) { return false; }
      var found := false;
      while next < |keys| && !found
        invariant 0 <= next <= |keys|
        invariant Matched(c, hash, sigs, keys) <==> Matched(c, hash, sigs[if found then n + 1 else n..], keys[next..])
        decreases |keys| - next
      {
        assert keys[next..][1..] == keys[next + 1..];
        found := Good(c, keys[next], sigs[n], hash);
        next := next + 1;
      }
      if !found { return false; }
      n := n + 1;
    }
    return true;
  }

  /** The machine's main loop over one script. */
  method RunScript(c: Crypto, ctx: Context, script: Script, start: Stack, allowSigs: bool) returns (r: Outcome)
    ensures r == Run(c, ctx, script, start, [], allowSigs)
  {
    hide Operate, Truthy;
    var i := 0;
    var stack := start;
    var ifs: seq<bool> := [];
    while i < |script|
      invariant 0 <= i <= |script|
      invariant Run(c, ctx, script, start, [], allowSigs) == Run(c, ctx, script[i..], stack, ifs, allowSigs)
    {
      var code := script[i..];
      var push := PushAt(code);
      if push.Some? {
        if push.value.Err? { return Err(push.value.error); }
        var (data, n) := push.value.value;
        assert code[n..] == script[i + n..];
        if Executing(ifs) {
          if |data| > MAX_ELEMENT_SIZE { return Err(ElementTooLarge); }
          if |stack| >= MAX_STACK_DEPTH { return Err(StackOverflow); }
          stack := stack + [data];
        }
        i := i + n;
      } else {
        assert code[1..] == script[i + 1..];
        if script[i] == OP_IF {
          if Executing(ifs) {
            if stack == [] { return Err(StackUnderflow); }
            var top := Top(stack);
            stack := Pop(stack, 1);
            ifs := ifs + [Truthy(top)];
          } else {
            ifs := ifs + [false];
          }
        } else if script[i] == OP_ELSE {
          if ifs != [] { ifs := ifs[..|ifs| - 1] + [!ifs[|ifs| - 1]]; }
        } else if script[i] == OP_ENDIF {
          if ifs != [] { ifs := ifs[..|ifs| - 1]; }
        } else if Executing(ifs) {
          var next := Operate(c, ctx, stack, script[i], allowSigs);
          if next.Err? { return next; }
          stack := next.value;
        }
        i := i + 1;
      }
    }
    return Ok(stack);
  }
}
