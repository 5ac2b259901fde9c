/** The accumulator fold at the heart of the proof-of-work hash loses nothing: every round can be undone. */
module TensorHash {
  import opened Prelude

  const WORD: pos := 0x1_0000_0000_0000_0000
  const ROUNDS: nat := 32
  const ROTATION: nat := 13

  /** Four 64-bit words. */
  type Words = s: seq<u64> | |s| == 4 witness [0, 0, 0, 0]

  /** `x | 1`. */
  function Odd(x: u64): (r: u64)
    ensures r % 2 == 1 && x <= r <= x + 1
  {
    if x % 2 == 1 then x else x + 1
  }

  /** `u64::rotate_left(13)`: the high 13 bits come back at the bottom. */
  function RotateLeft13(x: u64): u64 {
    x % 0x8_0000_0000_0000 * 0x2000 + x / 0x8_0000_0000_0000
  }

  function MixWord(acc: u64, elem: u64, next: u64): u64 { (acc * Odd(elem) + RotateLeft13(next)) % WORD }

  /** One round: every accumulator word is multiplied by an odd word of the element and shifted by a rotated one. */
  function Mix(acc: Words, elem: Words): Words {
    seq(4, m requires 0 <= m < 4 => MixWord(acc[m], elem[m], elem[(m + 1) % 4]))
  }

  function Fold(acc: Words, elems: seq<Words>): Words {
    if elems == [] then acc else Mix(Fold(acc, elems[..|elems| - 1]), elems[|elems| - 1])
  }

  // ---- Odd numbers have inverses modulo a power of two ----------------------

  /** The multiplicative inverse of an odd number modulo 2^k, one bit at a time. */
  function OddInverse(a: nat, k: nat): nat
  {
    if k <= 1 then 1
    else
      var x := OddInverse(a, k - 1);
      if a * x % Pow2(k) == 1 then x else x + Pow2(k - 1)
  }

  lemma ModOfSmall(v: nat, m: pos)
    requires v < m
    ensures v % m == v
  {
  }

  lemma SmallMultiple(k: int, m: pos)
    requires 0 - m < k * m < m
    ensures k == 0
  {
    if k > 0 { MulLe(1, k, m); }
  }

  lemma ModShift(r: int, q: int, m: pos)
    ensures (r + q * m) % m == r % m
  {
    var n := r + q * m;
    var k := n / m - q - r / m;
    assert n == n / m * m + n % m && r == r / m * m + r % m;
    assert k * m == r % m - n % m;
    SmallMultiple(k, m);
  }

  /** An even multiple of `h` is a multiple of `2 * h`. */
  lemma EvenMultiple(n: nat, t: nat, h: pos)
    requires t % 2 == 0 && n == 1 + t * h
    ensures n % (2 * h) == 1
  {
    var q := t / 2;
    assert t == q * 2;
    assert t * h == q * (2 * h);
    ModShift(1, q, 2 * h);
    ModOfSmall(1, 2 * h);
  }

  lemma Distribute(a: nat, x: nat, h: nat, t: nat)
    requires a * x == t * h + 1
    ensures a * (x + h) == 1 + (t + a) * h
  {
  }

  /** An inverse modulo `h`, or that plus `h`, is one modulo `2 * h`. */
  lemma LiftInverse(a: nat, x: nat, h: pos)
    requires a % 2 == 1 && a * x % h == 1
    ensures a * x % (2 * h) == 1 || a * (x + h) % (2 * h) == 1
  {
    var t := a * x / h;
    assert a * x == t * h + 1;
    if t % 2 == 0 {
      EvenMultiple(a * x, t, h);
    } else {
      Distribute(a, x, h, t);
      EvenMultiple(a * (x + h), t + a, h);
    }
  }

  lemma {:induction false} OddInverseCorrect(a: nat, k: nat)
    requires a % 2 == 1 && k >= 1
    ensures a * OddInverse(a, k) % Pow2(k) == 1
  {
    if k == 1 {
      assert Pow2(1) == 2;
    } else {
      OddInverseCorrect(a, k - 1);
      LiftInverse(a, OddInverse(a, k - 1), Pow2(k - 1));
    }
  }

  // ---- Undoing a round ------------------------------------------------------

  function UnmixWord(mixed: u64, elem: u64, next: u64): u64 {
    (mixed - RotateLeft13(next)) % WORD * OddInverse(Odd(elem), 64) % WORD
  }

  function Unmix(mixed: Words, elem: Words): Words {
    seq(4, m requires 0 <= m < 4 => UnmixWord(mixed[m], elem[m], elem[(m + 1) % 4]))
  }

  function Unfold(acc: Words, elems: seq<Words>): Words
    decreases |elems|
  {
    if elems == [] then acc else Unfold(Unmix(acc, elems[|elems| - 1]), elems[..|elems| - 1])
  }

  lemma {:induction false} Pow2Sum(a: nat, b: nat)
    ensures Pow2(a + b) == Pow2(a) * Pow2(b)
  {
    if a > 0 { Pow2Sum(a - 1, b); }
  }

  lemma WordIsPow2()
    ensures Pow2(64) == WORD
  {
    assert Pow2(2) == 4;
    hide Pow2;
    Pow2Sum(2, 2);
    assert Pow2(4) == 16;
    Pow2Sum(4, 4);
    assert Pow2(8) == 256;
    Pow2Sum(8, 8);
    assert Pow2(16) == 0x1_0000;
    Pow2Sum(16, 16);
    assert Pow2(32) == 0x1_0000_0000;
    Pow2Sum(32, 32);
  }

  /** Multiplying by `a` and shifting by `r` is undone by shifting back and multiplying by the inverse of `a`. */
  lemma AffineUndone(v: nat, a: nat, inv: nat, r: nat, m: pos)
    requires v < m && a * inv % m == 1
    ensures ((v * a + r) % m - r) % m * inv % m == v
  {
    var y := (v * a + r) % m;
    var q := (v * a + r) / m;
    assert y - r == v * a + -q * m;
    var d := (y - r) % m;
    ModShift(v * a, -q, m);
    var q2 := v * a / m;
    assert d == v * a - q2 * m;
    var q3 := a * inv / m;
    assert a * inv == 1 + q3 * m;
    assert d * inv == v * (a * inv) - q2 * inv * m;
    assert v * (a * inv) == v + v * q3 * m;
    assert d * inv == v + (v * q3 - q2 * inv) * m;
    ModShift(v, v * q3 - q2 * inv, m);
    ModOfSmall(v, m);
  }

  /** And the other way round. */
  lemma AffineRedone(y: nat, a: nat, inv: nat, r: nat, m: pos)
    requires y < m && a * inv % m == 1
    ensures ((y - r) % m * inv % m * a + r) % m == y
  {
    var d := (y - r) % m;
    var q1 := (y - r) / m;
    assert y - r == q1 * m + d;
    var u := d * inv % m;
    var q2 := d * inv / m;
    assert d * inv == q2 * m + u;
    var q3 := a * inv / m;
    assert a * inv == 1 + q3 * m;
    assert u * a == d * (a * inv) - q2 * a * m;
    assert d * (a * inv) == d + d * q3 * m;
    assert u * a + r == y + (d * q3 - q2 * a - q1) * m;
    ModShift(y, d * q3 - q2 * a - q1, m);
    ModOfSmall(y, m);
  }

  lemma WordRoundTrips(v: u64, elem: u64, next: u64)
    ensures UnmixWord(MixWord(v, elem, next), elem, next) == v
    ensures MixWord(UnmixWord(v, elem, next), elem, next) == v
  {
    hide OddInverse, Pow2, RotateLeft13, Odd;
    var a := Odd(elem);
    OddInverseCorrect(a, 64);
    WordIsPow2();
    AffineUndone(v, a, OddInverse(a, 64), RotateLeft13(next), WORD);
    AffineRedone(v, a, OddInverse(a, 64), RotateLeft13(next), WORD);
  }

  lemma RoundTrips(acc: Words, elem: Words)
    ensures Unmix(Mix(acc, elem), elem) == acc && Mix(Unmix(acc, elem), elem) == acc
  {
    hide MixWord, UnmixWord;
    forall m | 0 <= m < 4
      ensures Unmix(Mix(acc, elem), elem)[m] == acc[m] && Mix(Unmix(acc, elem), elem)[m] == acc[m]
    {
      WordRoundTrips(acc[m], elem[m], elem[(m + 1) % 4]);
    }
  }

  /** For any fixed dataset elements, and any number of rounds, the fold is a bijection on the accumulator. */
  lemma {:induction false} FoldBijective(acc: Words, elems: seq<Words>)
    ensures Unfold(Fold(acc, elems), elems) == acc
    ensures Fold(Unfold(acc, elems), elems) == acc
    decreases |elems|
  {
    if elems != [] {
      var n := |elems| - 1;
      hide Mix, Unmix;
      RoundTrips(Fold(acc, elems[..n]), elems[n]);
      FoldBijective(acc, elems[..n]);
      RoundTrips(acc, elems[n]);
      FoldBijective(Unmix(acc, elems[n]), elems[..n]);
    }
  }

  /** So different accumulators stay different under the same elements. */
  lemma FoldInjective(a: Words, b: Words, elems: seq<Words>)
    requires a != b
    ensures Fold(a, elems) != Fold(b, elems)
  {
    FoldBijective(a, elems);
    FoldBijective(b, elems);
  }

  // ---- What a round computes ------------------------------------------------

  function Bit(x: nat, i: nat): nat { x / Pow2(i) % 2 }

  /** Below position `k` the bits of `a * 2^k + b` are those of `b`, and above it those of `a`. */
  lemma BitsJoin(a: nat, b: nat, k: nat, j: nat)
    requires b < Pow2(k)
    ensures j < k ==> Bit(a * Pow2(k) + b, j) == Bit(b, j)
    ensures Bit(a * Pow2(k) + b, k + j) == Bit(a, j)
  {
    if j < k { LowBits(a, b, k, j); }
    hide *;
    Pow2Sum(k, j);
    DivideTwice(a, b, Pow2(k), Pow2(j));
    BitIs(a * Pow2(k) + b, k + j);
    BitIs(a, j);
  }

  lemma BitIs(x: nat, i: nat)
    ensures Bit(x, i) == x / Pow2(i) % 2
  {
    hide Pow2;
  }

  lemma LowBits(a: nat, b: nat, k: nat, j: nat)
    requires j < k
    ensures Bit(a * Pow2(k) + b, j) == Bit(b, j)
  {
    var half, low := Pow2(k - j - 1), Pow2(j);
    Pow2Sum(k - j, j);
    assert Pow2(k - j) == 2 * half;
    hide *;
    BitIs(a * Pow2(k) + b, j);
    BitIs(b, j);
    LowQuotient(a, b, Pow2(k), half, low);
  }

  lemma LowQuotient(a: nat, b: nat, p: pos, half: pos, low: pos)
    requires p == 2 * half * low
    ensures (a * p + b) / low % 2 == b / low % 2
  {
    Regroups(a, half, low);
    var c := a * half;
    var q := 2 * c;
    assert a * p == q * low;
    QuotientOf(q, b, low);
    EvenPlus(c, b / low);
  }

  lemma EvenPlus(x: nat, y: nat)
    ensures (2 * x + y) % 2 == y % 2
  {
  }

  lemma Regroups(a: nat, x: nat, y: nat)
    ensures a * (2 * x * y) == 2 * (a * x) * y
  {
    assert a * (2 * x * y) == a * (2 * x) * y;
  }

  lemma QuotientOf(c: nat, b: nat, d: pos)
    ensures (c * d + b) / d == c + b / d
  {
    var q := (c * d + b) / d;
    assert c * d + b == q * d + (c * d + b) % d && b == b / d * d + b % d;
    var k := q - c - b / d;
    assert k * d == b % d - (c * d + b) % d;
    SmallMultiple(k, d);
  }

  lemma DivideTwice(a: nat, b: nat, x: pos, y: pos)
    requires b < x
    ensures (a * x + b) / (x * y) == a / y
  {
    var q, rest := a / y, a % y;
    var d: pos := x * y;
    var r := rest * x + b;
    Remainder(rest, b, x, y);
    Expands(a, q, rest, x, y);
    QuotientOf(q, r, d);
    DivideSmall(r, d);
  }

  lemma Remainder(rest: nat, b: nat, x: pos, y: pos)
    requires rest < y && b < x
    ensures rest * x + b < x * y
  {
    MulLe(rest, y - 1, x);
    assert (y - 1) * x == x * y - x;
  }

  lemma Expands(a: nat, q: nat, rest: nat, x: nat, y: nat)
    requires a == q * y + rest
    ensures a * x == q * (x * y) + rest * x
  {
    assert a * x == q * y * x + rest * x;
    assert q * y * x == q * (x * y);
  }

  lemma DivideSmall(r: nat, d: pos)
    requires r < d
    ensures r / d == 0
  {
  }

  lemma RotationPowers()
    ensures Pow2(13) == 0x2000 && Pow2(51) == 0x8_0000_0000_0000
  {
    assert Pow2(3) == 8 && Pow2(10) == 1024;
    hide Pow2;
    Pow2Sum(10, 3);
    Pow2Sum(10, 10);
    Pow2Sum(20, 20);
    Pow2Sum(40, 10);
    Pow2Sum(50, 1);
    assert Pow2(51) == Pow2(50) * 2 by { PowOne(); }
  }

  lemma PowOne()
    ensures Pow2(1) == 2
  {
  }

  /** Rotating moves bit `i` to position `i + 13`, counted round the word. */
  lemma RotationMoves(x: u64, i: nat)
    requires i < 64
    ensures Bit(RotateLeft13(x), (i + ROTATION) % 64) == Bit(x, i)
  {
    var hi, lo := x / 0x8_0000_0000_0000, x % 0x8_0000_0000_0000;
    RotationPowers();
    hide Pow2, Bit;
    assert x == hi * Pow2(51) + lo && RotateLeft13(x) == lo * Pow2(13) + hi && hi < Pow2(13) && lo < Pow2(51);
    if i < 51 {
      BitsJoin(hi, lo, 51, i);
      BitsJoin(lo, hi, 13, i);
      assert (i + ROTATION) % 64 == 13 + i;
    } else {
      BitsJoin(hi, lo, 51, i - 51);
      BitsJoin(lo, hi, 13, i - 51);
      assert (i + ROTATION) % 64 == i - 51 && 51 + (i - 51) == i;
    }
  }

  /** Each word of a round is its own accumulator word times its own element word made odd, plus the next element word
      rotated, the last word's next one being the first. */
  lemma MixReads(acc: Words, elem: Words, m: nat)
    requires m < 4
    ensures acc[m] == 0 ==> Mix(acc, elem)[m] == RotateLeft13(elem[if m == 3 then 0 else m + 1])
    ensures elem[if m == 3 then 0 else m + 1] == 0 ==> Mix(acc, elem)[m] == acc[m] * Odd(elem[m]) % WORD
  {
    hide *;
    WordOf(acc, elem, m);
    WordParts(acc[m], elem[m], elem[if m == 3 then 0 else m + 1]);
  }

  lemma WordParts(a: u64, e: u64, n: u64)
    ensures a == 0 ==> MixWord(a, e, n) == RotateLeft13(n)
    ensures n == 0 ==> MixWord(a, e, n) == a * Odd(e) % WORD
  {
    RotatesZero();
    hide RotateLeft13, Odd;
    AffineParts(a, Odd(e), RotateLeft13(n), WORD);
  }

  lemma RotatesZero()
    ensures RotateLeft13(0) == 0
  {
  }

  lemma AffineParts(a: nat, o: nat, r: nat, m: pos)
    ensures a == 0 && r < m ==> (a * o + r) % m == r
    ensures r == 0 ==> (a * o + r) % m == a * o % m
  {
    if a == 0 && r < m { ModOfSmall(r, m); }
  }

  lemma WordOf(acc: Words, elem: Words, m: nat)
    requires m < 4
    ensures Mix(acc, elem)[m] == MixWord(acc[m], elem[m], elem[if m == 3 then 0 else m + 1])
  {
    hide *;
    MixAt(acc, elem, m);
    NextOf(m);
  }

  lemma NextOf(m: nat)
    requires m < 4
    ensures (m + 1) % 4 == if m == 3 then 0 else m + 1
  {
  }

  // ---- The loop -------------------------------------------------------------

  /** Folds one dataset element per round into the accumulator. */
  method FoldRounds(acc: array<u64>, elems: seq<Words>)
    requires acc.Length == 4 && |elems| == ROUNDS
    modifies acc
    ensures acc[..] == Fold(old(acc[..]), elems)
  {
    hide Mix, MixWord;
    for j := 0 to ROUNDS
      invariant acc[..] == Fold(old(acc[..]), elems[..j])
    {
      assert elems[..j + 1][..j] == elems[..j];
      MixInto(acc, elems[j]);
    }
    assert elems[..ROUNDS] == elems;
  }

  /** One round, through a second buffer. */
  method MixInto(acc: array<u64>, elem: Words)
    requires acc.Length == 4
    modifies acc
    ensures acc[..] == Mix(old(acc[..]), elem)
  {
    hide Mix, MixWord;
    var next := new u64[4];
    ghost var before := acc[..];
    for m := 0 to 4
      invariant acc[..] == before
      invariant forall i :: 0 <= i < m ==> next[i] == Mix(before, elem)[i]
    {
      MixAt(before, elem, m);
      var word := MixWord(acc[m], elem[m], elem[(m + 1) % 4]);
      next[m] := word;
    }
    forall m | 0 <= m < 4 { acc[m] := next[m]; }
    assert acc[..] == Mix(before, elem);
  }

  lemma MixAt(acc: Words, elem: Words, m: nat)
    requires m < 4
    ensures Mix(acc, elem)[m] == MixWord(acc[m], elem[m], elem[(m + 1) % 4])
  {
    hide MixWord;
  }
}
