/** Fixed-width arithmetic and the option/result types shared by every module. */
module Prelude {

  datatype Option<+T> = None | Some(value: T)

  datatype Result<+T, +E> = Ok(value: T) | Err(error: E)

  const U64_MAX: nat := 0xffff_ffff_ffff_ffff
  const U128_MAX: nat := 0xffff_ffff_ffff_ffff_ffff_ffff_ffff_ffff

  type u64 = x: nat | x <= U64_MAX
  type u8 = x: nat | x < 256
  type pos = x: nat | x > 0 witness 1

  function Min(a: nat, b: nat): nat { if a <= b then a else b }

  function Max(a: nat, b: nat): nat { if a <= b then b else a }

  /** `u64::saturating_add`. */
  function SatAdd(a: nat, b: nat): u64 { if a + b <= U64_MAX then a + b else U64_MAX }

  /** `u64::saturating_sub`. */
  function SatSub(a: nat, b: nat): nat { if a >= b then a - b else 0 }

  /** `u64::saturating_mul`. */
  function SatMul(a: nat, b: nat): u64 { if a * b <= U64_MAX then a * b else U64_MAX }

  /** Wrap-around to 64 bits, as unchecked `u64` arithmetic does. */
  function Wrap(x: int): u64 { x % (U64_MAX + 1) }

  function Pow2(n: nat): pos { if n == 0 then 1 else 2 * Pow2(n - 1) }

  lemma MulLe(a: nat, b: nat, c: nat)
    requires a <= b
    ensures a * c <= b * c
  {
  }

  lemma DivBound(a: nat, d: pos)
    ensures 0 <= a / d <= a
  {
    assert a == d * (a / d) + a % d;
    MulLe(1, d, a / d);
  }

  lemma QuotientUnique(n: nat, d: pos, q: nat, r: nat)
    requires n == q * d + r && r < d
    ensures n / d == q
  {
    var q', r' := n / d, n % d;
    assert n == q' * d + r';
    if q < q' { MulLe(q + 1, q', d); assert false; }
    if q' < q { MulLe(q' + 1, q, d); assert false; }
  }
}
