/** Machine words: the 32-bit storage cell, its signed reading, and the Rust
    operators the engine relies on (bit casts, `as` truncation, wrapping
    `+` of a release build, and `/` that rounds toward zero). */
module Words {

  const TWO_31: int := 0x8000_0000
  const TWO_32: int := 0x1_0000_0000
  const TWO_64: int := 0x1_0000_0000_0000_0000

  /** `u32`, the type of a storage cell and of a location. */
  type u32 = x: int | 0 <= x < 0x1_0000_0000
  /** `i32`, the ALU's integer operand type and the host's `c_int`. */
  type i32 = x: int | -0x8000_0000 <= x < 0x8000_0000
  /** `u64`, the bit pattern of a 64-bit product. */
  type u64 = x: int | 0 <= x < 0x1_0000_0000_0000_0000

  /** `x as u32` for any integer `x`: keeps the low 32 bits. Every `u32`
      addition of the engine wraps this way in a release build. */
  function WrapU32(x: int): u32
  {
    x % TWO_32
  }

  /** `bits_to_i32`: reinterprets the 32 bits of `v` as two's complement. */
  function BitsToI32(v: u32): (r: i32)
    ensures r % TWO_32 == v
    ensures r < 0 <==> v >= TWO_31
  {
    if v < TWO_31 then v else v - TWO_32
  }

  /** `i32_to_bits`: the 32-bit pattern of a signed value. */
  function I32ToBits(v: i32): (r: u32)
    ensures r == v % TWO_32
    ensures r >= TWO_31 <==> v < 0
  {
    if v >= 0 then v else v + TWO_32
  }

  /** The two transmutes are inverse to each other, in both directions. */
  lemma BitsRoundTrip(v: u32, w: i32)
    ensures I32ToBits(BitsToI32(v)) == v
    ensures BitsToI32(I32ToBits(w)) == w
  {
  }

  /** Wrapping `i32` arithmetic: the `i32` whose bit pattern is the low 32
      bits of the exact result `x`. */
  function WrapI32(x: int): (r: i32)
    ensures I32ToBits(r) == WrapU32(x)
    ensures -TWO_31 <= x < TWO_31 ==> r == x
  {
    BitsToI32(WrapU32(x))
  }

  /** `((n as i32) + offset) as u32`, the address the engine forms for every
      instruction-relative access and for every jump. */
  function OffsetAddress(n: u32, offset: i32): (r: u32)
    ensures r == WrapU32(n + offset)
  {
    var signed := BitsToI32(n);
    assert signed == n || signed == n - TWO_32;
    CongruentWrap(signed + offset, n + offset);
    I32ToBits(WrapI32(signed + offset))
  }

  /** Two integers that differ by zero or one multiple of 2^32 wrap alike. */
  lemma CongruentWrap(x: int, y: int)
    requires x == y || x == y - TWO_32
    ensures WrapU32(x) == WrapU32(y)
  {
  }

  /** `i64_to_bits`: the 64-bit pattern of a signed 64-bit value. */
  function I64ToBits(v: int): (r: u64)
    requires -0x8000_0000_0000_0000 <= v < 0x8000_0000_0000_0000
    ensures r == v % TWO_64
  {
    if v >= 0 then v else v + TWO_64
  }

  /** `a as i64 * b as i64`: the exact product of two `i32`, which always
      fits in an `i64` (its magnitude is at most 2^62). */
  function WideMul(a: i32, b: i32): (p: int)
    ensures p == a * b
    ensures -0x4000_0000_0000_0000 <= p <= 0x4000_0000_0000_0000
  {
    var x: nat, y: nat := Abs(a), Abs(b);
    MulMonotone(x, y, TWO_31);
    MulMonotone(TWO_31, x, TWO_31);
    assert x * TWO_31 == TWO_31 * x;
    assert a * b == x * y || a * b == -(x * y);
    a * b
  }

  lemma MulMonotone(x: nat, y: nat, c: nat)
    requires y <= c
    ensures x * y <= x * c
  {
  }

  function Abs(x: int): nat
  {
    if x < 0 then -x else x
  }

  /** Rust's integer `/`: the quotient rounded toward zero (Dafny's own `/`
      rounds toward minus infinity when the divisor is positive). */
  function TruncDiv(a: int, b: int): int
    requires b != 0
  {
    var m := Abs(a) / Abs(b);
    if (a < 0) == (b < 0) then m else -m
  }

  /** The magnitude of the quotient is the largest multiple count of the
      divisor that fits in the dividend, and its sign is the product of the
      operands' signs. */
  lemma TruncDivBounds(a: int, b: int)
    requires b != 0
    ensures var q := TruncDiv(a, b);
      Abs(a) - Abs(b) < Abs(q) * Abs(b) <= Abs(a) &&
      (q != 0 ==> (q < 0 <==> (a < 0) != (b < 0)))
  {
    DivBounds(Abs(a), Abs(b));
    assert Abs(TruncDiv(a, b)) == Abs(a) / Abs(b);
  }

  lemma DivBounds(x: nat, y: nat)
    requires y > 0
    ensures (x / y) * y <= x < (x / y) * y + y
  {
  }

  /** What `/` rounding toward zero means: `a == q * b + rem`, where the
      remainder is smaller than the divisor and never opposes the sign of
      the dividend. */
  lemma TruncDivRemainder(a: int, b: int)
    requires b != 0
    ensures var rem := a - TruncDiv(a, b) * b;
      Abs(rem) < Abs(b) && (rem == 0 || (rem < 0 <==> a < 0))
  {
    TruncDivBounds(a, b);
    var q := TruncDiv(a, b);
    var m := Abs(a) / Abs(b);
    assert Abs(q) == m;
    assert Abs(q * b) == m * Abs(b) by {
      if q < 0 && b < 0 {
        assert q * b == (-q) * (-b);
      } else if q < 0 {
        assert q * b == -((-q) * b);
      } else if b < 0 {
        assert q * b == -(q * (-b));
      }
    }
    var rem := a - q * b;
    if a >= 0 {
      assert (q * b >= 0) by {
        if q != 0 {
          assert (q < 0) == (b < 0);
          if q < 0 { assert q * b == (-q) * (-b); }
        }
      }
      assert rem == Abs(a) - m * Abs(b);
    } else {
      assert (q * b <= 0) by {
        if q != 0 {
          assert (q < 0) != (b < 0);
          if q < 0 { assert q * b == -((-q) * b); } else { assert q * b == -(q * (-b)); }
        }
      }
      assert rem == -(Abs(a) - m * Abs(b));
    }
  }

  /** Rust panics on `i32` division by zero and on `i32::MIN / -1`, the only
      quotient that does not fit. */
  predicate DivisionDefined(a: i32, b: i32)
  {
    b != 0 && !(a == -TWO_31 && b == -1)
  }

  /** Whenever Rust's `i32` division does not panic its quotient is an `i32`. */
  lemma TruncDivFits(a: i32, b: i32)
    requires DivisionDefined(a, b)
    ensures -TWO_31 <= TruncDiv(a, b) < TWO_31
  {
    TruncDivBounds(a, b);
    var q := TruncDiv(a, b);
    if Abs(b) >= 2 {
      MulAtLeastDouble(Abs(q), Abs(b));
    } else if b == 1 {
      assert Abs(q) * Abs(b) == Abs(q);
    } else {
      assert Abs(q) * Abs(b) == Abs(q);
      assert a != -TWO_31;
    }
  }

  lemma MulAtLeastDouble(x: nat, y: nat)
    requires y >= 2
    ensures x * y >= 2 * x
  {
  }

  /** Rust's `/`, rounding toward zero, on `i32` operands: `a == q * b + rem`
      with a remainder smaller than the divisor that never opposes the sign
      of the dividend. */
  function DivI32(a: i32, b: i32): (q: i32)
    requires DivisionDefined(a, b)
    ensures Abs(a - q * b) < Abs(b)
    ensures a - q * b == 0 || (a - q * b < 0 <==> a < 0)
    ensures q == TruncDiv(a, b)
  {
    TruncDivFits(a, b);
    TruncDivRemainder(a, b);
    TruncDiv(a, b)
  }
}
