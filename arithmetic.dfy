/** The ALU: a two-slot operand history (most recent in `valueA`, the one
    before in `valueB`), the `hi`/`lo` result registers, a comparison
    outcome and a numeric mode. Only the integer paths are modelled. */
module Arithmetic {
  import opened Words

  datatype AluMode = Int | Float

  /** The integer-visible fields of `ALU`: `value_a_int`, `value_b_int`,
      `compare_result`, `hi`, `lo` and `mode`. */
  datatype AluState = AluState(
    valueA: i32,
    valueB: i32,
    compareResult: i32,
    hi: u32,
    lo: u32,
    mode: AluMode)

  /** `ALU::new`: everything zero, integer mode. */
  function InitialAlu(): AluState
  {
    AluState(0, 0, 0, 0, 0, Int)
  }

  /** `push_int`: the most recent operand becomes the previous one and
      `value` becomes the most recent. */
  function Pushed(s: AluState, value: i32): AluState
  {
    s.(valueB := s.valueA, valueA := value)
  }

  /** `add_int`: `hi` gets the (wrapping) sum cast to `u32`, `lo` is zeroed. */
  function Added(s: AluState): AluState
  {
    s.(hi := I32ToBits(WrapI32(s.valueA + s.valueB)), lo := 0)
  }

  /** `negate_int` has an empty body. */
  function Negated(s: AluState): AluState
  {
    s
  }

  /** `loMask & bits`, where `loMask` has the low 32 bits set. */
  function MaskLow(bits: u64): u64
  {
    bits % TWO_32
  }

  /** `hiMask & bits`, where `hiMask` has the high 32 bits set. */
  function MaskHigh(bits: u64): u64
  {
    bits - bits % TWO_32
  }

  /** `multiply_int`: the 64-bit product is split with the two masks and each
      half is cast with `as u32`, which keeps its LOW 32 bits. */
  function Multiplied(s: AluState): AluState
  {
    var bits := I64ToBits(WideMul(s.valueA, s.valueB));
    s.(hi := WrapU32(MaskHigh(bits)), lo := WrapU32(MaskLow(bits)))
  }

  /** `divide_int`: `hi` gets the bits of `value_a / value_b` (rounded toward
      zero), `lo` is zeroed. Rust panics when the division is undefined. */
  function Divided(s: AluState): AluState
    requires DivisionDefined(s.valueA, s.valueB)
  {
    s.(hi := I32ToBits(DivI32(s.valueA, s.valueB)), lo := 0)
  }

  /** Two pushes fill both slots, whatever they held, and touch nothing else. */
  lemma PushedTwice(s: AluState, x: i32, y: i32)
    ensures var t := Pushed(Pushed(s, x), y);
      t.valueA == y && t.valueB == x &&
      t.hi == s.hi && t.lo == s.lo && t.compareResult == s.compareResult && t.mode == s.mode
  {
  }

  /** `add_int` stores the sum modulo 2^32 in `hi`: the exact sum when it
      fits in an `i32`, and the operand slots are kept. */
  lemma AddedIsWrappingSum(s: AluState)
    ensures Added(s).hi == WrapU32(s.valueA + s.valueB) && Added(s).lo == 0
    ensures -TWO_31 <= s.valueA + s.valueB < TWO_31 ==> BitsToI32(Added(s).hi) == s.valueA + s.valueB
    ensures Added(s).(hi := s.hi, lo := s.lo) == s
  {
  }

  /** As written, `multiply_int` leaves `hi` at 0 and puts the product modulo
      2^32 in `lo`; the operand slots are kept. */
  lemma MultipliedIsLowProduct(s: AluState)
    ensures Multiplied(s).hi == 0
    ensures Multiplied(s).lo == WrapU32(s.valueA * s.valueB)
    ensures Multiplied(s).(hi := s.hi, lo := s.lo) == s
  {
    var p := WideMul(s.valueA, s.valueB);
    var bits := I64ToBits(p);
    assert bits == p || bits == p + TWO_32 * TWO_32;
    assert MaskHigh(bits) == (bits / TWO_32) * TWO_32;
    assert WrapU32(MaskHigh(bits)) == 0;
    assert WrapU32(MaskLow(bits)) == WrapU32(bits);
  }

  /** With both operands 65536 the product is 2^32, yet `hi` and `lo` both end
      up 0: the upper half of the product is lost. */
  lemma MultiplyLosesUpperHalf(s: AluState)
    ensures var t := Multiplied(Pushed(Pushed(s, 65536), 65536));
      t.valueA * t.valueB == TWO_32 && t.hi == 0 && t.lo == 0
  {
    MultipliedIsLowProduct(Pushed(Pushed(s, 65536), 65536));
  }

  /** `divide_int` puts the quotient rounded toward zero in `hi` and 0 in
      `lo`; together with the remainder it rebuilds the dividend. */
  lemma DividedIsTruncatedQuotient(s: AluState)
    requires DivisionDefined(s.valueA, s.valueB)
    ensures var q := BitsToI32(Divided(s).hi);
      q == TruncDiv(s.valueA, s.valueB) && Divided(s).lo == 0 &&
      Abs(s.valueA - q * s.valueB) < Abs(s.valueB)
    ensures Divided(s).(hi := s.hi, lo := s.lo) == s
  {
    TruncDivRemainder(s.valueA, s.valueB);
  }

  /** The ALU as an object whose operations overwrite its fields. */
  class Alu {
    var valueA: i32
    var valueB: i32
    var compareResult: i32
    var hi: u32
    var lo: u32
    var mode: AluMode

    ghost function State(): AluState
      reads this
    {
      AluState(valueA, valueB, compareResult, hi, lo, mode)
    }

    /** `ALU::new`. */
    constructor ()
      ensures State() == InitialAlu()
    {
      valueA, valueB, compareResult := 0, 0, 0;
      hi, lo := 0, 0;
      mode := Int;
    }

    /** `push_value`, which in integer mode is `push_int`. */
    method PushValue(value: i32)
      requires mode == Int
      modifies this
      ensures State() == Pushed(old(State()), value)
    {
      valueB := valueA;
      valueA := value;
    }

    /** `add`, which in integer mode is `add_int`. */
    method Add()
      requires mode == Int
      modifies this
      ensures State() == Added(old(State()))
    {
      hi := I32ToBits(WrapI32(valueA + valueB));
      lo := 0;
    }

    /** `negate`, which in integer mode is the empty `negate_int`. */
    method Negate()
      requires mode == Int
      modifies this
      ensures State() == Negated(old(State()))
    {
    }

    /** `multiply`, which in integer mode is `multiply_int`. */
    method Multiply()
      requires mode == Int
      modifies this
      ensures State() == Multiplied(old(State()))
    {
      var bits := I64ToBits(WideMul(valueA, valueB));
      hi := WrapU32(MaskHigh(bits));
      lo := WrapU32(MaskLow(bits));
    }

    /** `divide`, which in integer mode is `divide_int`. `ok` is false exactly
        where Rust's `/` panics; the registers are then left alone. */
    method Divide() returns (ok: bool)
      requires mode == Int
      modifies this
      ensures ok == DivisionDefined(old(valueA), old(valueB))
      ensures ok ==> State() == Divided(old(State()))
      ensures !ok ==> State() == old(State())
    {
      ok := DivisionDefined(valueA, valueB);
      if ok {
        hi := I32ToBits(DivI32(valueA, valueB));
        lo := 0;
      }
    }

    /** `cmp` has an empty body: `compare_result` is never written. */
    method Cmp()
      ensures State() == old(State())
    {
    }
  }
}
