/** The mixed Double/Int operators, the power operator `**` and the
    array–scalar arithmetic of Sources/SwiftHBV/helpers/mathOperators.swift. */
module MathOperators {

  // Mixed Double/Int operators: the Int is converted to Double first.

  function TimesInt(d: real, n: int): real
  {
    d * (n as real)
  }

  /** Multiplying by an Int is repeated addition: by 0 it gives 0, and one
      more factor adds `d` once more. */
  lemma TimesIntRepeatsAddition(d: real, n: int)
    ensures TimesInt(d, 0) == 0.0
    ensures TimesInt(d, n + 1) == TimesInt(d, n) + d
  {
  }

  function IntTimes(n: int, d: real): (r: real)
    ensures r == TimesInt(d, n)
  {
    (n as real) * d
  }

  function DivideByInt(d: real, n: int): (r: real)
    requires n != 0
    ensures r * (n as real) == d
  {
    d / (n as real)
  }

  function IntDividedBy(n: int, d: real): (r: real)
    requires d != 0.0
    ensures r * d == n as real
  {
    (n as real) / d
  }

  /** Dividing by an Int undoes multiplying by it. */
  lemma DivideByIntUndoesTimesInt(d: real, n: int)
    requires n != 0
    ensures DivideByInt(TimesInt(d, n), n) == d
  {
  }

  /** The n-fold product of x. */
  function NatPower(x: real, n: nat): real
  {
    if n == 0 then 1.0 else NatPower(x, n - 1) * x
  }

  /** A product of non-zero factors is non-zero. */
  lemma {:induction false} NatPowerNonZero(x: real, n: nat)
    requires x != 0.0
    ensures NatPower(x, n) != 0.0
  {
    if n > 0 {
      NatPowerNonZero(x, n - 1);
    }
  }

  /** `x ** n` for an integer exponent: `pow(x, Double(n))`, the n-fold
      product for n >= 0 and its reciprocal for n < 0. A zero base with a
      negative exponent divides by zero. */
  function Power(x: real, n: int): (r: real)
    requires n < 0 ==> x != 0.0
    ensures n >= 0 ==> r == NatPower(x, n)
    ensures n < 0 ==> r * NatPower(x, -n) == 1.0
  {
    if n >= 0 then NatPower(x, n)
    else NatPowerNonZero(x, -n); 1.0 / NatPower(x, -n)
  }

  /** Raising to -n undoes raising to n. */
  lemma PowerNegativeIsReciprocal(x: real, n: int)
    requires x != 0.0
    ensures Power(x, n) * Power(x, -n) == 1.0
  {
  }

  // Array–scalar operators: each is a `map` over the array.

  function PlusScalar(a: seq<real>, s: real): (r: seq<real>)
    ensures |r| == |a|
    ensures forall i :: 0 <= i < |a| ==> r[i] == a[i] + s
  {
    seq(|a|, i requires 0 <= i < |a| => a[i] + s)
  }

  function ScalarPlus(s: real, a: seq<real>): (r: seq<real>)
    ensures r == PlusScalar(a, s)
  {
    seq(|a|, i requires 0 <= i < |a| => s + a[i])
  }

  function MinusScalar(a: seq<real>, s: real): (r: seq<real>)
    ensures |r| == |a|
    ensures forall i :: 0 <= i < |a| ==> r[i] == a[i] - s
  {
    seq(|a|, i requires 0 <= i < |a| => a[i] - s)
  }

  function ScalarMinus(s: real, a: seq<real>): (r: seq<real>)
    ensures |r| == |a|
    ensures forall i :: 0 <= i < |a| ==> r[i] == s - a[i]
  {
    seq(|a|, i requires 0 <= i < |a| => s - a[i])
  }

  function TimesScalar(a: seq<real>, s: real): (r: seq<real>)
    ensures |r| == |a|
    ensures forall i :: 0 <= i < |a| ==> r[i] == a[i] * s
  {
    seq(|a|, i requires 0 <= i < |a| => a[i] * s)
  }

  function ScalarTimes(s: real, a: seq<real>): (r: seq<real>)
    ensures r == TimesScalar(a, s)
  {
    seq(|a|, i requires 0 <= i < |a| => s * a[i])
  }

  /** `array / denominator`; Foundation division by zero is left out. */
  function DividedBy(a: seq<real>, d: real): (r: seq<real>)
    requires d != 0.0
    ensures |r| == |a|
    ensures forall i :: 0 <= i < |a| ==> r[i] * d == a[i]
  {
    seq(|a|, i requires 0 <= i < |a| => a[i] / d)
  }

  function DividedByInt(a: seq<real>, n: int): (r: seq<real>)
    requires n != 0
    ensures r == DividedBy(a, n as real)
  {
    seq(|a|, i requires 0 <= i < |a| => a[i] / (n as real))
  }

  /** `array ** exp` for an integer exponent; a negative exponent needs
      non-zero elements. */
  function PowerEach(a: seq<real>, n: int): (r: seq<real>)
    requires n < 0 ==> forall i :: 0 <= i < |a| ==> a[i] != 0.0
    ensures |r| == |a|
    ensures forall i :: 0 <= i < |a| ==> r[i] == Power(a[i], n)
  {
    seq(|a|, i requires 0 <= i < |a| => Power(a[i], n))
  }

  /** `array ** 2` squares every element. */
  lemma PowerTwoSquares(a: seq<real>)
    ensures forall i :: 0 <= i < |a| ==> PowerEach(a, 2)[i] == a[i] * a[i]
  {
    forall i | 0 <= i < |a|
      ensures PowerEach(a, 2)[i] == a[i] * a[i]
    {
      assert NatPower(a[i], 1) == a[i];
      assert NatPower(a[i], 2) == NatPower(a[i], 1) * a[i];
    }
  }

  /** The array [2, 4] raised to the power 2 is [4, 16], and to the power
      -1 is [0.5, 0.25]. */
  lemma PowerExamples()
    ensures PowerEach([2.0, 4.0], 2) == [4.0, 16.0]
    ensures PowerEach([2.0, 4.0], -1) == [0.5, 0.25]
  {
    PowerTwoSquares([2.0, 4.0]);
    assert NatPower(2.0, 1) == 2.0 && NatPower(4.0, 1) == 4.0;
  }

  /** Subtracting a scalar undoes adding it, in either operand order. */
  lemma MinusScalarUndoesPlusScalar(a: seq<real>, s: real)
    ensures MinusScalar(PlusScalar(a, s), s) == a
    ensures MinusScalar(ScalarPlus(s, a), s) == a
  {
  }

  /** `scalar - array` is the negation of `array - scalar`. */
  lemma ScalarMinusIsNegatedMinusScalar(a: seq<real>, s: real)
    ensures ScalarMinus(s, a) == TimesScalar(MinusScalar(a, s), -1.0)
  {
  }

  /** Dividing by d undoes multiplying by d, in either operand order. */
  lemma DividedByUndoesTimesScalar(a: seq<real>, d: real)
    requires d != 0.0
    ensures DividedBy(TimesScalar(a, d), d) == a
    ensures DividedBy(ScalarTimes(d, a), d) == a
  {
    var r := DividedBy(TimesScalar(a, d), d);
    forall i | 0 <= i < |a|
      ensures r[i] == a[i]
    {
      assert r[i] * d == a[i] * d;
    }
  }
}
