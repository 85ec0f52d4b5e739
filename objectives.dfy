/** Goodness-of-fit measures of Sources/SwiftHBV/helpers/objectiveFunctions.swift:
    Nash–Sutcliffe efficiency (called R2 there), a normalized absolute error,
    and the summed and averaged squared and absolute errors they are built
    from. `pow(x, 2.0)` is the exact square `x * x`. */
module Objectives {
  import opened MathFunctions
  import opened MathOperators
  import opened Helpers
  import opened FloatingPoint

  /** `zip(array1, array2).map(-)`: pairwise differences up to the shorter
      length. */
  function Differences(a: seq<real>, b: seq<real>): (r: seq<real>)
    ensures |r| == |Zip(a, b)|
    ensures forall i :: 0 <= i < |r| ==> r[i] == a[i] - b[i]
  {
    var n := if |a| <= |b| then |a| else |b|;
    seq(n, i requires 0 <= i < n => a[i] - b[i])
  }

  /** `pow(array, 2.0)`. */
  function Squares(a: seq<real>): (r: seq<real>)
    ensures |r| == |a|
    ensures forall i :: 0 <= i < |a| ==> r[i] == a[i] * a[i] && r[i] >= 0.0
  {
    seq(|a|, i requires 0 <= i < |a| => a[i] * a[i])
  }

  function AbsReal(x: real): real
  {
    if x < 0.0 then -x else x
  }

  /** `abs(array)`. */
  function Abs(a: seq<real>): (r: seq<real>)
    ensures |r| == |a|
    ensures forall i :: 0 <= i < |a| ==> r[i] >= 0.0 && (r[i] == a[i] || r[i] == -a[i])
  {
    seq(|a|, i requires 0 <= i < |a| => AbsReal(a[i]))
  }

  /** `squaredError(array1, array2)`: despite its doc-comment a sum, not a
      mean. It is never negative and is zero for identical arrays. */
  function SquaredError(a: seq<real>, b: seq<real>): (r: real)
    ensures r >= 0.0
    ensures a == b ==> r == 0.0
  {
    var d := Squares(Differences(a, b));
    SumOfNonNegatives(d);
    Sum(d)
  }

  /** `squaredError(array, num)`: the summed squared deviation from num. */
  function SquaredErrorTo(a: seq<real>, num: real): (r: real)
    ensures r >= 0.0
    ensures (forall i :: 0 <= i < |a| ==> a[i] == num) ==> r == 0.0
  {
    var d := Squares(MinusScalar(a, num));
    SumOfNonNegatives(d);
    Sum(d)
  }

  /** `squaredError(num, array)`: the same value as with the arguments
      the other way round. */
  function SquaredErrorFrom(num: real, a: seq<real>): (r: real)
    ensures r == SquaredErrorTo(a, num)
  {
    Sum(Squares(MinusScalar(a, num)))
  }

  /** `absoluteError(array1, array2)`: summed absolute differences. */
  function AbsoluteError(a: seq<real>, b: seq<real>): (r: real)
    ensures r >= 0.0
    ensures a == b ==> r == 0.0
  {
    var d := Abs(Differences(a, b));
    SumOfNonNegatives(d);
    Sum(d)
  }

  /** `absoluteError(array, num)`. */
  function AbsoluteErrorTo(a: seq<real>, num: real): (r: real)
    ensures r >= 0.0
    ensures (forall i :: 0 <= i < |a| ==> a[i] == num) ==> r == 0.0
  {
    var d := Abs(MinusScalar(a, num));
    SumOfNonNegatives(d);
    Sum(d)
  }

  /** `absoluteError(num, array)`. */
  function AbsoluteErrorFrom(num: real, a: seq<real>): (r: real)
    ensures r == AbsoluteErrorTo(a, num)
  {
    Sum(Abs(MinusScalar(a, num)))
  }

  /** The absolute error does not depend on the order of its arrays. */
  lemma AbsoluteErrorSymmetric(a: seq<real>, b: seq<real>)
    ensures AbsoluteError(a, b) == AbsoluteError(b, a)
  {
    assert Abs(Differences(a, b)) == Abs(Differences(b, a));
  }

  /** Predicting the constant num costs the summed deviation from num. */
  lemma ConstantPredictionErrors(obs: seq<real>, num: real)
    ensures SquaredError(seq(|obs|, i => num), obs) == SquaredErrorTo(obs, num)
    ensures AbsoluteError(seq(|obs|, i => num), obs) == AbsoluteErrorTo(obs, num)
  {
    var sim := seq(|obs|, i => num);
    forall k | 0 <= k < |obs|
      ensures Squares(Differences(sim, obs))[k] == Squares(MinusScalar(obs, num))[k]
    {
      assert (num - obs[k]) * (num - obs[k]) == (obs[k] - num) * (obs[k] - num);
    }
    assert Squares(Differences(sim, obs)) == Squares(MinusScalar(obs, num));
    assert Abs(Differences(sim, obs)) == Abs(MinusScalar(obs, num));
  }

  /** A sum of non-negative terms with one positive term is positive. */
  lemma {:induction false} SumPositive(a: seq<real>, k: nat)
    requires k < |a|
    requires forall i :: 0 <= i < |a| ==> a[i] >= 0.0
    requires a[k] > 0.0
    ensures Sum(a) > 0.0
  {
    if k == |a| - 1 {
      SumNonNegative(a[..|a| - 1]);
    } else {
      SumPositive(a[..|a| - 1], k);
    }
  }

  lemma SquarePositive(e: real)
    requires e != 0.0
    ensures e * e > 0.0
  {
    if e < 0.0 {
      assert (-e) * (-e) == e * e;
    }
  }

  /** Observations that are not all equal have a positive spread about
      their mean, so both normalizing denominators are non-zero. */
  lemma NonConstantHasSpread(obs: seq<real>, i: nat, j: nat)
    requires i < |obs| && j < |obs| && obs[i] != obs[j]
    ensures SquaredErrorTo(obs, Mean(obs)) > 0.0
    ensures AbsoluteErrorTo(obs, Mean(obs)) > 0.0
  {
    var m := Mean(obs);
    var k := if obs[i] != m then i else j;
    var e := obs[k] - m;
    assert e != 0.0;
    SquarePositive(e);
    var sq := Squares(MinusScalar(obs, m));
    calc {
      sq[k];
      MinusScalar(obs, m)[k] * MinusScalar(obs, m)[k];
      e * e;
    >
      0.0;
    }
    SumPositive(sq, k);
    SumPositive(Abs(MinusScalar(obs, m)), k);
  }

  /** `R2`: the Nash–Sutcliffe efficiency `1 - SSE(sim, obs) / SSE(obs, mean)`.
      When the observations spread about their mean it is finite, at most
      1, and exactly 1 for a perfect simulation. When they do not (a
      constant series, or none), the division by zero gives NaN for a
      perfect simulation and minus infinity otherwise. */
  function R2(sim: seq<real>, obs: seq<real>): (r: Float)
    ensures SquaredErrorTo(obs, Mean(obs)) != 0.0 ==>
      r.Finite? && r.value <= 1.0 && (r.value == 1.0 <==> SquaredError(sim, obs) == 0.0)
    ensures SquaredErrorTo(obs, Mean(obs)) == 0.0 ==>
      (r.NaN? <==> SquaredError(sim, obs) == 0.0) && (r.MinusInfinity? <==> SquaredError(sim, obs) != 0.0)
    ensures sim == obs ==> r == Finite(1.0) || r.NaN?
  {
    Difference(1.0, Quotient(SquaredError(sim, obs), SquaredErrorTo(obs, Mean(obs))))
  }

  /** `R2` with the observed mean passed in; with the true mean it is the
      two-argument form. The same two cases arise with the spread about
      the given mean. */
  function R2WithMean(sim: seq<real>, obs: seq<real>, obsMean: real): (r: Float)
    ensures obsMean == Mean(obs) ==> r == R2(sim, obs)
    ensures SquaredErrorTo(obs, obsMean) != 0.0 ==>
      r.Finite? && r.value <= 1.0 && (r.value == 1.0 <==> SquaredError(sim, obs) == 0.0)
    ensures SquaredErrorTo(obs, obsMean) == 0.0 ==>
      (r.NaN? <==> SquaredError(sim, obs) == 0.0) && (r.MinusInfinity? <==> SquaredError(sim, obs) != 0.0)
  {
    Difference(1.0, Quotient(SquaredError(sim, obs), SquaredErrorTo(obs, obsMean)))
  }

  /** The trivial prediction of the observed mean scores exactly 0, or NaN
      when the observations do not spread about their mean. */
  lemma R2OfMeanPrediction(obs: seq<real>)
    ensures SquaredErrorTo(obs, Mean(obs)) != 0.0 ==> R2(seq(|obs|, i => Mean(obs)), obs) == Finite(0.0)
    ensures SquaredErrorTo(obs, Mean(obs)) == 0.0 ==> R2(seq(|obs|, i => Mean(obs)), obs) == NaN
  {
    var sim := seq(|obs|, i => Mean(obs));
    ConstantPredictionErrors(obs, Mean(obs));
    var d := SquaredErrorTo(obs, Mean(obs));
    assert SquaredError(sim, obs) == d;
    SelfRatioScore(d);
    assert R2(sim, obs) == Difference(1.0, Quotient(d, d));
  }

  /** One minus a ratio of a value to itself: 0, or NaN for `0 / 0`. */
  lemma SelfRatioScore(x: real)
    ensures x != 0.0 ==> Difference(1.0, Quotient(x, x)) == Finite(0.0)
    ensures x == 0.0 ==> Difference(1.0, Quotient(x, x)) == NaN
  {
  }

  /** `normalizedAbsoluteError`: `1 - AE(sim, obs) / AE(obs, mean)`. When
      the observations spread about their mean it is finite, at most 1,
      and exactly 1 for a perfect simulation; otherwise it is NaN for a
      perfect simulation and minus infinity for any other. */
  function NormalizedAbsoluteError(sim: seq<real>, obs: seq<real>): (r: Float)
    ensures AbsoluteErrorTo(obs, Mean(obs)) != 0.0 ==>
      r.Finite? && r.value <= 1.0 && (r.value == 1.0 <==> AbsoluteError(sim, obs) == 0.0)
    ensures AbsoluteErrorTo(obs, Mean(obs)) == 0.0 ==>
      (r.NaN? <==> AbsoluteError(sim, obs) == 0.0) && (r.MinusInfinity? <==> AbsoluteError(sim, obs) != 0.0)
    ensures sim == obs ==> r == Finite(1.0) || r.NaN?
  {
    Difference(1.0, Quotient(AbsoluteError(sim, obs), AbsoluteErrorTo(obs, Mean(obs))))
  }

  /** `normalizedAbsoluteError` with the observed mean passed in. */
  function NormalizedAbsoluteErrorWithMean(sim: seq<real>, obs: seq<real>, obsMean: real): (r: Float)
    ensures obsMean == Mean(obs) ==> r == NormalizedAbsoluteError(sim, obs)
    ensures AbsoluteErrorTo(obs, obsMean) != 0.0 ==>
      r.Finite? && r.value <= 1.0 && (r.value == 1.0 <==> AbsoluteError(sim, obs) == 0.0)
    ensures AbsoluteErrorTo(obs, obsMean) == 0.0 ==>
      (r.NaN? <==> AbsoluteError(sim, obs) == 0.0) && (r.MinusInfinity? <==> AbsoluteError(sim, obs) != 0.0)
  {
    Difference(1.0, Quotient(AbsoluteError(sim, obs), AbsoluteErrorTo(obs, obsMean)))
  }

  /** The trivial prediction of the observed mean scores exactly 0, or NaN
      when the observations do not spread about their mean. */
  lemma NormalizedAbsoluteErrorOfMeanPrediction(obs: seq<real>)
    ensures AbsoluteErrorTo(obs, Mean(obs)) != 0.0 ==>
      NormalizedAbsoluteError(seq(|obs|, i => Mean(obs)), obs) == Finite(0.0)
    ensures AbsoluteErrorTo(obs, Mean(obs)) == 0.0 ==>
      NormalizedAbsoluteError(seq(|obs|, i => Mean(obs)), obs) == NaN
  {
    var sim := seq(|obs|, i => Mean(obs));
    ConstantPredictionErrors(obs, Mean(obs));
    var d := AbsoluteErrorTo(obs, Mean(obs));
    assert AbsoluteError(sim, obs) == d;
    SelfRatioScore(d);
    assert NormalizedAbsoluteError(sim, obs) == Difference(1.0, Quotient(d, d));
  }

  /** A constant series has no spread about its mean, so both scores
      against it divide by zero. */
  lemma ConstantHasNoSpread(obs: seq<real>, c: real)
    requires forall i :: 0 <= i < |obs| ==> obs[i] == c
    ensures SquaredErrorTo(obs, Mean(obs)) == 0.0
    ensures AbsoluteErrorTo(obs, Mean(obs)) == 0.0
  {
    if |obs| > 0 {
      MeanOfConstant(obs, c);
    }
  }

  /** `mse(array1, array2)`: the squared error averaged over the zipped
      length; zero on empty input. */
  function Mse(a: seq<real>, b: seq<real>): (r: real)
    ensures r >= 0.0
    ensures |Zip(a, b)| == 0 ==> r == 0.0
    ensures r * (|Zip(a, b)| as real) == SquaredError(a, b)
  {
    var d := Squares(Differences(a, b));
    MeanNonNegative(d);
    Mean(d)
  }

  /** `mse(array, num)`. */
  function MseTo(a: seq<real>, num: real): (r: real)
    ensures r >= 0.0
    ensures r * (|a| as real) == SquaredErrorTo(a, num)
  {
    var d := Squares(MinusScalar(a, num));
    MeanNonNegative(d);
    Mean(d)
  }

  /** `mse(num, array)`. */
  function MseFrom(num: real, a: seq<real>): (r: real)
    ensures r == MseTo(a, num)
  {
    Mean(Squares(MinusScalar(a, num)))
  }

  /** `mae(array1, array2)`: the absolute error averaged over the zipped
      length; zero on empty input. */
  function Mae(a: seq<real>, b: seq<real>): (r: real)
    ensures r >= 0.0
    ensures |Zip(a, b)| == 0 ==> r == 0.0
    ensures r * (|Zip(a, b)| as real) == AbsoluteError(a, b)
  {
    var d := Abs(Differences(a, b));
    MeanNonNegative(d);
    Mean(d)
  }

  /** `mae(array, num)`. */
  function MaeTo(a: seq<real>, num: real): (r: real)
    ensures r >= 0.0
    ensures r * (|a| as real) == AbsoluteErrorTo(a, num)
  {
    var d := Abs(MinusScalar(a, num));
    MeanNonNegative(d);
    Mean(d)
  }

  /** `mae(num, array)`. */
  function MaeFrom(num: real, a: seq<real>): (r: real)
    ensures r == MaeTo(a, num)
  {
    Mean(Abs(MinusScalar(a, num)))
  }
}
