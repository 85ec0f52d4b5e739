/** Sum, mean, sample variance and cumulative sum over arrays of reals
    (Sources/SwiftHBV/helpers/mathFunctions.swift). */
module MathFunctions {
  import opened Helpers

  /** The standard library's `max` and `min` on two values. */
  function Max(a: real, b: real): real
  {
    if a < b then b else a
  }

  function Min(a: real, b: real): real
  {
    if b < a then b else a
  }

  /** `max` is one of its arguments and at least both; `min` is one of its
      arguments and at most both. */
  lemma MaxMinBounds(a: real, b: real)
    ensures (Max(a, b) == a || Max(a, b) == b) && a <= Max(a, b) && b <= Max(a, b)
    ensures (Min(a, b) == a || Min(a, b) == b) && Min(a, b) <= a && Min(a, b) <= b
  {
  }

  /** `array.reduce(0, +)`: a left fold of `+` starting from zero. */
  function Sum(a: seq<real>): real
  {
    if |a| == 0 then 0.0 else Sum(a[..|a| - 1]) + a[|a| - 1]
  }

  lemma SumAppend(a: seq<real>, x: real)
    ensures Sum(a + [x]) == Sum(a) + x
  {
    assert (a + [x])[..|a|] == a;
  }

  /** Sum distributes over concatenation. */
  lemma {:induction false} SumConcat(a: seq<real>, b: seq<real>)
    ensures Sum(a + b) == Sum(a) + Sum(b)
    decreases |b|
  {
    if |b| == 0 {
      assert a + b == a;
    } else {
      var b' := b[..|b| - 1];
      assert a + b == (a + b') + [b[|b| - 1]];
      assert b == b' + [b[|b| - 1]];
      SumAppend(a + b', b[|b| - 1]);
      SumAppend(b', b[|b| - 1]);
      SumConcat(a, b');
    }
  }

  /** A sum of non-negative terms is non-negative. */
  lemma {:induction false} SumNonNegative(a: seq<real>)
    requires forall i :: 0 <= i < |a| ==> a[i] >= 0.0
    ensures Sum(a) >= 0.0
  {
    if |a| > 0 {
      SumNonNegative(a[..|a| - 1]);
    }
  }

  /** A sum of non-negative terms is non-negative, and zero when every
      term is. */
  lemma SumOfNonNegatives(a: seq<real>)
    requires forall i :: 0 <= i < |a| ==> a[i] >= 0.0
    ensures Sum(a) >= 0.0
    ensures (forall i :: 0 <= i < |a| ==> a[i] == 0.0) ==> Sum(a) == 0.0
  {
    SumNonNegative(a);
    if forall i :: 0 <= i < |a| ==> a[i] == 0.0 {
      SumZeros(a);
    }
  }

  /** A sum of zeros is zero. */
  lemma {:induction false} SumZeros(a: seq<real>)
    requires forall i :: 0 <= i < |a| ==> a[i] == 0.0
    ensures Sum(a) == 0.0
  {
    if |a| > 0 {
      SumZeros(a[..|a| - 1]);
    }
  }

  /** Sums of pointwise-equal sequences agree only through their elements:
      a sum of `n` copies of `c` is `n * c`. */
  lemma {:induction false} SumConstant(a: seq<real>, c: real)
    requires forall i :: 0 <= i < |a| ==> a[i] == c
    ensures Sum(a) == (|a| as real) * c
  {
    if |a| > 0 {
      SumConstant(a[..|a| - 1], c);
    }
  }

  /** Sum is linear in pointwise addition. */
  lemma {:induction false} SumPointwiseAdd(a: seq<real>, b: seq<real>, c: seq<real>)
    requires |a| == |b| == |c|
    requires forall i :: 0 <= i < |c| ==> c[i] == a[i] + b[i]
    ensures Sum(c) == Sum(a) + Sum(b)
  {
    if |c| > 0 {
      SumPointwiseAdd(a[..|a| - 1], b[..|b| - 1], c[..|c| - 1]);
    }
  }

  /** Sum is homogeneous: scaling every term scales the sum. */
  lemma {:induction false} SumScaled(a: seq<real>, k: real, c: seq<real>)
    requires |a| == |c|
    requires forall i :: 0 <= i < |c| ==> c[i] == k * a[i]
    ensures Sum(c) == k * Sum(a)
  {
    if |c| > 0 {
      SumScaled(a[..|a| - 1], k, c[..|c| - 1]);
    }
  }

  /** `mean`: zero on an empty array, otherwise the sum over the count. */
  function Mean(a: seq<real>): (r: real)
    ensures |a| == 0 ==> r == 0.0
    ensures |a| > 0 ==> r * (|a| as real) == Sum(a)
  {
    if |a| == 0 then 0.0 else Sum(a) / (|a| as real)
  }

  /** The mean of a constant array is that constant. */
  lemma MeanOfConstant(a: seq<real>, c: real)
    requires |a| > 0
    requires forall i :: 0 <= i < |a| ==> a[i] == c
    ensures Mean(a) == c
  {
    SumConstant(a, c);
  }

  /** The mean of non-negative values is non-negative. */
  lemma MeanNonNegative(a: seq<real>)
    requires forall i :: 0 <= i < |a| ==> a[i] >= 0.0
    ensures Mean(a) >= 0.0
  {
    SumNonNegative(a);
  }

  /** Integers converted to reals. */
  function AsReals(a: seq<int>): (r: seq<real>)
    ensures |r| == |a|
    ensures forall i :: 0 <= i < |a| ==> r[i] == a[i] as real
  {
    seq(|a|, i requires 0 <= i < |a| => a[i] as real)
  }

  /** `mean` of integers: the integer sum converted to Double, over the count. */
  function MeanOfInts(a: seq<int>): (r: real)
    ensures r == Mean(AsReals(a))
  {
    if |a| == 0 then 0.0 else (SumOfInts(a) as real) / (|a| as real)
  }

  /** `sum` of integers, a left fold of `+` from zero. */
  function SumOfInts(a: seq<int>): (r: int)
    ensures r as real == Sum(AsReals(a))
  {
    if |a| == 0 then 0
    else
      assert AsReals(a)[..|a| - 1] == AsReals(a[..|a| - 1]);
      SumOfInts(a[..|a| - 1]) + a[|a| - 1]
  }

  /** `(x - m)^2` for every element, the terms of the sample variance. */
  function SquaredDeviations(a: seq<real>, m: real): (r: seq<real>)
    ensures |r| == |a|
    ensures forall i :: 0 <= i < |a| ==> r[i] == (a[i] - m) * (a[i] - m)
  {
    seq(|a|, i requires 0 <= i < |a| => (a[i] - m) * (a[i] - m))
  }

  /** `stDev`: despite its name, the sample variance
      `(1 / (n - 1)) * sum((x - mean)^2)`, with no square root. A single
      element divides by zero, which is left out; an empty array gives
      `(1 / -1) * 0`, which is zero. */
  function StDev(a: seq<real>): (r: real)
    requires |a| != 1
    ensures r >= 0.0
    ensures (forall i :: 0 <= i < |a| ==> a[i] == a[0]) ==> r == 0.0
  {
    var d := SquaredDeviations(a, Mean(a));
    SquaredDeviationsFacts(a);
    (1.0 / ((|a| - 1) as real)) * Sum(d)
  }

  /** `stDev` of integers: the same computation on the converted values. */
  function StDevOfInts(a: seq<int>): (r: real)
    requires |a| != 1
    ensures r == StDev(AsReals(a))
  {
    var m := MeanOfInts(a);
    (1.0 / ((|a| - 1) as real)) * Sum(SquaredDeviations(AsReals(a), m))
  }

  /** A square is never negative. */
  lemma SquareNonNegative(e: real)
    ensures e * e >= 0.0
  {
    if e < 0.0 {
      assert e * e == (-e) * (-e);
    }
  }

  lemma SquaredDeviationsFacts(a: seq<real>)
    ensures Sum(SquaredDeviations(a, Mean(a))) >= 0.0
    ensures (forall i :: 0 <= i < |a| ==> a[i] == a[0]) ==> Sum(SquaredDeviations(a, Mean(a))) == 0.0
  {
    var d := SquaredDeviations(a, Mean(a));
    forall i | 0 <= i < |d|
      ensures d[i] >= 0.0
    {
      SquareNonNegative(a[i] - Mean(a));
    }
    SumNonNegative(d);
    if |a| > 0 && forall i :: 0 <= i < |a| ==> a[i] == a[0] {
      var c := a[0];
      assert forall i :: 0 <= i < |a| ==> a[i] == c;
      MeanOfConstant(a, c);
      SumZeros(d);
    }
  }

  /** `cumsum`: the running sums, `array.scan(0, +)` without its leading zero. */
  function Cumsum(a: seq<real>): (r: seq<real>)
    ensures |r| == |a|
    ensures forall i :: 0 <= i < |a| ==> r[i] == Sum(a[..i + 1])
    ensures |a| > 0 ==> r[|a| - 1] == Sum(a)
  {
    var s := Scan(a, 0.0, (x: real, y: real) => x + y);
    ScanOfAddIsPrefixSums(a, s);
    assert |a| > 0 ==> a[..|a|] == a;
    s[1..]
  }

  lemma {:induction false} ScanOfAddIsPrefixSums(a: seq<real>, s: seq<real>)
    requires s == Scan(a, 0.0, (x: real, y: real) => x + y)
    ensures forall i :: 0 <= i <= |a| ==> s[i] == Sum(a[..i])
  {
    forall i | 0 <= i <= |a|
      ensures s[i] == Sum(a[..i])
    {
      PrefixSum(a, s, i);
    }
  }

  lemma {:induction false} PrefixSum(a: seq<real>, s: seq<real>, i: nat)
    requires s == Scan(a, 0.0, (x: real, y: real) => x + y)
    requires i <= |a|
    ensures s[i] == Sum(a[..i])
  {
    if i > 0 {
      PrefixSum(a, s, i - 1);
      assert a[..i][..i - 1] == a[..i - 1];
    }
  }

  /** Splitting a prefix off: the running sum of the whole array at
      position `k + i` is the running sum of the tail at `i` plus the sum of
      the prefix. */
  lemma CumsumOfTail(a: seq<real>, k: nat, i: nat)
    requires k + i < |a|
    ensures Cumsum(a)[k + i] == Sum(a[..k]) + Cumsum(a[k..])[i]
  {
    assert a[..k + i + 1] == a[..k] + a[k..][..i + 1];
    SumConcat(a[..k], a[k..][..i + 1]);
  }
}
