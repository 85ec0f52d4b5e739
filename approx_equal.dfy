/** The one-sided approximate-equality tests of
    Sources/SwiftHBV/helpers/isAlmostEqual.swift. */
module ApproxEqual {

  /** The scalar test: the signed difference is below the accuracy. It is
      strict and one-sided. */
  predicate IsAlmostEqual(lhs: real, rhs: real, accuracy: real)
  {
    lhs - rhs < accuracy
  }

  /** Any lhs at or below rhs passes when the accuracy is positive, however
      far apart the two are, while the swapped comparison can fail. */
  lemma ScalarIsOneSided(lhs: real, rhs: real, accuracy: real)
    requires lhs <= rhs && accuracy > 0.0
    requires rhs - lhs >= accuracy
    ensures IsAlmostEqual(lhs, rhs, accuracy)
    ensures !IsAlmostEqual(rhs, lhs, accuracy)
  {
  }

  /** The free array function: false on a length mismatch, otherwise the
      early-exit loop over the scalar test. */
  function ArraysAlmostEqual(lhs: seq<real>, rhs: seq<real>, accuracy: real): (r: bool)
    ensures r <==> |lhs| == |rhs| &&
                   forall i :: 0 <= i < |lhs| ==> IsAlmostEqual(lhs[i], rhs[i], accuracy)
  {
    |lhs| == |rhs| && StrictPairsFrom(lhs, rhs, accuracy, 0)
  }

  /** The loop of the free array function from index i on. */
  function StrictPairsFrom(lhs: seq<real>, rhs: seq<real>, accuracy: real, i: nat): (r: bool)
    requires |lhs| == |rhs| && i <= |lhs|
    ensures r <==> forall k :: i <= k < |lhs| ==> IsAlmostEqual(lhs[k], rhs[k], accuracy)
    decreases |lhs| - i
  {
    if i == |lhs| then true
    else if !IsAlmostEqual(lhs[i], rhs[i], accuracy) then false
    else StrictPairsFrom(lhs, rhs, accuracy, i + 1)
  }

  /** The `Array` extension: false on a length mismatch, otherwise every
      difference is at most the accuracy (non-strict). */
  function ExtensionAlmostEqual(lhs: seq<real>, rhs: seq<real>, accuracy: real): (r: bool)
    ensures r <==> |lhs| == |rhs| &&
                   forall i :: 0 <= i < |lhs| ==> lhs[i] - rhs[i] <= accuracy
  {
    |lhs| == |rhs| && NonStrictPairsFrom(lhs, rhs, accuracy, 0)
  }

  /** The loop of the `Array` extension from index i on. */
  function NonStrictPairsFrom(lhs: seq<real>, rhs: seq<real>, accuracy: real, i: nat): (r: bool)
    requires |lhs| == |rhs| && i <= |lhs|
    ensures r <==> forall k :: i <= k < |lhs| ==> lhs[k] - rhs[k] <= accuracy
    decreases |lhs| - i
  {
    if i == |lhs| then true
    else if lhs[i] - rhs[i] > accuracy then false
    else NonStrictPairsFrom(lhs, rhs, accuracy, i + 1)
  }

  /** Whatever passes the free function passes the extension. */
  lemma StrictImpliesNonStrict(lhs: seq<real>, rhs: seq<real>, accuracy: real)
    requires ArraysAlmostEqual(lhs, rhs, accuracy)
    ensures ExtensionAlmostEqual(lhs, rhs, accuracy)
  {
  }

  /** The two array tests differ at the boundary: a difference exactly equal
      to the accuracy passes the extension but not the free function. */
  lemma BoundaryDiffers()
    ensures ExtensionAlmostEqual([1.0], [0.0], 1.0)
    ensures !ArraysAlmostEqual([1.0], [0.0], 1.0)
  {
    assert !IsAlmostEqual([1.0][0], [0.0][0], 1.0);
  }

  /** An array compared with itself passes for any positive accuracy, so a
      comparison of a value with itself says nothing. */
  lemma SelfComparisonPasses(a: seq<real>, accuracy: real)
    requires accuracy > 0.0
    ensures ArraysAlmostEqual(a, a, accuracy)
    ensures ExtensionAlmostEqual(a, a, accuracy)
  {
  }

  /** Arrays of different lengths never compare equal. */
  lemma LengthMismatchFails(lhs: seq<real>, rhs: seq<real>, accuracy: real)
    requires |lhs| != |rhs|
    ensures !ArraysAlmostEqual(lhs, rhs, accuracy)
    ensures !ExtensionAlmostEqual(lhs, rhs, accuracy)
  {
  }
}
