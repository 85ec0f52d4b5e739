/** Sum and mean over a list of vectors (the simplex centroid) and the
    two approximate-equality tests of Sources/SwiftHBV/helpers/VectorUtils.swift. */
module VectorUtils {
  import opened MathFunctions
  import opened Vectors

  /** All vectors have dimension p. */
  predicate AllOfDimension(vs: seq<Vector>, p: nat)
  {
    forall i :: 0 <= i < |vs| ==> vs[i].Dimensions() == p
  }

  /** Coordinate j of every vector, in list order. */
  function Column(vs: seq<Vector>, j: nat): (c: seq<real>)
    requires forall i :: 0 <= i < |vs| ==> j < vs[i].Dimensions()
    ensures |c| == |vs|
    ensures forall i :: 0 <= i < |vs| ==> j < vs[i].Dimensions() && c[i] == vs[i].vector[j]
  {
    seq(|vs|, i requires 0 <= i < |vs| && j < vs[i].Dimensions() => vs[i].vector[j])
  }

  /** `sum(vectors)`: a reduce of vector addition that starts from a zero
      vector of the first vector's dimension. An empty list, a first vector
      of no dimension and a vector of another dimension are all fatal. */
  function SumVectors(vs: seq<Vector>): (r: Vector)
    requires |vs| > 0 && vs[0].Dimensions() > 0
    requires AllOfDimension(vs, vs[0].Dimensions())
    ensures r.Dimensions() == vs[0].Dimensions()
    ensures forall j :: 0 <= j < r.Dimensions() ==> r.vector[j] == Sum(Column(vs, j))
  {
    assert vs[..|vs|] == vs;
    SumPrefix(vs, |vs|, vs[0].Dimensions())
  }

  /** The partial sum after the first n vectors. */
  function SumPrefix(vs: seq<Vector>, n: nat, p: nat): (r: Vector)
    requires n <= |vs| && p > 0 && AllOfDimension(vs, p)
    ensures r.Dimensions() == p
    ensures forall j :: 0 <= j < p ==> r.vector[j] == Sum(Column(vs[..n], j))
  {
    if n == 0 then RepeatedValue(0.0, p)
    else
      var partial := SumPrefix(vs, n - 1, p);
      ColumnOfPrefix(vs, n, p);
      Plus(partial, vs[n - 1])
  }

  lemma ColumnOfPrefix(vs: seq<Vector>, n: nat, p: nat)
    requires 0 < n <= |vs| && AllOfDimension(vs, p)
    ensures forall j :: 0 <= j < p ==>
      Sum(Column(vs[..n], j)) == Sum(Column(vs[..n - 1], j)) + vs[n - 1].vector[j]
  {
    forall j | 0 <= j < p
      ensures Sum(Column(vs[..n], j)) == Sum(Column(vs[..n - 1], j)) + vs[n - 1].vector[j]
    {
      var c := Column(vs[..n], j);
      assert c[..n - 1] == Column(vs[..n - 1], j);
    }
  }

  /** `mean(vectors)`: the sum scaled by one over the count; coordinate j
      is the mean of coordinate j over the list. This is the centroid the
      simplex search reflects through. */
  function MeanVectors(vs: seq<Vector>): (r: Vector)
    requires |vs| > 0 && vs[0].Dimensions() > 0
    requires AllOfDimension(vs, vs[0].Dimensions())
    ensures r.Dimensions() == vs[0].Dimensions()
    ensures forall j :: 0 <= j < r.Dimensions() ==> r.vector[j] == Mean(Column(vs, j))
  {
    Scaled(SumVectors(vs), 1.0 / (|vs| as real))
  }

  /** The mean of a single vector is that vector. */
  lemma MeanOfOneVector(v: Vector)
    requires v.Dimensions() > 0
    ensures MeanVectors([v]) == v
  {
    var m := MeanVectors([v]);
    forall j | 0 <= j < v.Dimensions()
      ensures m.vector[j] == v.vector[j]
    {
      MeanOfConstant(Column([v], j), v.vector[j]);
    }
    assert m.vector == v.vector;
  }

  /** The two-vector `isAlmostEqual`: delegates to `Vector.isAlmostEqual`. */
  function VectorsAlmostEqual(lhs: Vector, rhs: Vector, accuracy: real): (r: bool)
    ensures r == Vectors.IsAlmostEqual(lhs, rhs, accuracy)
  {
    lhs.Dimensions() == rhs.Dimensions() && CloseFrom(lhs, rhs, accuracy, 0)
  }

  /** The list `isAlmostEqual`: false on a count mismatch, otherwise the
      early-exit loop testing `rhs[i].isAlmostEqual(lhs[i])`, with the
      arguments in reverse order. */
  function ListsAlmostEqual(lhs: seq<Vector>, rhs: seq<Vector>, accuracy: real): (r: bool)
    ensures r <==> |lhs| == |rhs| &&
                   forall i :: 0 <= i < |lhs| ==> Vectors.IsAlmostEqual(rhs[i], lhs[i], accuracy)
  {
    |lhs| == |rhs| && ListCloseFrom(lhs, rhs, accuracy, 0)
  }

  function ListCloseFrom(lhs: seq<Vector>, rhs: seq<Vector>, accuracy: real, i: nat): (r: bool)
    requires |lhs| == |rhs| && i <= |lhs|
    ensures r <==> forall k :: i <= k < |lhs| ==> Vectors.IsAlmostEqual(rhs[k], lhs[k], accuracy)
    decreases |lhs| - i
  {
    if i == |lhs| then true
    else if !Vectors.IsAlmostEqual(rhs[i], lhs[i], accuracy) then false
    else ListCloseFrom(lhs, rhs, accuracy, i + 1)
  }

  /** Because of the reversed order, a list lying far above the other
      passes: the test bounds rhs - lhs, not lhs - rhs. */
  lemma ListTestIsReversed()
    ensures ListsAlmostEqual([Vector([10.0])], [Vector([0.0])], 0.1)
    ensures !VectorsAlmostEqual(Vector([10.0]), Vector([0.0]), 0.1)
  {
    assert Vectors.IsAlmostEqual(Vector([0.0]), Vector([10.0]), 0.1);
  }
}
