/** The fixed-size `Vector` value type of Sources/SwiftHBV/helpers/Vector.swift:
    its constructors, subscript, one-sided `isAlmostEqual` and the
    elementwise operators, which fill a copy of the left operand in a loop. */
module Vectors {

  /** A Swift `Vector<Double>`: a struct whose stored `dimensions` always
      equals the length of its backing array. */
  datatype Vector = Vector(vector: seq<real>)
  {
    function Dimensions(): nat
    {
      |vector|
    }

    /** `indexIsValidForRow`. */
    predicate IndexIsValid(i: int)
    {
      0 <= i < Dimensions()
    }
  }

  /** `init(repeatedValue:dimensions:)`; a dimension of zero or less is fatal. */
  function RepeatedValue(value: real, dimensions: int): (v: Vector)
    requires dimensions > 0
    ensures v.Dimensions() == dimensions
    ensures forall i :: 0 <= i < dimensions ==> v.vector[i] == value
  {
    Vector(seq(dimensions, i => value))
  }

  /** `init(_ array:)`; an empty array is fatal. */
  function FromArray(a: seq<real>): (v: Vector)
    requires |a| > 0
    ensures v.Dimensions() == |a| && v.vector == a
  {
    Vector(a)
  }

  /** The subscript getter; an invalid index is fatal. */
  function Get(v: Vector, i: int): (x: real)
    requires v.IndexIsValid(i)
    ensures x == v.vector[i]
  {
    v.vector[i]
  }

  /** The subscript setter on a value-type struct: the vector after
      `v[i] = x`. Only coordinate i changes. */
  function Set(v: Vector, i: int, x: real): (w: Vector)
    requires v.IndexIsValid(i)
    ensures w.Dimensions() == v.Dimensions()
    ensures Get(w, i) == x
    ensures forall j :: 0 <= j < v.Dimensions() && j != i ==> Get(w, j) == Get(v, j)
  {
    Vector(v.vector[i := x])
  }

  /** Writing back what was read leaves the vector as it was. */
  lemma SetGetIdentity(v: Vector, i: int)
    requires v.IndexIsValid(i)
    ensures Set(v, i, Get(v, i)) == v
  {
  }

  /** `Vector.isAlmostEqual`: false on a dimension mismatch, otherwise the
      early-exit loop that fails at the first self[i] - other[i] above the
      accuracy. */
  function IsAlmostEqual(self: Vector, other: Vector, accuracy: real): (r: bool)
    ensures r <==> self.Dimensions() == other.Dimensions() &&
                   forall i :: 0 <= i < self.Dimensions() ==> self.vector[i] - other.vector[i] <= accuracy
  {
    self.Dimensions() == other.Dimensions() && CloseFrom(self, other, accuracy, 0)
  }

  function CloseFrom(self: Vector, other: Vector, accuracy: real, i: nat): (r: bool)
    requires self.Dimensions() == other.Dimensions() && i <= self.Dimensions()
    ensures r <==> forall k :: i <= k < self.Dimensions() ==> self.vector[k] - other.vector[k] <= accuracy
    decreases self.Dimensions() - i
  {
    if i == self.Dimensions() then true
    else if self.vector[i] - other.vector[i] > accuracy then false
    else CloseFrom(self, other, accuracy, i + 1)
  }

  /** The test is one-sided: a vector far below another passes, the reverse
      comparison does not. */
  lemma IsAlmostEqualOneSided()
    ensures IsAlmostEqual(Vector([0.0]), Vector([10.0]), 0.1)
    ensures !IsAlmostEqual(Vector([10.0]), Vector([0.0]), 0.1)
  {
  }

  // Specification of the elementwise operators.

  function Plus(a: Vector, b: Vector): (r: Vector)
    requires a.Dimensions() == b.Dimensions()
    ensures r.Dimensions() == a.Dimensions()
    ensures forall i :: 0 <= i < a.Dimensions() ==> r.vector[i] == a.vector[i] + b.vector[i]
  {
    Vector(seq(a.Dimensions(), i requires 0 <= i < a.Dimensions() => a.vector[i] + b.vector[i]))
  }

  function Minus(a: Vector, b: Vector): (r: Vector)
    requires a.Dimensions() == b.Dimensions()
    ensures r.Dimensions() == a.Dimensions()
    ensures forall i :: 0 <= i < a.Dimensions() ==> r.vector[i] == a.vector[i] - b.vector[i]
  {
    Vector(seq(a.Dimensions(), i requires 0 <= i < a.Dimensions() => a.vector[i] - b.vector[i]))
  }

  function Times(a: Vector, b: Vector): (r: Vector)
    requires a.Dimensions() == b.Dimensions()
    ensures r.Dimensions() == a.Dimensions()
    ensures forall i :: 0 <= i < a.Dimensions() ==> r.vector[i] == a.vector[i] * b.vector[i]
  {
    Vector(seq(a.Dimensions(), i requires 0 <= i < a.Dimensions() => a.vector[i] * b.vector[i]))
  }

  function Shifted(v: Vector, s: real): (r: Vector)
    ensures r.Dimensions() == v.Dimensions()
    ensures forall i :: 0 <= i < v.Dimensions() ==> r.vector[i] == s + v.vector[i]
  {
    Vector(seq(v.Dimensions(), i requires 0 <= i < v.Dimensions() => s + v.vector[i]))
  }

  function Scaled(v: Vector, s: real): (r: Vector)
    ensures r.Dimensions() == v.Dimensions()
    ensures forall i :: 0 <= i < v.Dimensions() ==> r.vector[i] == s * v.vector[i]
  {
    Vector(seq(v.Dimensions(), i requires 0 <= i < v.Dimensions() => s * v.vector[i]))
  }

  /** Unary minus: scaling by -1 negates every coordinate. */
  function Negated(v: Vector): (r: Vector)
    ensures r.Dimensions() == v.Dimensions()
    ensures forall i :: 0 <= i < v.Dimensions() ==> r.vector[i] == -v.vector[i]
  {
    Scaled(v, -1.0)
  }

  /** Subtraction undoes addition. */
  lemma PlusMinusInverse(a: Vector, b: Vector)
    requires a.Dimensions() == b.Dimensions()
    ensures Minus(Plus(a, b), b) == a
  {
    assert Minus(Plus(a, b), b).vector == a.vector;
  }

  /** The elementwise product does not depend on the order of its
      operands. */
  lemma TimesCommutes(a: Vector, b: Vector)
    requires a.Dimensions() == b.Dimensions()
    ensures Times(a, b) == Times(b, a)
  {
    assert Times(a, b).vector == Times(b, a).vector;
  }

  /** Shifting by -s undoes shifting by s. */
  lemma ShiftedUndone(v: Vector, s: real)
    ensures Shifted(Shifted(v, s), -s) == v
  {
    assert Shifted(Shifted(v, s), -s).vector == v.vector;
  }

  /** Scaling by 1/s undoes scaling by a non-zero s. */
  lemma ScaledUndone(v: Vector, s: real)
    requires s != 0.0
    ensures Scaled(Scaled(v, s), 1.0 / s) == v
  {
    forall i | 0 <= i < v.Dimensions()
      ensures Scaled(Scaled(v, s), 1.0 / s).vector[i] == v.vector[i]
    {
      assert 1.0 / s * (s * v.vector[i]) == v.vector[i];
    }
    assert Scaled(Scaled(v, s), 1.0 / s).vector == v.vector;
  }

  /** Negating twice gives the vector back. */
  lemma NegatedInvolution(v: Vector)
    ensures Negated(Negated(v)) == v
  {
    assert Negated(Negated(v)).vector == v.vector;
  }

  // The operators as written: each fills a copy of the left operand.

  /** Vector + vector; a dimension mismatch is fatal. */
  method Add(lhs: Vector, rhs: Vector) returns (result: Vector)
    requires lhs.Dimensions() == rhs.Dimensions()
    ensures result == Plus(lhs, rhs)
    ensures forall i :: 0 <= i < lhs.Dimensions() ==> result.vector[i] == lhs.vector[i] + rhs.vector[i]
  {
    result := lhs;
    for i := 0 to lhs.Dimensions()
      invariant result.Dimensions() == lhs.Dimensions()
      invariant forall k :: 0 <= k < i ==> result.vector[k] == lhs.vector[k] + rhs.vector[k]
    {
      result := Set(result, i, Get(lhs, i) + Get(rhs, i));
    }
    assert result.vector == Plus(lhs, rhs).vector;
  }

  /** Vector + scalar: every coordinate becomes scalar + v[i]. */
  method AddScalar(lhs: Vector, scalar: real) returns (result: Vector)
    ensures result == Shifted(lhs, scalar)
    ensures result.Dimensions() == lhs.Dimensions()
    ensures forall i :: 0 <= i < lhs.Dimensions() ==> result.vector[i] == scalar + lhs.vector[i]
  {
    result := lhs;
    for i := 0 to lhs.Dimensions()
      invariant result.Dimensions() == lhs.Dimensions()
      invariant forall k :: 0 <= k < i ==> result.vector[k] == scalar + lhs.vector[k]
      invariant forall k :: i <= k < lhs.Dimensions() ==> result.vector[k] == lhs.vector[k]
    {
      result := Set(result, i, scalar + Get(result, i));
    }
    assert result.vector == Shifted(lhs, scalar).vector;
  }

  /** Scalar + vector: delegates to vector + scalar. */
  method ScalarAdd(lhs: real, rhs: Vector) returns (result: Vector)
    ensures result == Shifted(rhs, lhs)
    ensures forall i :: 0 <= i < rhs.Dimensions() ==> result.vector[i] == rhs.vector[i] + lhs
  {
    result := AddScalar(rhs, lhs);
  }

  /** Vector - vector; a dimension mismatch is fatal. */
  method Subtract(lhs: Vector, rhs: Vector) returns (result: Vector)
    requires lhs.Dimensions() == rhs.Dimensions()
    ensures result == Minus(lhs, rhs)
    ensures forall i :: 0 <= i < lhs.Dimensions() ==> result.vector[i] == lhs.vector[i] - rhs.vector[i]
  {
    result := lhs;
    for i := 0 to result.Dimensions()
      invariant result.Dimensions() == lhs.Dimensions()
      invariant forall k :: 0 <= k < i ==> result.vector[k] == lhs.vector[k] - rhs.vector[k]
    {
      result := Set(result, i, Get(lhs, i) - Get(rhs, i));
    }
    assert result.vector == Minus(lhs, rhs).vector;
  }

  /** Prefix negation of a vector: every coordinate times -1. */
  method Negate(m: Vector) returns (result: Vector)
    ensures result == Negated(m)
    ensures forall i :: 0 <= i < m.Dimensions() ==> result.vector[i] == -m.vector[i]
  {
    result := m;
    for i := 0 to result.Dimensions()
      invariant result.Dimensions() == m.Dimensions()
      invariant forall k :: 0 <= k < i ==> result.vector[k] == -1.0 * m.vector[k]
      invariant forall k :: i <= k < m.Dimensions() ==> result.vector[k] == m.vector[k]
    {
      result := Set(result, i, -1.0 * Get(result, i));
    }
    assert result.vector == Negated(m).vector;
  }

  /** Vector - scalar: `lhs + (-rhs)`, with the scalar negated. */
  method SubtractScalar(lhs: Vector, rhs: real) returns (result: Vector)
    ensures result.Dimensions() == lhs.Dimensions()
    ensures forall i :: 0 <= i < lhs.Dimensions() ==> result.vector[i] == lhs.vector[i] - rhs
  {
    result := AddScalar(lhs, -1.0 * rhs);
  }

  /** Scalar - vector: `lhs + (-rhs)`, with the vector negated. */
  method ScalarSubtract(lhs: real, rhs: Vector) returns (result: Vector)
    ensures result.Dimensions() == rhs.Dimensions()
    ensures forall i :: 0 <= i < rhs.Dimensions() ==> result.vector[i] == lhs - rhs.vector[i]
  {
    var negated := Negate(rhs);
    result := ScalarAdd(lhs, negated);
  }

  /** Vector * vector: the elementwise product (not a dot product). */
  method Multiply(lhs: Vector, rhs: Vector) returns (result: Vector)
    requires lhs.Dimensions() == rhs.Dimensions()
    ensures result == Times(lhs, rhs)
    ensures forall i :: 0 <= i < lhs.Dimensions() ==> result.vector[i] == lhs.vector[i] * rhs.vector[i]
  {
    result := lhs;
    for i := 0 to result.Dimensions()
      invariant result.Dimensions() == lhs.Dimensions()
      invariant forall k :: 0 <= k < i ==> result.vector[k] == lhs.vector[k] * rhs.vector[k]
    {
      result := Set(result, i, Get(lhs, i) * Get(rhs, i));
    }
    forall k | 0 <= k < lhs.Dimensions()
      ensures result.vector[k] == Times(lhs, rhs).vector[k]
    {
    }
    assert result.vector == Times(lhs, rhs).vector;
  }

  /** Vector * scalar: every coordinate becomes scalar * v[i]. */
  method MultiplyScalar(lhs: Vector, rhs: real) returns (result: Vector)
    ensures result == Scaled(lhs, rhs)
    ensures result.Dimensions() == lhs.Dimensions()
    ensures forall i :: 0 <= i < lhs.Dimensions() ==> result.vector[i] == rhs * lhs.vector[i]
  {
    result := lhs;
    for i := 0 to result.Dimensions()
      invariant result.Dimensions() == lhs.Dimensions()
      invariant forall k :: 0 <= k < i ==> result.vector[k] == rhs * lhs.vector[k]
      invariant forall k :: i <= k < lhs.Dimensions() ==> result.vector[k] == lhs.vector[k]
    {
      result := Set(result, i, rhs * Get(result, i));
    }
    forall k | 0 <= k < lhs.Dimensions()
      ensures result.vector[k] == Scaled(lhs, rhs).vector[k]
    {
    }
    assert result.vector == Scaled(lhs, rhs).vector;
  }

  /** Scalar * vector: delegates to vector * scalar. */
  method ScalarMultiply(lhs: real, rhs: Vector) returns (result: Vector)
    ensures result == Scaled(rhs, lhs)
    ensures forall i :: 0 <= i < rhs.Dimensions() ==> result.vector[i] == rhs.vector[i] * lhs
  {
    result := MultiplyScalar(rhs, lhs);
  }

  // The compound assignments: each writes the binary operator's result
  // back into its `inout` left operand, returned here as its new value.

  /** Vector += vector. */
  method AddAssign(lhs: Vector, rhs: Vector) returns (newLhs: Vector)
    requires lhs.Dimensions() == rhs.Dimensions()
    ensures newLhs == Plus(lhs, rhs)
  {
    var sum := Add(lhs, rhs);
    newLhs := lhs.(vector := sum.vector);
  }

  /** Vector += scalar. */
  method AddAssignScalar(lhs: Vector, rhs: real) returns (newLhs: Vector)
    ensures newLhs == Shifted(lhs, rhs)
  {
    var sum := AddScalar(lhs, rhs);
    newLhs := lhs.(vector := sum.vector);
  }

  /** Vector -= vector. */
  method SubtractAssign(lhs: Vector, rhs: Vector) returns (newLhs: Vector)
    requires lhs.Dimensions() == rhs.Dimensions()
    ensures newLhs == Minus(lhs, rhs)
  {
    var difference := Subtract(lhs, rhs);
    newLhs := lhs.(vector := difference.vector);
  }

  /** Vector -= scalar. */
  method SubtractAssignScalar(lhs: Vector, rhs: real) returns (newLhs: Vector)
    ensures newLhs == Shifted(lhs, -rhs)
  {
    var difference := SubtractScalar(lhs, rhs);
    newLhs := lhs.(vector := difference.vector);
  }

  /** Vector *= scalar. */
  method MultiplyAssignScalar(lhs: Vector, rhs: real) returns (newLhs: Vector)
    ensures newLhs == Scaled(lhs, rhs)
  {
    var product := MultiplyScalar(lhs, rhs);
    newLhs := lhs.(vector := product.vector);
  }
}
