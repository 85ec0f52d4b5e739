/** The value-level pieces of the Nelder–Mead search in
    Sources/SwiftHBV/searcher/SimplexSearcher.swift: the static
    `sortXandY`, the centroid and the three points on the line from the
    worst vertex through it, the decision tree of `nextIteration`, and the
    test of `isTerminationTime`. A simplex is a list of vertices `xs` and
    the co-indexed list of their costs `ys`. */
module SimplexSteps {
  import opened MathFunctions
  import opened Helpers
  import opened Vectors
  import opened VectorUtils

  /** A vertex with its cost. */
  type Pair = (Vector, real)

  /** Costs in non-decreasing order: the best vertex first. */
  predicate CostsSorted(ys: seq<real>)
  {
    forall i, j :: 0 <= i < j < |ys| ==> ys[i] <= ys[j]
  }

  /** Each pair costs no less than the one before it. */
  predicate PairsSorted(ps: seq<Pair>)
  {
    forall i :: 0 < i < |ps| ==> ps[i - 1].1 <= ps[i].1
  }

  /** Pairs sorted step by step are sorted throughout. */
  lemma {:induction false} PairsSortedOrdered(ps: seq<Pair>)
    requires PairsSorted(ps)
    ensures forall i, j :: 0 <= i < j < |ps| ==> ps[i].1 <= ps[j].1
  {
    if |ps| > 1 {
      var tail := ps[1..];
      assert PairsSorted(tail) by {
        forall i | 0 < i < |tail| ensures tail[i - 1].1 <= tail[i].1 {
          assert tail[i - 1] == ps[i] && tail[i] == ps[i + 1];
        }
      }
      PairsSortedOrdered(tail);
      forall j | 1 <= j < |ps| ensures ps[0].1 <= ps[j].1 {
        assert ps[j] == tail[j - 1] && ps[1] == tail[0];
      }
    }
  }

  /** Every cost is the cost function's value at its vertex. */
  predicate Costed(xs: seq<Vector>, ys: seq<real>, f: Vector -> real)
  {
    |xs| == |ys| && forall i :: 0 <= i < |xs| ==> ys[i] == f(xs[i])
  }

  /** `X.map { f($0) }`. */
  function Costs(xs: seq<Vector>, f: Vector -> real): (ys: seq<real>)
    ensures Costed(xs, ys, f)
  {
    seq(|xs|, i requires 0 <= i < |xs| => f(xs[i]))
  }

  /** Inserts a pair before the first pair of a higher cost. */
  function InsertByCost(x: Pair, ps: seq<Pair>): (r: seq<Pair>)
    ensures |r| == |ps| + 1
    ensures r[0] == if |ps| == 0 || x.1 <= ps[0].1 then x else ps[0]
  {
    if |ps| == 0 then [x]
    else if x.1 <= ps[0].1 then [x] + ps
    else [ps[0]] + InsertByCost(x, ps[1..])
  }

  /** Inserting adds exactly the one pair. */
  lemma {:induction false} InsertByCostPermutes(x: Pair, ps: seq<Pair>)
    ensures multiset(InsertByCost(x, ps)) == multiset(ps) + multiset{x}
  {
    if |ps| > 0 && x.1 > ps[0].1 {
      InsertByCostPermutes(x, ps[1..]);
      assert ps == [ps[0]] + ps[1..];
    }
  }

  /** Inserting into a sorted list keeps it sorted. */
  lemma {:induction false} InsertByCostSorted(x: Pair, ps: seq<Pair>)
    requires PairsSorted(ps)
    ensures PairsSorted(InsertByCost(x, ps))
  {
    if |ps| > 0 && x.1 > ps[0].1 {
      var tail := ps[1..];
      assert PairsSorted(tail) by {
        forall i | 0 < i < |tail| ensures tail[i - 1].1 <= tail[i].1 {
          assert tail[i - 1] == ps[i] && tail[i] == ps[i + 1];
        }
      }
      InsertByCostSorted(x, tail);
      var r := InsertByCost(x, ps);
      var rest := InsertByCost(x, tail);
      assert r == [ps[0]] + rest;
      forall i | 0 < i < |r| ensures r[i - 1].1 <= r[i].1 {
        if i == 1 {
          assert r[1] == rest[0];
        } else {
          assert r[i - 1] == rest[i - 2] && r[i] == rest[i - 1];
        }
      }
    }
  }

  /** Sorting by cost: an insertion sort that keeps pairs of equal cost in
      their order. */
  function SortByCost(ps: seq<Pair>): (r: seq<Pair>)
    ensures |r| == |ps| && multiset(r) == multiset(ps) && PairsSorted(r)
  {
    if |ps| == 0 then []
    else
      var rest := SortByCost(ps[1..]);
      InsertByCostPermutes(ps[0], rest);
      InsertByCostSorted(ps[0], rest);
      assert ps == [ps[0]] + ps[1..];
      InsertByCost(ps[0], rest)
  }

  /** A list already in cost order is left as it is. */
  lemma {:induction false} SortByCostOfSorted(ps: seq<Pair>)
    requires PairsSorted(ps)
    ensures SortByCost(ps) == ps
  {
    if |ps| > 0 {
      SortByCostOfSorted(ps[1..]);
      assert ps == [ps[0]] + ps[1..];
    }
  }

  /** `sortXandY(X:Y:)`: zip, sort the pairs by cost, unzip. The result is
      the same (vertex, cost) pairs, best first. */
  function SortXandY(xs: seq<Vector>, ys: seq<real>): (r: (seq<Vector>, seq<real>))
    requires |xs| == |ys|
    ensures |r.0| == |xs| && |r.1| == |xs|
    ensures CostsSorted(r.1)
  {
    var sorted := SortByCost(Zip(xs, ys));
    PairsSortedOrdered(sorted);
    Unzipped(sorted)
  }

  /** The sort keeps the same (vertex, cost) pairs. */
  lemma SortXandYPermutes(xs: seq<Vector>, ys: seq<real>)
    requires |xs| == |ys|
    ensures var r := SortXandY(xs, ys);
      multiset(Zip(r.0, r.1)) == multiset(Zip(xs, ys))
  {
    ZipUnzip(SortByCost(Zip(xs, ys)));
  }

  /** Sorting a sorted simplex changes nothing. */
  lemma SortXandYOfSorted(xs: seq<Vector>, ys: seq<real>)
    requires |xs| == |ys| && CostsSorted(ys)
    ensures SortXandY(xs, ys) == (xs, ys)
  {
    SortByCostOfSorted(Zip(xs, ys));
    UnzipZip(xs, ys);
  }

  /** Sorting keeps every cost the cost of its vertex and keeps the
      vertices' dimension; its first cost is the least. */
  lemma SortXandYKeeps(xs: seq<Vector>, ys: seq<real>, f: Vector -> real, p: nat)
    requires Costed(xs, ys, f) && AllOfDimension(xs, p)
    ensures var r := SortXandY(xs, ys);
      Costed(r.0, r.1, f) && AllOfDimension(r.0, p) &&
      forall i :: 0 <= i < |ys| ==> r.1[0] <= ys[i]
  {
    var r := SortXandY(xs, ys);
    SortXandYPermutes(xs, ys);
    var before := Zip(xs, ys);
    var after := Zip(r.0, r.1);
    forall k | 0 <= k < |after|
      ensures r.1[k] == f(r.0[k]) && r.0[k].Dimensions() == p
    {
      assert after[k] in multiset(before);
      var i :| 0 <= i < |before| && before[i] == after[k];
    }
    forall i | 0 <= i < |ys|
      ensures r.1[0] <= ys[i]
    {
      assert before[i] in multiset(after);
      var k :| 0 <= k < |after| && after[k] == before[i];
    }
  }

  /** Sorting only reorders: every vertex after the sort was a vertex
      before it. */
  lemma SortXandYVertices(xs: seq<Vector>, ys: seq<real>)
    requires |xs| == |ys|
    ensures var r := SortXandY(xs, ys);
      forall k :: 0 <= k < |r.0| ==> r.0[k] in xs
  {
    var r := SortXandY(xs, ys);
    SortXandYPermutes(xs, ys);
    var before := Zip(xs, ys);
    var after := Zip(r.0, r.1);
    forall k | 0 <= k < |r.0|
      ensures r.0[k] in xs
    {
      assert after[k] in multiset(before);
      var i :| 0 <= i < |before| && before[i] == after[k];
      assert r.0[k] == xs[i];
    }
  }

  /** The sort keeps every vertex of dimension p. */
  lemma SortXandYDimensions(xs: seq<Vector>, ys: seq<real>, p: nat)
    requires |xs| == |ys| && AllOfDimension(xs, p)
    ensures AllOfDimension(SortXandY(xs, ys).0, p)
  {
    var r := SortXandY(xs, ys);
    SortXandYVertices(xs, ys);
    forall k | 0 <= k < |r.0|
      ensures r.0[k].Dimensions() == p
    {
      var i :| 0 <= i < |xs| && xs[i] == r.0[k];
    }
  }

  /** `from + k*(to - from)`: the point at k times the way from `from` to
      `to`. */
  function Towards(from: Vector, to: Vector, k: real): (r: Vector)
    requires from.Dimensions() == to.Dimensions()
    ensures r.Dimensions() == from.Dimensions()
    ensures forall j :: 0 <= j < r.Dimensions() ==>
      r.vector[j] == from.vector[j] + k * (to.vector[j] - from.vector[j])
  {
    Plus(from, Scaled(Minus(to, from), k))
  }

  /** Going all the way reaches `to`; the point twice as far is the mirror
      image of `from` in `to`, so `to` lies halfway to it. */
  lemma TowardsFacts(from: Vector, to: Vector)
    requires from.Dimensions() == to.Dimensions()
    ensures Towards(from, to, 0.0) == from
    ensures Towards(from, to, 1.0) == to
    ensures Towards(from, Towards(from, to, 2.0), 0.5) == to
  {
    assert Towards(from, to, 0.0).vector == from.vector;
    assert Towards(from, to, 1.0).vector == to.vector;
    assert Towards(from, Towards(from, to, 2.0), 0.5).vector == to.vector;
  }

  /** A simplex in dimension p: p + 1 vertices of dimension p. */
  predicate IsSimplex(xs: seq<Vector>, ys: seq<real>, p: nat)
  {
    p >= 1 && |xs| == p + 1 && |ys| == p + 1 && AllOfDimension(xs, p)
  }

  /** `mean(Array(X[0..<p]))`: the centroid of every vertex but the worst. */
  function Centroid(xs: seq<Vector>, p: nat): (c: Vector)
    requires p >= 1 && |xs| == p + 1 && AllOfDimension(xs, p)
    ensures c.Dimensions() == p
    ensures forall j :: 0 <= j < p ==> c.vector[j] == Mean(Column(xs[..p], j))
  {
    MeanVectors(xs[..p])
  }

  /** The reflection (k = 2), expansion (k = 3) and contraction (k = 0.5)
      points on the line from the worst vertex through the centroid. */
  function LinePoint(xs: seq<Vector>, p: nat, k: real): (r: Vector)
    requires p >= 1 && |xs| == p + 1 && AllOfDimension(xs, p)
    ensures r.Dimensions() == p
  {
    Towards(xs[p], Centroid(xs, p), k)
  }

  /** The four outcomes of one step. */
  datatype Move = Reflection | Expansion | Contraction | Shrink

  /** The decision tree of `nextIteration` given the costs of the
      reflection, expansion and contraction points. */
  function ChooseMove(ys: seq<real>, p: nat, yr: real, ye: real, yc: real): (m: Move)
    requires p >= 1 && |ys| == p + 1
    ensures CostsSorted(ys) && m == Reflection ==> yr <= ys[p]
    ensures m == Expansion ==> ye < yr < ys[0]
    ensures m == Contraction ==> yc < ys[p]
    ensures m == Shrink ==> ys[0] <= yr && ys[p] <= yc
    ensures yr < ys[0] ==> m == Reflection || m == Expansion
  {
    if ys[0] < yr && yr <= ys[p - 1] then Reflection
    else if yr < ys[0] then (if ye < yr then Expansion else Reflection)
    else if yc < ys[p] then Contraction
    else Shrink
  }

  /** The simplex after one step, before it is sorted again. The three
      line points are costed when the branch reached them; the cost
      function has no side effects, so costing them all is the same. In a
      shrink only vertex 1 moves halfway to the best vertex: the loop over
      vertices 1 to p returns after its first pass. */
  function NextSimplex(xs: seq<Vector>, ys: seq<real>, p: nat, f: Vector -> real): (r: (seq<Vector>, seq<real>))
    requires IsSimplex(xs, ys, p)
    ensures IsSimplex(r.0, r.1, p)
    ensures r.0[0] == xs[0] && r.1[0] == ys[0]
  {
    var xr := LinePoint(xs, p, 2.0);
    var xe := LinePoint(xs, p, 3.0);
    var xc := LinePoint(xs, p, 0.5);
    match ChooseMove(ys, p, f(xr), f(xe), f(xc))
    case Reflection => (xs[p := xr], ys[p := f(xr)])
    case Expansion => (xs[p := xe], ys[p := f(xe)])
    case Contraction => (xs[p := xc], ys[p := f(xc)])
    case Shrink =>
      var x1 := Towards(xs[1], xs[0], 0.5);
      (xs[1 := x1], ys[1 := f(x1)])
  }

  /** One step keeps a costed simplex a costed simplex and never touches
      the best vertex. Unless it shrinks, it replaces only the worst
      vertex, by one that costs no more; the expansion point is taken only
      when the reflection beat the best vertex and the expansion beat the
      reflection. */
  lemma NextSimplexReplacesWorst(xs: seq<Vector>, ys: seq<real>, p: nat, f: Vector -> real)
    requires IsSimplex(xs, ys, p) && Costed(xs, ys, f) && CostsSorted(ys)
    ensures var r := NextSimplex(xs, ys, p, f);
      IsSimplex(r.0, r.1, p) && Costed(r.0, r.1, f) &&
      r.0[0] == xs[0] && r.1[0] == ys[0]
    ensures var yr := f(LinePoint(xs, p, 2.0));
      var ye := f(LinePoint(xs, p, 3.0));
      var yc := f(LinePoint(xs, p, 0.5));
      var r := NextSimplex(xs, ys, p, f);
      match ChooseMove(ys, p, yr, ye, yc)
      case Shrink => r.0 == xs[1 := Towards(xs[1], xs[0], 0.5)]
      case Expansion => yr < ys[0] && ye < yr && r.0 == xs[p := LinePoint(xs, p, 3.0)]
      case _ => r.0[..p] == xs[..p] && r.1[..p] == ys[..p] && r.1[p] <= ys[p]
  {
  }

  /** After a step and the re-sort the best cost is no higher than
      before. */
  lemma BestNeverRises(xs: seq<Vector>, ys: seq<real>, p: nat, f: Vector -> real)
    requires IsSimplex(xs, ys, p) && Costed(xs, ys, f) && CostsSorted(ys)
    ensures var r := NextSimplex(xs, ys, p, f);
      SortXandY(r.0, r.1).1[0] <= ys[0]
  {
    NextSimplexReplacesWorst(xs, ys, p, f);
    var r := NextSimplex(xs, ys, p, f);
    SortXandYKeeps(r.0, r.1, f, p);
  }

  /** The source asserts that a reflection reaching the contraction branch
      costs more than the second-worst vertex. In a sorted simplex that
      holds exactly when the reflection does not tie the best cost: a tie
      falls through both earlier tests. */
  lemma ContractionAssertion(ys: seq<real>, p: nat, yr: real, ye: real, yc: real)
    requires p >= 1 && |ys| == p + 1 && CostsSorted(ys)
    requires ChooseMove(ys, p, yr, ye, yc) in {Contraction, Shrink}
    ensures yr > ys[p - 1] <==> yr != ys[0]
  {
  }

  /** The objective of the worked example, f(x, y) = x² − 4x + y² − y − xy,
      with minimum −7 at (3, 2); other dimensions cost 0. */
  function ExampleObjective(v: Vector): real
  {
    if v.Dimensions() == 2 then
      var x := v.vector[0];
      var y := v.vector[1];
      x * x - 4.0 * x + y * y - y - x * y
    else 0.0
  }

  /** The example's start (0, 0), (1.2, 0), (0, 0.8) costs 0, -3.36 and
      -0.16. */
  lemma ExampleStartCosts()
    ensures Costs([Vector([0.0, 0.0]), Vector([1.2, 0.0]), Vector([0.0, 0.8])], ExampleObjective)
      == [0.0, -3.36, -0.16]
  {
    var xs := [Vector([0.0, 0.0]), Vector([1.2, 0.0]), Vector([0.0, 0.8])];
    var ys := Costs(xs, ExampleObjective);
    assert ys[0] == ExampleObjective(xs[0]) == 0.0;
    assert ys[1] == ExampleObjective(xs[1]) == -3.36;
    assert ys[2] == ExampleObjective(xs[2]) == -0.16;
  }

  /** Sorting three vertices costing 0, -3.36 and -0.16 moves the first
      vertex to the back and keeps the other two in order. */
  lemma ExampleSortOrder(xs: seq<Vector>)
    requires |xs| == 3
    ensures SortXandY(xs, [0.0, -3.36, -0.16]) == ([xs[1], xs[2], xs[0]], [-3.36, -0.16, 0.0])
  {
    var a, b, c := (xs[0], 0.0), (xs[1], -3.36), (xs[2], -0.16);
    var ps := Zip(xs, [0.0, -3.36, -0.16]);
    assert ps == [a, b, c];
    ExampleSortPairs(a, b, c);
    var sorted := [b, c, a];
    assert SortByCost(ps) == sorted;
    assert Unzipped(sorted).0 == [xs[1], xs[2], xs[0]];
    assert Unzipped(sorted).1 == [-3.36, -0.16, 0.0];
  }

  /** The example's start, sorted best first. */
  lemma ExampleSort()
    ensures var xs := [Vector([0.0, 0.0]), Vector([1.2, 0.0]), Vector([0.0, 0.8])];
      SortXandY(xs, Costs(xs, ExampleObjective)) ==
        ([Vector([1.2, 0.0]), Vector([0.0, 0.8]), Vector([0.0, 0.0])], [-3.36, -0.16, 0.0])
  {
    ExampleStartCosts();
    ExampleSortOrder([Vector([0.0, 0.0]), Vector([1.2, 0.0]), Vector([0.0, 0.8])]);
  }

  /** The example's sort, on the (vertex, cost) pairs. */
  lemma ExampleSortPairs(a: Pair, b: Pair, c: Pair)
    requires a.1 == 0.0 && b.1 == -3.36 && c.1 == -0.16
    ensures SortByCost([a, b, c]) == [b, c, a]
  {
    ExampleInsertions(a, b, c);
    assert [a, b, c][1..] == [b, c];
    assert [b, c][1..] == [c];
    assert [c][1..] == [];
    assert SortByCost([c]) == [c];
    assert SortByCost([b, c]) == [b, c];
  }

  /** The insertions the example's sort performs. */
  lemma ExampleInsertions(a: Pair, b: Pair, c: Pair)
    requires a.1 == 0.0 && b.1 == -3.36 && c.1 == -0.16
    ensures InsertByCost(c, []) == [c]
    ensures InsertByCost(b, [c]) == [b, c]
    ensures InsertByCost(a, [b, c]) == [b, c, a]
  {
    assert [b, c][1..] == [c];
    assert [c][1..] == [];
    assert InsertByCost(a, [c]) == [c] + InsertByCost(a, []);
  }

  /** The example's sorted start. */
  function ExampleSorted(): seq<Vector>
  {
    [Vector([1.2, 0.0]), Vector([0.0, 0.8]), Vector([0.0, 0.0])]
  }

  /** The centroid of the example's two best vertices is (0.6, 0.4). */
  lemma ExampleCentroid()
    ensures Centroid(ExampleSorted(), 2) == Vector([0.6, 0.4])
  {
    var xs := ExampleSorted();
    assert Column(xs[..2], 0) == [1.2, 0.0];
    assert Column(xs[..2], 1) == [0.0, 0.8];
    assert Centroid(xs, 2).vector == [0.6, 0.4];
  }

  /** From the worst vertex (0, 0) through the centroid, the reflection
      point is (1.2, 0.8) and the expansion point (1.8, 1.2). */
  lemma ExampleLinePoints()
    ensures LinePoint(ExampleSorted(), 2, 2.0) == Vector([1.2, 0.8])
    ensures LinePoint(ExampleSorted(), 2, 3.0) == Vector([1.8, 1.2])
  {
    ExampleCentroid();
    assert LinePoint(ExampleSorted(), 2, 2.0).vector == [1.2, 0.8];
    assert LinePoint(ExampleSorted(), 2, 3.0).vector == [1.8, 1.2];
  }

  /** The example's first step: the reflection (1.2, 0.8) costs -4.48 and
      beats the best vertex, the expansion (1.8, 1.2) costs -5.88 and
      beats the reflection, so the expansion replaces the worst vertex. */
  lemma ExampleFirstStep()
    ensures NextSimplex(ExampleSorted(), [-3.36, -0.16, 0.0], 2, ExampleObjective) ==
      ([Vector([1.2, 0.0]), Vector([0.0, 0.8]), Vector([1.8, 1.2])], [-3.36, -0.16, -5.88])
  {
    var xs := ExampleSorted();
    ExampleLinePoints();
    var xr, xe := LinePoint(xs, 2, 2.0), LinePoint(xs, 2, 3.0);
    assert ExampleObjective(xr) == -4.48;
    assert ExampleObjective(xe) == -5.88;
    var ys := [-3.36, -0.16, 0.0];
    var yc := ExampleObjective(LinePoint(xs, 2, 0.5));
    assert ChooseMove(ys, 2, -4.48, -5.88, yc) == Expansion;
    assert NextSimplex(xs, ys, 2, ExampleObjective) == (xs[2 := xe], ys[2 := -5.88]);
    assert xs[2 := xe] == [Vector([1.2, 0.0]), Vector([0.0, 0.8]), Vector([1.8, 1.2])];
    assert ys[2 := -5.88] == [-3.36, -0.16, -5.88];
  }

  /** `isTerminationTime` thresholds: a spread of the costs below 0.001 of
      the best cost, and an improvement of the best cost below 0.001 over
      the look-back window. */
  const CriteriaSdPercent: real := 0.001
  const CriteriaPercentImprovement: real := 0.001

  /** The look-back window and the test period, both 10(p + 1) iterations. */
  function Lookback(p: nat): (n: nat)
    ensures n >= 10 && n % (p + 1) == 0
  {
    10 * (p + 1)
  }

  /** The termination test on the record of best costs, the iteration
      number and the current costs. A zero divisor gives the IEEE answer:
      the spread test fails, and the improvement test passes exactly when
      the latest best cost is positive. */
  function TerminationTest(records: seq<real>, iterationNr: int, ys: seq<real>, p: nat): (t: bool)
    requires |ys| >= 2
    ensures t ==> |records| >= Lookback(p) && iterationNr % Lookback(p) == 0 && ys[0] != 0.0
  {
    if |records| - Lookback(p) < 0 then false
    else if iterationNr % Lookback(p) != 0 then false
    else
      var sdSmall := ys[0] != 0.0 && StDev(ys) / ys[0] < CriteriaSdPercent;
      var lookBackIndex := |records| - Lookback(p);
      var last := records[|records| - 1];
      var improvementSmall := if records[lookBackIndex] == 0.0 then last > 0.0
                              else 1.0 - last / records[lookBackIndex] < CriteriaPercentImprovement;
      sdSmall && improvementSmall
  }

  /** The test passes only with a full window of records and on an
      iteration that is a multiple of the period; then a simplex whose
      costs are all equal and non-zero, and whose best cost is the same
      as a window ago, does stop. */
  lemma TerminationGating(records: seq<real>, iterationNr: int, ys: seq<real>, p: nat)
    requires |ys| >= 2
    ensures TerminationTest(records, iterationNr, ys, p) ==>
      |records| >= Lookback(p) && iterationNr % Lookback(p) == 0
    ensures |records| >= Lookback(p) && iterationNr % Lookback(p) == 0 &&
      ys[0] != 0.0 && (forall i :: 0 <= i < |ys| ==> ys[i] == ys[0]) &&
      records[|records| - Lookback(p)] == records[|records| - 1] != 0.0
      ==> TerminationTest(records, iterationNr, ys, p)
  {
    if |records| >= Lookback(p) && ys[0] != 0.0 && records[|records| - Lookback(p)] != 0.0 {
      var base := records[|records| - Lookback(p)];
      assert base / base == 1.0;
    }
  }
}
