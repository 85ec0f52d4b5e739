/** The `SimplexSearcher` class of Sources/SwiftHBV/searcher/SimplexSearcher.swift:
    a Nelder–Mead search whose simplex, records and best solution are
    fields updated in place by its methods. The value-level steps it
    performs are those of module SimplexSteps. Every random draw of the
    source is a parameter here: `draw(i, j)` is coordinate j of the i-th
    random vertex, `noise(t, i, j)` the noise factor of coordinate j of
    vertex i at iteration t. */
module Simplex {
  import opened Wrappers
  import opened MathFunctions
  import opened Vectors
  import opened VectorUtils
  import opened SimplexSteps

  /** Each coordinate of v lies between those of the two bounds. */
  predicate InBox(v: Vector, lo: Vector, hi: Vector)
  {
    v.Dimensions() == lo.Dimensions() == hi.Dimensions() &&
    forall j :: 0 <= j < v.Dimensions() ==> lo.vector[j] <= v.vector[j] <= hi.vector[j]
  }

  /** Bounds every coordinate can be drawn between: `Double.random(in:)`
      traps on a range whose lower end is above its upper end. */
  predicate ProperBox(lo: Vector, hi: Vector)
  {
    lo.Dimensions() == hi.Dimensions() &&
    forall j :: 0 <= j < lo.Dimensions() ==> lo.vector[j] <= hi.vector[j]
  }

  /** Draws that come from the ranges `lo[j]...hi[j]`. */
  ghost predicate DrawsIn(draw: (int, int) -> real, lo: Vector, hi: Vector)
  {
    forall i, j :: 0 <= j < lo.Dimensions() && j < hi.Dimensions() ==> lo.vector[j] <= draw(i, j) <= hi.vector[j]
  }

  /** The p + 1 vertices of dimension p that `setRandomSolutions` draws. */
  function RandomVertices(draw: (int, int) -> real, p: nat): (xs: seq<Vector>)
    ensures |xs| == p + 1 && AllOfDimension(xs, p)
  {
    seq(p + 1, i => Vector(seq(p, j => draw(i, j))))
  }

  /** Vertices drawn from the ranges of a box lie in the box. */
  lemma RandomVerticesInBox(draw: (int, int) -> real, lo: Vector, hi: Vector)
    requires lo.Dimensions() == hi.Dimensions() && DrawsIn(draw, lo, hi)
    ensures var xs := RandomVertices(draw, lo.Dimensions());
      forall i :: 0 <= i < |xs| ==> InBox(xs[i], lo, hi)
  {
    var xs := RandomVertices(draw, lo.Dimensions());
    forall i | 0 <= i < |xs|
      ensures InBox(xs[i], lo, hi)
    {
      assert forall j :: 0 <= j < lo.Dimensions() ==> xs[i].vector[j] == draw(i, j);
    }
  }

  /** The best solution `setRandomSolutions` stores is the first vertex
      drawn, not the cheapest one: with p = 1, the draws 1.0 and then 0.0
      and the cost v[0], it stores [1.0] next to the value 0.0, which is
      the cost of [0.0]. */
  lemma FirstDrawnIsStoredAsBest()
    ensures var draw := (i: int, j: int) => if i == 0 then 1.0 else 0.0;
      var f := (v: Vector) => if |v.vector| >= 1 then v.vector[0] else 0.0;
      var xs := RandomVertices(draw, 1);
      var r := SimplexSteps.SortXandY(xs, Costs(xs, f));
      xs[0] == Vector([1.0]) && r.0[0] == Vector([0.0]) && r.1[0] == 0.0 && f(xs[0]) != r.1[0]
  {
    var draw := (i: int, j: int) => if i == 0 then 1.0 else 0.0;
    var f := (v: Vector) => if |v.vector| >= 1 then v.vector[0] else 0.0;
    var xs := RandomVertices(draw, 1);
    assert xs[0].vector == [1.0] && xs[1].vector == [0.0];
    var ys := Costs(xs, f);
    assert ys == [1.0, 0.0];
    var r := SimplexSteps.SortXandY(xs, ys);
    SortXandYKeeps(xs, ys, f, 1);
    SortXandYVertices(xs, ys);
    assert r.1[0] <= ys[1] == 0.0;
    assert r.0[0] == xs[0] || r.0[0] == xs[1];
  }

  /** Vertex i after the noise of `shakeUpSolutions` at iteration t:
      coordinate j gains noise(t, i, j) times `noisePercent` of itself. */
  function ShakenVertex(x: Vector, noisePercent: real, noise: (int, int, int) -> real, t: int, i: int): (y: Vector)
    ensures y.Dimensions() == x.Dimensions()
    ensures forall j :: 0 <= j < x.Dimensions() ==>
      y.vector[j] == x.vector[j] + x.vector[j] * noise(t, i, j) * noisePercent
  {
    Vector(seq(x.Dimensions(), j requires 0 <= j < x.Dimensions() =>
      x.vector[j] + x.vector[j] * noise(t, i, j) * noisePercent))
  }

  /** Every vertex after the noise of `shakeUpSolutions` at iteration t. */
  function Shaken(xs: seq<Vector>, noisePercent: real, noise: (int, int, int) -> real, t: int): (s: seq<Vector>)
    ensures |s| == |xs|
    ensures forall i :: 0 <= i < |xs| ==> s[i] == ShakenVertex(xs[i], noisePercent, noise, t, i)
  {
    seq(|xs|, i requires 0 <= i < |xs| => ShakenVertex(xs[i], noisePercent, noise, t, i))
  }

  /** With factors in [-1, 1] no coordinate moves by more than the noise
      fraction of its own size, and no noise moves nothing. */
  lemma ShakenWithinNoise(xs: seq<Vector>, noisePercent: real, noise: (int, int, int) -> real, t: int)
    requires noisePercent >= 0.0
    requires forall i, j :: -1.0 <= noise(t, i, j) <= 1.0
    ensures var s := Shaken(xs, noisePercent, noise, t);
      forall i, j :: 0 <= i < |xs| && 0 <= j < xs[i].Dimensions() ==>
        -noisePercent * Abs(xs[i].vector[j]) <= s[i].vector[j] - xs[i].vector[j] <= noisePercent * Abs(xs[i].vector[j])
    ensures Shaken(xs, 0.0, noise, t) == xs
  {
    var s := Shaken(xs, noisePercent, noise, t);
    forall i, j | 0 <= i < |xs| && 0 <= j < xs[i].Dimensions()
      ensures -noisePercent * Abs(xs[i].vector[j]) <= s[i].vector[j] - xs[i].vector[j] <= noisePercent * Abs(xs[i].vector[j])
    {
      var x, k := xs[i].vector[j], noise(t, i, j);
      var v := ShakenVertex(xs[i], noisePercent, noise, t, i);
      assert s[i] == v;
      assert v.vector[j] == x + x * k * noisePercent;
      ScaledWithin(x, k);
      assert -Abs(x) * noisePercent <= (x * k) * noisePercent <= Abs(x) * noisePercent;
    }
    var z := Shaken(xs, 0.0, noise, t);
    forall i | 0 <= i < |xs|
      ensures z[i] == xs[i]
    {
      assert z[i].vector == xs[i].vector;
    }
  }

  /** A factor in [-1, 1] scales x to no more than its size. */
  lemma ScaledWithin(x: real, k: real)
    requires -1.0 <= k <= 1.0
    ensures -Abs(x) <= x * k <= Abs(x)
  {
    var a := Abs(x);
    assert a * (1.0 - k) >= 0.0 && a * (1.0 + k) >= 0.0;
    if x < 0.0 {
      assert x * k == -(a * k);
    }
  }

  /** The absolute value of a real. */
  function Abs(x: real): real
  {
    if x < 0.0 then -x else x
  }

  /** The simplex after `shakeUpSolutions` at iteration t: the shaken
      vertices, re-costed and sorted. It is again a sorted, costed
      simplex. */
  function ShakeSimplex(xs: seq<Vector>, noisePercent: real, noise: (int, int, int) -> real, t: int,
                        p: nat, f: Vector -> real): (r: (seq<Vector>, seq<real>))
    requires p >= 1 && |xs| == p + 1 && AllOfDimension(xs, p)
    ensures IsSimplex(r.0, r.1, p) && Costed(r.0, r.1, f) && CostsSorted(r.1)
  {
    var s := Shaken(xs, noisePercent, noise, t);
    SortXandYKeeps(s, Costs(s, f), f, p);
    SortXandY(s, Costs(s, f))
  }

  /** `howOften`: the simplex is shaken every 5(p + 1) iterations. */
  function ShakePeriod(p: nat): (n: nat)
    ensures n >= 5 && n % (p + 1) == 0
  {
    5 * (p + 1)
  }

  /** The noise of a shake: a tenth for the first three periods, then 5
      divided by the iteration number. */
  function NoisePercent(iterationNr: int, p: nat): (r: real)
    requires iterationNr >= 1
    ensures 0.0 < r <= Max(0.1, 5.0 / ((3 * ShakePeriod(p) + 1) as real))
  {
    var first := 3 * ShakePeriod(p) + 1;
    if iterationNr < first then 0.1
    else if iterationNr == first then 5.0 / (iterationNr as real)
    else
      DivisionFalls(5.0, first as real, iterationNr as real);
      5.0 / (iterationNr as real)
  }

  /** c / b < c / a when c is positive and 0 < a < b. */
  lemma DivisionFalls(c: real, a: real, b: real)
    requires c > 0.0 && 0.0 < a < b
    ensures c / b < c / a
  {
    assert c / a - c / b == c * (b - a) / (a * b);
    assert c * (b - a) > 0.0 && a * b > 0.0;
  }

  /** The noise is positive. After the first three periods it falls with
      every iteration, and it is below a tenth exactly from iteration 51
      on. */
  lemma NoisePercentFalls(it1: int, it2: int, p: nat)
    requires 1 <= it1 < it2
    ensures 0.0 < NoisePercent(it1, p)
    ensures it1 > 3 * ShakePeriod(p) ==> NoisePercent(it2, p) < NoisePercent(it1, p)
    ensures it1 > 3 * ShakePeriod(p) ==> (NoisePercent(it1, p) < 0.1 <==> it1 > 50)
  {
    if it1 > 3 * ShakePeriod(p) {
      DivisionFalls(5.0, it1 as real, it2 as real);
      if it1 > 50 {
        DivisionFalls(5.0, 50.0, it1 as real);
      } else {
        assert 5.0 / (it1 as real) >= 5.0 / 50.0 by {
          if it1 < 50 {
            DivisionFalls(5.0, it1 as real, 50.0);
          }
        }
      }
    }
  }

  /** One pass of `optimize` that goes on: shake when the iteration is a
      multiple of the period, take one Nelder–Mead step and sort. */
  function Iterate(xs: seq<Vector>, ys: seq<real>, p: nat, f: Vector -> real,
                   t: int, noise: (int, int, int) -> real): (r: (seq<Vector>, seq<real>))
    requires IsSimplex(xs, ys, p) && t >= 1
    ensures IsSimplex(r.0, r.1, p)
  {
    var shaken := if t % ShakePeriod(p) == 0 then ShakeSimplex(xs, NoisePercent(t, p), noise, t, p, f) else (xs, ys);
    var stepped := NextSimplex(shaken.0, shaken.1, p, f);
    SortXandYDimensions(stepped.0, stepped.1, p);
    SortXandY(stepped.0, stepped.1)
  }

  /** An iteration keeps a simplex costed and sorted; without a shake it
      never raises the best cost. */
  lemma IterateKeepsCosts(xs: seq<Vector>, ys: seq<real>, p: nat, f: Vector -> real,
                          t: int, noise: (int, int, int) -> real)
    requires IsSimplex(xs, ys, p) && Costed(xs, ys, f) && CostsSorted(ys) && t >= 1
    ensures var r := Iterate(xs, ys, p, f, t, noise);
      Costed(r.0, r.1, f) && CostsSorted(r.1)
    ensures t % ShakePeriod(p) != 0 ==> Iterate(xs, ys, p, f, t, noise).1[0] <= ys[0]
  {
    var shaken := if t % ShakePeriod(p) == 0 then ShakeSimplex(xs, NoisePercent(t, p), noise, t, p, f) else (xs, ys);
    NextSimplexReplacesWorst(shaken.0, shaken.1, p, f);
    var stepped := NextSimplex(shaken.0, shaken.1, p, f);
    SortXandYKeeps(stepped.0, stepped.1, f, p);
    if t % ShakePeriod(p) != 0 {
      BestNeverRises(xs, ys, p, f);
    }
  }

  /** `SimplexSearcher`. */
  class SimplexSearcher {
    /** `iteration_nr`, counted from 1. */
    var iterationNr: int
    /** `run_nr`, counted from 1. */
    var runNr: int
    var totalRuns: int
    /** Nil until the first random simplex is drawn. */
    var bestSolution: Option<Vector>
    var valueBestSolution: Option<real>
    /** The best vertex of every run, and its cost. */
    var solutions: seq<Vector>
    var valueSolutions: seq<real>
    /** The best vertex at every pass of `optimize`, and its cost. */
    var recordOfSolutions: seq<Vector>
    var valueRecordOfSolutions: seq<real>
    /** The simplex: vertices and their costs, best first. */
    var X: seq<Vector>
    var Y: seq<real>
    const f: Vector -> real
    const p: nat
    const minInitSolution: Vector
    const maxInitSolution: Vector

    /** A costed simplex of p + 1 vertices of dimension p, best first. */
    predicate Valid()
      reads this`X, this`Y
    {
      IsSimplex(X, Y, p) && Costed(X, Y, f) && CostsSorted(Y)
    }

    /** Every recorded cost is the cost of its recorded vertex. */
    predicate Recorded()
      reads this`recordOfSolutions, this`valueRecordOfSolutions, this`solutions, this`valueSolutions
    {
      Costed(recordOfSolutions, valueRecordOfSolutions, f) && Costed(solutions, valueSolutions, f)
    }

    /** `init(f:minInitSolution:maxInitSolution:)`, which `init(optimizableModel:)`
        calls with the model's cost function and bounds: the bounds must
        have one dimension, and the first simplex is drawn inside them. */
    constructor (f: Vector -> real, minInitSolution: Vector, maxInitSolution: Vector, draw: (int, int) -> real)
      requires minInitSolution.Dimensions() >= 1
      requires ProperBox(minInitSolution, maxInitSolution)
      requires DrawsIn(draw, minInitSolution, maxInitSolution)
      ensures this.f == f && p == minInitSolution.Dimensions()
      ensures this.minInitSolution == minInitSolution && this.maxInitSolution == maxInitSolution
      ensures iterationNr == 1 && runNr == 1 && totalRuns == 0
      ensures solutions == [] && valueSolutions == [] && recordOfSolutions == [] && valueRecordOfSolutions == []
      ensures Valid() && Recorded()
      ensures (X, Y) == SimplexSteps.SortXandY(RandomVertices(draw, p), Costs(RandomVertices(draw, p), f))
      ensures forall i :: 0 <= i < |X| ==> InBox(X[i], minInitSolution, maxInitSolution)
      ensures bestSolution == Some(RandomVertices(draw, p)[0]) && valueBestSolution == Some(Y[0])
      ensures valueBestSolution.value <= f(bestSolution.value)
    {
      this.f := f;
      p := minInitSolution.Dimensions();
      this.minInitSolution := minInitSolution;
      this.maxInitSolution := maxInitSolution;
      iterationNr, runNr, totalRuns := 1, 1, 0;
      solutions, valueSolutions := [], [];
      recordOfSolutions, valueRecordOfSolutions := [], [];
      new;
      SetRandomSolutions(minInitSolution, maxInitSolution, draw);
    }

    /** `init(f:vector_size:from:to:)`: both bounds are built from `from`,
        so `to` is never used and every vertex is the same point. */
    constructor FromTo(f: Vector -> real, vectorSize: int, from: real, to: real)
      requires vectorSize >= 1
      ensures this.f == f && p == vectorSize
      ensures minInitSolution == maxInitSolution == RepeatedValue(from, vectorSize)
      ensures iterationNr == 1 && runNr == 1 && totalRuns == 0
      ensures solutions == [] && valueSolutions == [] && recordOfSolutions == [] && valueRecordOfSolutions == []
      ensures Valid() && Recorded()
      ensures forall i :: 0 <= i < |X| ==> X[i] == RepeatedValue(from, vectorSize) && Y[i] == f(X[i])
      ensures bestSolution == Some(RepeatedValue(from, vectorSize)) && valueBestSolution == Some(Y[0])
    {
      var bound := FromArray(seq(vectorSize, _ => from));
      this.f := f;
      p := vectorSize;
      minInitSolution, maxInitSolution := bound, bound;
      iterationNr, runNr, totalRuns := 1, 1, 0;
      solutions, valueSolutions := [], [];
      recordOfSolutions, valueRecordOfSolutions := [], [];
      new;
      // `Double.random(in: from...from)` can only return `from`.
      var draw := (i: int, j: int) => from;
      SetRandomSolutions(bound, bound, draw);
      assert RandomVertices(draw, vectorSize)[0].vector == RepeatedValue(from, vectorSize).vector;
      forall i | 0 <= i < |X|
        ensures X[i] == RepeatedValue(from, vectorSize)
      {
        assert X[i].vector == RepeatedValue(from, vectorSize).vector;
      }
    }

    /** `init(f:X_base_init:spread:)`: the bounds are the base less and
        plus `spread` times itself. */
    constructor Spread(f: Vector -> real, base: Vector, spread: real, draw: (int, int) -> real)
      requires base.Dimensions() >= 1
      requires forall j :: 0 <= j < base.Dimensions() ==> 0.0 <= spread * base.vector[j]
      requires DrawsIn(draw, Minus(base, Scaled(base, spread)), Plus(base, Scaled(base, spread)))
      ensures this.f == f && p == base.Dimensions()
      ensures minInitSolution == Minus(base, Scaled(base, spread))
      ensures maxInitSolution == Plus(base, Scaled(base, spread))
      ensures iterationNr == 1 && runNr == 1 && totalRuns == 0
      ensures solutions == [] && valueSolutions == [] && recordOfSolutions == [] && valueRecordOfSolutions == []
      ensures Valid() && Recorded()
      ensures forall i :: 0 <= i < |X| ==> InBox(X[i], minInitSolution, maxInitSolution)
      ensures bestSolution == Some(RandomVertices(draw, p)[0]) && valueBestSolution == Some(Y[0])
      ensures valueBestSolution.value <= f(bestSolution.value)
    {
      var lo := Minus(base, Scaled(base, spread));
      var hi := Plus(base, Scaled(base, spread));
      this.f := f;
      p := base.Dimensions();
      minInitSolution, maxInitSolution := lo, hi;
      iterationNr, runNr, totalRuns := 1, 1, 0;
      solutions, valueSolutions := [], [];
      recordOfSolutions, valueRecordOfSolutions := [], [];
      new;
      SetRandomSolutions(lo, hi, draw);
    }

    /** `init(f:X_inits:)`: p + 1 given vertices of dimension p, sorted;
        the bounds become the best and the worst vertex, and there is no
        best solution yet. */
    constructor WithInits(f: Vector -> real, inits: seq<Vector>)
      requires |inits| >= 1 && inits[0].Dimensions() >= 1
      requires |inits| == inits[0].Dimensions() + 1
      requires AllOfDimension(inits, inits[0].Dimensions())
      ensures this.f == f && p == inits[0].Dimensions()
      ensures (X, Y) == SimplexSteps.SortXandY(inits, Costs(inits, f))
      ensures Valid() && Recorded()
      ensures minInitSolution == X[0] && maxInitSolution == X[p]
      ensures bestSolution == None && valueBestSolution == None
      ensures iterationNr == 1 && runNr == 1 && totalRuns == 0
      ensures solutions == [] && valueSolutions == [] && recordOfSolutions == [] && valueRecordOfSolutions == []
    {
      var dims := inits[0].Dimensions();
      var ys := Costs(inits, f);
      var sorted := SimplexSteps.SortXandY(inits, ys);
      SortXandYKeeps(inits, ys, f, dims);
      this.f := f;
      p := dims;
      X, Y := sorted.0, sorted.1;
      minInitSolution, maxInitSolution := sorted.0[0], sorted.0[dims];
      bestSolution, valueBestSolution := None, None;
      iterationNr, runNr, totalRuns := 1, 1, 0;
      solutions, valueSolutions := [], [];
      recordOfSolutions, valueRecordOfSolutions := [], [];
    }

    /** `setRandomSolutions`: draws p + 1 vertices inside the bounds,
        costs and sorts them. The best solution it stores is the first
        vertex drawn, because the local `X` it reads hides the sorted
        property; its value is the lowest cost, so the two agree only when
        that vertex is the cheapest (see FirstDrawnIsStoredAsBest). */
    method SetRandomSolutions(lo: Vector, hi: Vector, draw: (int, int) -> real)
      requires p >= 1 && lo.Dimensions() == p
      requires ProperBox(lo, hi) && DrawsIn(draw, lo, hi)
      modifies this`X, this`Y, this`bestSolution, this`valueBestSolution
      ensures Valid()
      ensures (X, Y) == SimplexSteps.SortXandY(RandomVertices(draw, p), Costs(RandomVertices(draw, p), f))
      ensures forall i :: 0 <= i < |X| ==> InBox(X[i], lo, hi)
      ensures bestSolution == Some(RandomVertices(draw, p)[0]) && valueBestSolution == Some(Y[0])
      ensures valueBestSolution.value <= f(bestSolution.value)
    {
      var xs := RandomVertices(draw, p);
      RandomVerticesInBox(draw, lo, hi);
      SortXandYVertices(xs, Costs(xs, f));
      X := xs;
      Y := Costs(xs, f);
      SortXandYKeeps(xs, Costs(xs, f), f, p);
      SortXandY();
      bestSolution := Some(xs[0]);
      valueBestSolution := Some(Y[0]);
    }

    /** `sortXandY()`: the simplex in cost order, best first. */
    method SortXandY()
      requires IsSimplex(X, Y, p) && Costed(X, Y, f)
      modifies this`X, this`Y
      ensures Valid()
      ensures (X, Y) == SimplexSteps.SortXandY(old(X), old(Y))
    {
      SortXandYKeeps(X, Y, f, p);
      var sorted := SimplexSteps.SortXandY(X, Y);
      X, Y := sorted.0, sorted.1;
    }

    /** `nextIteration`: one Nelder–Mead step. The worst vertex is replaced
        by the reflection, expansion or contraction point, or vertex 1
        moves halfway to the best. The source's debug-build assertion in
        the contraction branch is not modelled: it fails only when the
        reflection ties the best cost (SimplexSteps.ContractionAssertion). */
    method NextIteration()
      requires Valid()
      modifies this`X, this`Y
      ensures (X, Y) == NextSimplex(old(X), old(Y), p, f)
      ensures IsSimplex(X, Y, p) && Costed(X, Y, f) && X[0] == old(X[0])
    {
      NextSimplexReplacesWorst(X, Y, p, f);
      var best, worst, nextWorst := 0, p, p - 1;
      var xMean := Centroid(X, p);
      var xr := Towards(X[worst], xMean, 2.0);
      var yr := f(xr);
      if Y[best] < yr && yr <= Y[nextWorst] {
        X := X[worst := xr];
        Y := Y[worst := yr];
        return;
      } else if yr < Y[best] {
        var xe := Towards(X[worst], xMean, 3.0);
        var ye := f(xe);
        if ye < yr {
          X := X[worst := xe];
          Y := Y[worst := ye];
          return;
        } else {
          X := X[worst := xr];
          Y := Y[worst := yr];
          return;
        }
      } else {
        var xc := Towards(X[worst], xMean, 0.5);
        var yc := f(xc);
        if yc < Y[worst] {
          X := X[worst := xc];
          Y := Y[worst := yc];
          return;
        } else {
          // The loop over vertices 1 to p returns after its first pass.
          for i := 1 to worst + 1
            invariant i == 1 && X == old(X) && Y == old(Y)
          {
            X := X[i := Towards(X[i], X[best], 0.5)];
            Y := Y[i := f(X[i])];
            return;
          }
          assert false;
        }
      }
    }

    /** The inner loop of `shakeUpSolutions`: adds noise to every
        coordinate of vertex i in place. */
    method ShakeVertex(i: nat, noisePercent: real, noise: (int, int, int) -> real, t: int)
      requires i < |X| && X[i].Dimensions() == p
      modifies this`X
      ensures X == old(X)[i := ShakenVertex(old(X)[i], noisePercent, noise, t, i)]
    {
      ghost var target := ShakenVertex(X[i], noisePercent, noise, t, i).vector;
      for j := 0 to p
        invariant |X| == |old(X)| && X[i].Dimensions() == p
        invariant forall l :: 0 <= l < j ==> X[i].vector[l] == target[l]
        invariant forall l :: j <= l < p ==> X[i].vector[l] == old(X)[i].vector[l]
        invariant forall k :: 0 <= k < |X| && k != i ==> X[k] == old(X)[k]
      {
        X := X[i := Set(X[i], j, Get(X[i], j) + Get(X[i], j) * noise(t, i, j) * noisePercent)];
      }
      assert X[i].vector == target;
    }

    /** `shakeUpSolutions(addNoisePercent:)` at iteration t: adds noise to
        every coordinate of every vertex, re-costs each vertex and sorts. */
    method ShakeUpSolutions(noisePercent: real, noise: (int, int, int) -> real, t: int)
      requires Valid()
      requires forall i, j :: -1.0 <= noise(t, i, j) <= 1.0
      modifies this`X, this`Y
      ensures Valid()
      ensures (X, Y) == ShakeSimplex(old(X), noisePercent, noise, t, p, f)
    {
      ghost var s := Shaken(X, noisePercent, noise, t);
      for i := 0 to p + 1
        invariant |X| == |Y| == p + 1
        invariant forall k :: 0 <= k < i ==> X[k] == s[k] && Y[k] == f(s[k])
        invariant forall k :: i <= k <= p ==> X[k] == old(X)[k]
      {
        ShakeVertex(i, noisePercent, noise, t);
        Y := Y[i := f(X[i])];
      }
      assert X == s;
      assert Y == Costs(s, f);
      SortXandY();
    }

    /** `recordProgress`: appends the best vertex and its cost to the
        record. */
    method RecordProgress()
      requires |X| > 0 && |Y| > 0 && Y[0] == f(X[0]) && Recorded()
      modifies this`recordOfSolutions, this`valueRecordOfSolutions
      ensures Recorded()
      ensures recordOfSolutions == old(recordOfSolutions) + [X[0]]
      ensures valueRecordOfSolutions == old(valueRecordOfSolutions) + [Y[0]]
    {
      recordOfSolutions := recordOfSolutions + [X[0]];
      valueRecordOfSolutions := valueRecordOfSolutions + [Y[0]];
    }

    /** `isTerminationTime`: true when a full look-back window has been
        recorded, the iteration is a multiple of the test period, the costs
        spread less than 0.001 of the best cost and the best cost improved
        by less than 0.001 over the window. A zero divisor behaves as IEEE
        division does: see SimplexSteps.TerminationTest. */
    method IsTerminationTime() returns (isTerminationTime: bool)
      requires |Y| >= 2
      ensures isTerminationTime == TerminationTest(valueRecordOfSolutions, iterationNr, Y, p)
    {
      var lookbackIterations := 10 * (p + 1);
      var testEachXIteration := 10 * (p + 1);
      if |valueRecordOfSolutions| - lookbackIterations < 0 {
        return false;
      }
      if iterationNr % testEachXIteration != 0 {
        return false;
      }
      var sdSmall := false;
      if Y[0] != 0.0 {
        sdSmall := StDev(Y) / Y[0] < CriteriaSdPercent;
      }
      var lookBackIndex := |valueRecordOfSolutions| - lookbackIterations;
      var last := valueRecordOfSolutions[|valueRecordOfSolutions| - 1];
      var improvementSmall := last > 0.0;
      if valueRecordOfSolutions[lookBackIndex] != 0.0 {
        improvementSmall := 1.0 - last / valueRecordOfSolutions[lookBackIndex] < CriteriaPercentImprovement;
      }
      isTerminationTime := sdSmall && improvementSmall;
    }

    /** The part of a pass of `optimize` that goes on: shake when the
        iteration is a multiple of the period, take one step, sort and
        count the iteration. */
    method Advance(noise: (int, int, int) -> real)
      requires Valid() && iterationNr >= 1
      requires forall t, i, j :: -1.0 <= noise(t, i, j) <= 1.0
      modifies this`X, this`Y, this`iterationNr
      ensures Valid() && iterationNr == old(iterationNr) + 1
      ensures (X, Y) == Iterate(old(X), old(Y), p, f, old(iterationNr), noise)
      ensures old(iterationNr) % ShakePeriod(p) != 0 ==> Y[0] <= old(Y)[0]
    {
      IterateKeepsCosts(X, Y, p, f, iterationNr, noise);
      if iterationNr % ShakePeriod(p) == 0 {
        ShakeUpSolutions(NoisePercent(iterationNr, p), noise, iterationNr);
      }
      NextIteration();
      SortXandY();
      iterationNr := iterationNr + 1;
    }

    /** One pass of the loop of `optimize`: records the best vertex, then
        either reports that the search stops or advances the simplex. */
    method OptimizePass(maxIterations: int, noise: (int, int, int) -> real) returns (stop: bool)
      requires Valid() && Recorded() && iterationNr >= 1
      requires forall t, i, j :: -1.0 <= noise(t, i, j) <= 1.0
      modifies this`X, this`Y, this`iterationNr, this`recordOfSolutions, this`valueRecordOfSolutions
      ensures Valid() && Recorded()
      ensures recordOfSolutions == old(recordOfSolutions) + [old(X)[0]]
      ensures valueRecordOfSolutions == old(valueRecordOfSolutions) + [old(Y)[0]]
      ensures stop == (TerminationTest(valueRecordOfSolutions, old(iterationNr), old(Y), p) || old(iterationNr) >= maxIterations)
      ensures stop ==> X == old(X) && Y == old(Y) && iterationNr == old(iterationNr)
      ensures !stop ==> iterationNr == old(iterationNr) + 1
      ensures !stop ==> (X, Y) == Iterate(old(X), old(Y), p, f, old(iterationNr), noise)
      ensures !stop && old(iterationNr) % ShakePeriod(p) != 0 ==> Y[0] <= old(Y)[0]
    {
      RecordProgress();
      var isTerminationTime := IsTerminationTime();
      if isTerminationTime || iterationNr >= maxIterations {
        return true;
      }
      Advance(noise);
      return false;
    }

    /** `optimize(maxIterations:)`: passes until the termination test
        passes or the cap is reached. One record is kept per pass, the
        search stops only for one of those two reasons, and the best
        vertex of the final simplex becomes the best solution.
        `noise(t, i, j)` is the noise factor drawn at iteration t. */
    method Optimize(maxIterations: int, noise: (int, int, int) -> real)
      requires Valid() && Recorded() && iterationNr >= 1
      requires forall t, i, j :: -1.0 <= noise(t, i, j) <= 1.0
      modifies this`X, this`Y, this`iterationNr, this`recordOfSolutions, this`valueRecordOfSolutions
      modifies this`bestSolution, this`valueBestSolution
      ensures Valid() && Recorded()
      ensures old(iterationNr) <= iterationNr
      ensures iterationNr <= if old(iterationNr) < maxIterations then maxIterations else old(iterationNr)
      ensures iterationNr >= maxIterations || TerminationTest(valueRecordOfSolutions, iterationNr, Y, p)
      ensures |recordOfSolutions| == |old(recordOfSolutions)| + (iterationNr - old(iterationNr)) + 1
      ensures recordOfSolutions[..|old(recordOfSolutions)|] == old(recordOfSolutions)
      ensures recordOfSolutions[|recordOfSolutions| - 1] == X[0]
      ensures bestSolution == Some(X[0]) && valueBestSolution == Some(Y[0])
    {
      ghost var it0, records0 := iterationNr, recordOfSolutions;
      while true
        invariant Valid() && Recorded()
        invariant it0 <= iterationNr <= if it0 < maxIterations then maxIterations else it0
        invariant |recordOfSolutions| == |records0| + (iterationNr - it0)
        invariant recordOfSolutions[..|records0|] == records0
        decreases maxIterations - iterationNr
      {
        var stop := OptimizePass(maxIterations, noise);
        if stop {
          break;
        }
      }
      bestSolution := Some(X[0]);
      valueBestSolution := Some(Y[0]);
    }

    /** The body of the loop of `optimizeMultipleRuns`: run n starts at
        iteration 1 from a fresh random simplex, is optimized, and its best
        vertex and cost are appended to the solutions. The comparison with
        the best solution so far never succeeds, because `optimize` has
        just made this run's best vertex the best solution. */
    method OptimizeRun(n: int, maxIterations: int, draw: (int, int) -> real, noise: (int, int, int) -> real)
      requires p >= 1 && Recorded()
      requires minInitSolution.Dimensions() == p && ProperBox(minInitSolution, maxInitSolution)
      requires DrawsIn(draw, minInitSolution, maxInitSolution)
      requires forall t, i, j :: -1.0 <= noise(t, i, j) <= 1.0
      modifies this`X, this`Y, this`iterationNr, this`runNr, this`recordOfSolutions, this`valueRecordOfSolutions
      modifies this`solutions, this`valueSolutions, this`bestSolution, this`valueBestSolution
      ensures Valid() && Recorded() && runNr == n && iterationNr >= 1
      ensures solutions == old(solutions) + [X[0]] && valueSolutions == old(valueSolutions) + [Y[0]]
      ensures bestSolution == Some(X[0]) && valueBestSolution == Some(Y[0])
    {
      runNr := n;
      iterationNr := 1;
      SetRandomSolutions(minInitSolution, maxInitSolution, draw);
      Optimize(maxIterations, noise);
      var bestSolutionFromRun := X[0];
      var valueBestSolutionFromRun := Y[0];
      solutions := solutions + [bestSolutionFromRun];
      valueSolutions := valueSolutions + [valueBestSolutionFromRun];
      if valueBestSolutionFromRun < valueBestSolution.value {
        // `optimize` has just set the best cost to this run's, so the
        // update that would keep the better of the runs cannot happen.
        assert false;
      }
    }

    /** `optimizeMultipleRuns(runs:maxIterationsEachRun:)`: runs 1 to
        `runs` in turn, each appending its best vertex to `solutions`; the
        best solution is the last run's. `draws(n, i, j)` and
        `noise(n, t, i, j)` are the draws of run n. */
    method OptimizeMultipleRuns(runs: int, maxIterationsEachRun: int,
                                draws: (int, int, int) -> real, noise: (int, int, int, int) -> real)
      requires runs >= 1 && p >= 1 && Recorded()
      requires minInitSolution.Dimensions() == p && ProperBox(minInitSolution, maxInitSolution)
      requires forall n, i, j :: 0 <= j < p ==>
        minInitSolution.vector[j] <= draws(n, i, j) <= maxInitSolution.vector[j]
      requires forall n, t, i, j :: -1.0 <= noise(n, t, i, j) <= 1.0
      modifies this
      ensures Valid() && Recorded()
      ensures totalRuns == runs && runNr == runs && iterationNr >= 1
      ensures |solutions| == |old(solutions)| + runs
      ensures solutions[..|old(solutions)|] == old(solutions)
      ensures valueSolutions[..|old(valueSolutions)|] == old(valueSolutions)
      ensures solutions[|solutions| - 1] == X[0] && valueSolutions[|valueSolutions| - 1] == Y[0]
      ensures bestSolution == Some(X[0]) && valueBestSolution == Some(Y[0])
    {
      totalRuns := runs;
      for n := 1 to runs + 1
        invariant Recorded() && totalRuns == runs
        invariant |solutions| == |old(solutions)| + (n - 1)
        invariant solutions[..|old(solutions)|] == old(solutions)
        invariant valueSolutions[..|old(valueSolutions)|] == old(valueSolutions)
        invariant n > 1 ==> Valid() && runNr == n - 1 && iterationNr >= 1
        invariant n > 1 ==> solutions[|solutions| - 1] == X[0] && valueSolutions[|valueSolutions| - 1] == Y[0]
        invariant n > 1 ==> bestSolution == Some(X[0]) && valueBestSolution == Some(Y[0])
      {
        OptimizeRun(n, maxIterationsEachRun, (i, j) => draws(n, i, j), (t, i, j) => noise(n, t, i, j));
      }
    }
  }
}
