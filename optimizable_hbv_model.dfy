/** The calibration target of Sources/SwiftHBV/searcher/OptimizableHBVModel.swift:
    an HBV model bound to a training series, whose cost for a candidate
    parameter vector combines the Nash–Sutcliffe efficiency of the
    discharge with the normalized absolute error of the accumulated
    discharge, both over the series after a warm-up of 30 steps. The
    Swift subclass becomes a class that holds its `HBVModel`. */
module OptimizableHBV {
  import opened MathFunctions
  import opened Objectives
  import opened Catchment
  import opened Parameters
  import opened Vectors
  import opened FloatingPoint
  import FP = FloatingPoint
  import HBV

  /** The warm-up: steps left out of the cost while the tanks fill. */
  const OmitFirst: nat := 30

  /** The observed discharges of a series, in order. */
  function Discharges(series: seq<CatchmentTimestep>): (q: seq<real>)
    ensures |q| == |series|
    ensures forall i :: 0 <= i < |series| ==> q[i] == series[i].discharge
  {
    seq(|series|, i requires 0 <= i < |series| => series[i].discharge)
  }

  /** `0.8*cost1 + 0.2*cost2` with `cost1 = 1.0 - R2_Q` and
      `cost2 = 1.0 - nae_Q_acc`, in IEEE arithmetic: the cost of a
      simulation scoring `r2` on the discharge and `nae` on the
      accumulated discharge. */
  function WeightedCost(r2: Float, nae: Float): (c: Float)
    ensures r2.Finite? && nae.Finite? ==>
      c == Finite(0.8 * (1.0 - r2.value) + 0.2 * (1.0 - nae.value))
    ensures r2.NaN? || nae.NaN? ==> c.NaN?
  {
    if r2.Finite? && nae.Finite? then Finite(0.8 * (1.0 - r2.value) + 0.2 * (1.0 - nae.value))
    else FP.FloatSum(FP.Product(0.8, FP.Difference(1.0, r2)), FP.Product(0.2, FP.Difference(1.0, nae)))
  }

  /** With both scores finite and at most 1 the cost is finite and never
      negative, and it is zero exactly when both scores are perfect. */
  lemma WeightedCostZeroIffPerfect(r2: real, nae: real)
    requires r2 <= 1.0 && nae <= 1.0
    ensures WeightedCost(Finite(r2), Finite(nae)).Finite?
    ensures WeightedCost(Finite(r2), Finite(nae)).value >= 0.0
    ensures WeightedCost(Finite(r2), Finite(nae)) == Finite(0.0) <==> r2 == 1.0 && nae == 1.0
  {
  }

  /** The cost is the IEEE evaluation of the weighted sum in every case,
      finite or not. */
  lemma WeightedCostIsIeee(r2: Float, nae: Float)
    ensures WeightedCost(r2, nae) ==
      FP.FloatSum(FP.Product(0.8, FP.Difference(1.0, r2)), FP.Product(0.2, FP.Difference(1.0, nae)))
  {
  }

  /** Two finite scores that are perfect exactly when their errors vanish
      give a zero cost exactly when both errors vanish. */
  lemma WeightedCostZeroIffNoError(r2: Float, nae: Float, e1: real, e2: real)
    requires r2.Finite? && r2.value <= 1.0 && (r2.value == 1.0 <==> e1 == 0.0)
    requires nae.Finite? && nae.value <= 1.0 && (nae.value == 1.0 <==> e2 == 0.0)
    ensures WeightedCost(r2, nae) == Finite(0.0) <==> e1 == 0.0 && e2 == 0.0
  {
    WeightedCostZeroIffPerfect(r2.value, nae.value);
  }

  /** Scores are never plus infinity. When one of them is not finite, the
      cost is not finite either: NaN when a score is NaN, and plus infinity
      when a score is minus infinity and neither is NaN. */
  lemma WeightedCostOfUndefinedScore(r2: Float, nae: Float)
    requires !r2.Infinity? && !nae.Infinity?
    requires !r2.Finite? || !nae.Finite?
    ensures WeightedCost(r2, nae).NaN? <==> r2.NaN? || nae.NaN?
    ensures WeightedCost(r2, nae).Infinity? <==> !r2.NaN? && !nae.NaN?
  {
  }

  /** The accumulated simulation after the warm-up still counts the
      warm-up's discharge: it is the accumulation restarted after the
      warm-up, shifted by the warm-up total. The observed accumulation it
      is compared with starts from zero. */
  lemma AccumulationOffset(qs: seq<real>, k: nat)
    requires k <= |qs|
    ensures |Cumsum(qs)[k..]| == |Cumsum(qs[k..])|
    ensures forall i :: 0 <= i < |qs| - k ==>
      Cumsum(qs)[k..][i] == Sum(qs[..k]) + Cumsum(qs[k..])[i]
  {
    forall i | 0 <= i < |qs| - k
      ensures Cumsum(qs)[k..][i] == Sum(qs[..k]) + Cumsum(qs[k..])[i]
    {
      CumsumOfTail(qs, k, i);
    }
  }

  /** Two series that differ everywhere by the same non-zero amount have a
      positive absolute error. */
  lemma ShiftedSeriesDiffer(a: seq<real>, b: seq<real>, c: real)
    requires |a| == |b| && |a| > 0 && c != 0.0
    requires forall i :: 0 <= i < |a| ==> a[i] == b[i] + c
    ensures AbsoluteError(a, b) > 0.0
  {
    var d := Abs(Differences(a, b));
    assert Differences(a, b)[0] == c;
    assert d[0] > 0.0;
    SumPositive(d, 0);
  }

  /** A simulation that matches a series exactly after step `k` has a
      running sum that matches the series' own running sum exactly when
      the first `k` simulated values sum to zero. */
  lemma ExactTailAccumulationError(qs: seq<real>, k: nat, obs: seq<real>)
    requires k < |qs| && qs[k..] == obs
    ensures AbsoluteError(Cumsum(qs)[k..], Cumsum(obs)) == 0.0 <==> Sum(qs[..k]) == 0.0
  {
    AccumulationOffset(qs, k);
    var simAcc := Cumsum(qs)[k..];
    var c := Sum(qs[..k]);
    if c == 0.0 {
      assert simAcc == Cumsum(obs);
    } else {
      ShiftedSeriesDiffer(simAcc, Cumsum(obs), c);
    }
  }

  /** The bounds of the initial simplex: the parameter vector scaled by
      0.6 and by 1.9. */
  function LowerBound(v: Vector): Vector
  {
    Minus(v, Scaled(v, 0.4))
  }

  function UpperBound(v: Vector): Vector
  {
    Plus(v, Scaled(v, 0.9))
  }

  /** The bounds are the vector scaled by 0.6 and 1.9, so they enclose
      every non-negative element; the default parameters are all
      positive, so their box is proper in every dimension. */
  lemma BoundsEnclose(v: Vector)
    ensures LowerBound(v).Dimensions() == UpperBound(v).Dimensions() == v.Dimensions()
    ensures forall i :: 0 <= i < v.Dimensions() ==>
      LowerBound(v).vector[i] == 0.6 * v.vector[i] &&
      UpperBound(v).vector[i] == 1.9 * v.vector[i]
    ensures forall i :: 0 <= i < v.Dimensions() && v.vector[i] >= 0.0 ==>
      LowerBound(v).vector[i] <= v.vector[i] <= UpperBound(v).vector[i]
  {
  }

  lemma DefaultBoundsProper()
    ensures var v := Vector(ToVector(DefaultParams));
      forall i :: 0 <= i < 16 ==> 0.0 < LowerBound(v).vector[i] < UpperBound(v).vector[i]
  {
    DefaultVector();
  }

  /** `OptimizableHBVModel`: the model, its training series, the bounds of
      the initial simplex and the observed series stored once. */
  class OptimizableHBVModel {
    const model: HBV.HBVModel
    const omitFirstXts: nat
    const trainingset: seq<CatchmentTimestep>
    var minInitSolution: Vector
    var maxInitSolution: Vector
    const qObs: seq<real>
    const qObsMean: real
    const qObsAcc: seq<real>
    const qObsAccMean: real

    /** The stored observations are the discharge after the warm-up, its
        running sum and the means of both. */
    predicate Observed()
    {
      omitFirstXts == OmitFirst && |trainingset| >= omitFirstXts &&
      qObs == Discharges(trainingset[omitFirstXts..]) && qObsMean == Mean(qObs) &&
      qObsAcc == Cumsum(qObs) && qObsAccMean == Mean(qObsAcc)
    }

    /** The observations are stored and the model's parameter object is
        still the one its tanks read. */
    predicate Valid()
      reads model`mp
    {
      Observed() && model.Valid() && model.mp == model.TankParams()
    }

    /** Both scores are defined: the observations after the warm-up, and
        their running sums, are not all equal to their mean. */
    predicate Scorable()
    {
      SquaredErrorTo(qObs, qObsMean) != 0.0 && AbsoluteErrorTo(qObsAcc, qObsAccMean) != 0.0
    }

    /** `init(_:_:trainingset:)`: the bounds come from the values `mp` holds
        now; the model runs on `mp` itself. The warm-up must fit in the
        series, since slicing past its end is fatal. */
    constructor (cp: CatchmentParameters, mp: ModelParameters, trainingset: seq<CatchmentTimestep>)
      requires |trainingset| >= OmitFirst
      ensures Valid() && fresh(model)
      ensures this.trainingset == trainingset && model.cp == cp && model.mp == mp
      ensures model.State() == HBV.InitialState(10) && mp.Values() == old(mp.Values())
      ensures var v := Vector(ToVector(mp.Values()));
        minInitSolution == LowerBound(v) && maxInitSolution == UpperBound(v)
    {
      this.trainingset := trainingset;
      omitFirstXts := OmitFirst;
      var mpVec := Vector(mp.AsVector());
      var low := ScalarMultiply(0.4, mpVec);
      var minSolution := Subtract(mpVec, low);
      var high := ScalarMultiply(0.9, mpVec);
      var maxSolution := Add(mpVec, high);
      minInitSolution, maxInitSolution := minSolution, maxSolution;
      var obs := Discharges(trainingset[OmitFirst..]);
      qObs := obs;
      qObsMean := Mean(obs);
      qObsAcc := Cumsum(obs);
      qObsAccMean := Mean(Cumsum(obs));
      model := new HBV.HBVModel(cp, mp);
    }

    /** `init(_:trainingset:)`: the same with a fresh default parameter
        object, whose box is proper in every dimension. */
    constructor WithDefaults(cp: CatchmentParameters, trainingset: seq<CatchmentTimestep>)
      requires |trainingset| >= OmitFirst
      ensures Valid() && fresh(model) && fresh(model.mp)
      ensures this.trainingset == trainingset && model.cp == cp
      ensures model.mp.Values() == DefaultParams
      ensures var v := Vector(ToVector(DefaultParams));
        minInitSolution == LowerBound(v) && maxInitSolution == UpperBound(v)
    {
      var mp := new ModelParameters();
      this.trainingset := trainingset;
      omitFirstXts := OmitFirst;
      var mpVec := Vector(mp.AsVector());
      var low := ScalarMultiply(0.4, mpVec);
      var minSolution := Subtract(mpVec, low);
      var high := ScalarMultiply(0.9, mpVec);
      var maxSolution := Add(mpVec, high);
      minInitSolution, maxInitSolution := minSolution, maxSolution;
      var obs := Discharges(trainingset[OmitFirst..]);
      qObs := obs;
      qObsMean := Mean(obs);
      qObsAcc := Cumsum(obs);
      qObsAccMean := Mean(Cumsum(obs));
      model := new HBV.HBVModel(cp, mp);
    }

    /** The cost of a simulated discharge series over the training series:
        the scores of the discharge and of its running sum, both after the
        warm-up, against the stored observations. It is a finite,
        non-negative number when both stored series spread about their
        stored means; otherwise a score divides by zero and the cost is
        plus infinity or NaN. */
    function CostOfDischarges(qs: seq<real>): (c: Float)
      requires |qs| >= omitFirstXts
      ensures Scorable() ==> c.Finite? && c.value >= 0.0
      ensures !Scorable() ==> c.Infinity? || c.NaN?
    {
      var r2 := R2WithMean(qs[omitFirstXts..], qObs, qObsMean);
      var nae := NormalizedAbsoluteErrorWithMean(Cumsum(qs)[omitFirstXts..], qObsAcc, qObsAccMean);
      if Scorable() then
        WeightedCostZeroIffPerfect(r2.value, nae.value);
        WeightedCost(r2, nae)
      else
        WeightedCostOfUndefinedScore(r2, nae);
        WeightedCost(r2, nae)
    }

    /** The stored means are the true means, so the cost is the plain
        Nash–Sutcliffe efficiency and normalized absolute error combined. */
    lemma CostIsPlainScores(qs: seq<real>)
      requires Observed() && |qs| >= omitFirstXts
      ensures CostOfDischarges(qs) == WeightedCost(R2(qs[omitFirstXts..], qObs),
                                                   NormalizedAbsoluteError(Cumsum(qs)[omitFirstXts..], qObsAcc))
    {
    }

    /** With both scores defined, the cost is zero exactly when the
        simulation reproduces both the discharge and the accumulated
        discharge after the warm-up. */
    lemma CostZeroIffPerfectFit(qs: seq<real>)
      requires Observed() && Scorable() && |qs| >= omitFirstXts
      ensures CostOfDischarges(qs) == Finite(0.0) <==>
        SquaredError(qs[omitFirstXts..], qObs) == 0.0 &&
        AbsoluteError(Cumsum(qs)[omitFirstXts..], qObsAcc) == 0.0
    {
      var sim, simAcc := qs[omitFirstXts..], Cumsum(qs)[omitFirstXts..];
      WeightedCostZeroIffNoError(R2WithMean(sim, qObs, qObsMean),
                                 NormalizedAbsoluteErrorWithMean(simAcc, qObsAcc, qObsAccMean),
                                 SquaredError(sim, qObs), AbsoluteError(simAcc, qObsAcc));
    }

    /** A constant observed discharge after the warm-up cannot be scored:
        every candidate then costs plus infinity or NaN. */
    lemma ConstantObservationsCannotBeScored(qs: seq<real>, c: real)
      requires Observed() && |qs| >= omitFirstXts
      requires forall i :: 0 <= i < |qObs| ==> qObs[i] == c
      ensures !Scorable()
      ensures CostOfDischarges(qs).Infinity? || CostOfDischarges(qs).NaN?
    {
      ConstantHasNoSpread(qObs, c);
    }

    /** A simulation that reproduces the observed discharge after the
        warm-up exactly still has a positive cost when its warm-up
        discharge does not sum to zero: its running sum carries the warm-up
        total, the observed one does not. */
    lemma ExactDischargeStillCosts(qs: seq<real>)
      requires Observed() && Scorable() && |qs| > omitFirstXts
      requires qs[omitFirstXts..] == qObs
      ensures CostOfDischarges(qs) == Finite(0.0) <==> Sum(qs[..omitFirstXts]) == 0.0
    {
      CostZeroIffPerfectFit(qs);
      ExactTailAccumulationError(qs, omitFirstXts, qObs);
    }

    /** A candidate the model can be run with: sixteen values with non-zero
        FC and ET and a non-zero step length. */
    predicate Runnable(v: seq<real>)
      reads model`mp
    {
      Valid() && |v| == 16 && model.cp.secondsPerTimestep != 0 &&
      FromVector(v).fc != 0.0 && FromVector(v).et != 0.0
    }

    /** The cost of a candidate parameter vector: the cost of running the
        model from empty tanks over the training series with those values. */
    ghost function TrainingCost(v: seq<real>, pow: (real, real) -> real): (c: Float)
      requires Runnable(v)
      reads model`mp
      ensures Scorable() ==> c.Finite? && c.value >= 0.0
      ensures !Scorable() ==> c.Infinity? || c.NaN?
    {
      var run := HBV.Run(HBV.InitialState(10), trainingset, FromVector(v), FromVector(v),
                         model.cp, model.Elevations(), pow);
      CostOfDischarges(run.discharges)
    }

    /** The scoring half of `testCost(solution:)`: the two scores of the
        simulated series after the warm-up, weighted 0.8 and 0.2. */
    method Score(qSimAll: seq<real>, qSimAccAll: seq<real>) returns (cost: Float)
      requires Observed() && |qSimAll| >= omitFirstXts && qSimAccAll == Cumsum(qSimAll)
      ensures cost == CostOfDischarges(qSimAll)
    {
      var qSim := qSimAll[omitFirstXts..];
      var qSimAcc := qSimAccAll[omitFirstXts..];
      var r2Q := R2WithMean(qSim, qObs, qObsMean);
      var naeQAcc := NormalizedAbsoluteErrorWithMean(qSimAcc, qObsAcc, qObsAccMean);
      var cost1 := FP.Difference(1.0, r2Q);
      var cost2 := FP.Difference(1.0, naeQAcc);
      cost := FP.FloatSum(FP.Product(0.8, cost1), FP.Product(0.2, cost2));
      WeightedCostIsIeee(r2Q, naeQAcc);
    }

    /** `testCost(solution:)`: reset the model to the candidate, run the
        training series and score it. The cost depends on the candidate
        alone. The model is left as the run leaves it: its tanks and
        accumulators hold the run's final state, `qs` and `qsAcc` its
        discharges and their running sum, and the shared parameter object
        the candidate's values with perc as the run has lowered it. */
    method TestCost(solution: Vector, pow: (real, real) -> real) returns (cost: Float)
      requires Runnable(solution.vector)
      modifies model`qs, model`qsAcc, model`accumulatedWaterIn, model`accumulatedWaterOut
      modifies model.mp, model.snowTanks, model.soilMoistureTank, model.upperZoneTank, model.lowerZoneTank
      ensures Runnable(solution.vector)
      ensures cost == TrainingCost(solution.vector, pow)
      ensures var run := HBV.Run(HBV.InitialState(10), trainingset, FromVector(solution.vector),
                                 FromVector(solution.vector), model.cp, model.Elevations(), pow);
        model.qs == run.discharges && model.qsAcc == Cumsum(model.qs) &&
        model.State() == run.state && model.mp.Values() == run.tanks
    {
      var modelParams := solution.vector;
      var qSimAll, qSimAccAll := model.ResetHBVAndSimulateDischarge(modelParams, trainingset, pow);
      cost := Score(qSimAll, qSimAccAll);
    }
  }
}
