/** The upper zone (Sources/SwiftHBV/models/3-UpperZoneTank.swift): a store
    UZ with a quick outflow Q1 above the level UZ1, a slow outflow Q0, and
    percolation to the lower zone. When the store cannot supply the
    percolation, the shared parameter `perc` itself is lowered, and it
    stays lowered for every later step. */
module UpperZone {
  import opened MathFunctions
  import opened Catchment
  import opened Parameters

  /** The new state, the percolation (the new value of `perc`) and the two
      outflows of one time step. */
  datatype UpperOutput = UpperOutput(uz: real, perc: real, q1: real, q0: real)

  /** The quick outflow: KUZ1 times the part of the store above UZ1. */
  function QuickFlow(uz: real, mp: Params): real
  {
    mp.kuz1 * Max(0.0, uz - mp.uz1)
  }

  /** The slow outflow: KUZ0 times the part of the store up to UZ1. */
  function SlowFlow(uz: real, mp: Params): real
  {
    mp.kuz0 * Min(mp.uz1, uz)
  }

  /** One step: add the input, take both outflows from the filled store,
      lower `perc` to what is left when that is less, then percolate. */
  function UpperStep(uz: real, dUZ: real, mp: Params): (r: UpperOutput)
    ensures r.uz + r.perc + r.q1 + r.q0 == uz + dUZ
    ensures r.uz >= 0.0 && r.perc <= mp.perc
    ensures r.perc < mp.perc ==> r.uz == 0.0
  {
    var uzIn := uz + dUZ;
    var q1 := QuickFlow(uzIn, mp);
    var q0 := SlowFlow(uzIn, mp);
    var rest := uzIn - q1 - q0;
    var perc := if mp.perc > rest then rest else mp.perc;
    UpperOutput(rest - perc, perc, q1, q0)
  }

  /** Water is conserved; the store never ends negative; the percolation
      never exceeds `perc` and falls short of it only when it empties the
      store. */
  lemma UpperStepBalance(uz: real, dUZ: real, mp: Params)
    ensures var r := UpperStep(uz, dUZ, mp);
      r.uz + r.perc + r.q1 + r.q0 == uz + dUZ &&
      r.uz >= 0.0 &&
      r.perc <= mp.perc &&
      (r.perc < mp.perc ==> r.uz == 0.0)
  {
  }

  /** The step sees only the filled level: new water and stored water of
      the same total give the same response. */
  lemma OnlyFilledLevelMatters(uz1: real, dUZ1: real, uz2: real, dUZ2: real, mp: Params)
    requires uz1 + dUZ1 == uz2 + dUZ2
    ensures UpperStep(uz1, dUZ1, mp) == UpperStep(uz2, dUZ2, mp)
  {
  }

  /** With a rate in [0, 1], the quick outflow is a non-negative part
      of the water above UZ1. */
  lemma QuickFlowBounded(uz: real, mp: Params)
    requires 0.0 <= mp.kuz1 <= 1.0
    ensures 0.0 <= QuickFlow(uz, mp) <= Max(0.0, uz - mp.uz1)
  {
    FractionOf(mp.kuz1, Max(0.0, uz - mp.uz1));
  }

  /** Up to UZ1 there is no quick outflow. */
  lemma NoQuickFlowUpToUZ1(uz: real, mp: Params)
    requires uz <= mp.uz1
    ensures QuickFlow(uz, mp) == 0.0
  {
    assert Max(0.0, uz - mp.uz1) == 0.0;
  }

  /** With a rate in [0, 1], a non-negative UZ1 and a non-negative store,
      the slow outflow is a non-negative part of the water up to UZ1. */
  lemma SlowFlowBounded(uz: real, mp: Params)
    requires 0.0 <= mp.kuz0 <= 1.0 && mp.uz1 >= 0.0 && uz >= 0.0
    ensures 0.0 <= SlowFlow(uz, mp) <= Min(mp.uz1, uz)
  {
    FractionOf(mp.kuz0, Min(mp.uz1, uz));
  }

  /** Above UZ1 the slow outflow no longer grows with the store. */
  lemma SlowFlowSaturates(uz: real, mp: Params)
    requires uz >= mp.uz1
    ensures SlowFlow(uz, mp) == SlowFlow(mp.uz1, mp)
  {
    assert Min(mp.uz1, uz) == mp.uz1 == Min(mp.uz1, mp.uz1);
  }

  /** Under the same conditions the two outflows together never exceed
      the store they are taken from. */
  lemma OutflowsBounded(uz: real, mp: Params)
    requires 0.0 <= mp.kuz1 <= 1.0 && 0.0 <= mp.kuz0 <= 1.0 && mp.uz1 >= 0.0
    requires uz >= 0.0
    ensures QuickFlow(uz, mp) + SlowFlow(uz, mp) <= uz
  {
    QuickFlowBounded(uz, mp);
    SlowFlowBounded(uz, mp);
  }

  /** `k * x` lies between 0 and x when k is a fraction and x is not
      negative. */
  lemma FractionOf(k: real, x: real)
    requires 0.0 <= k <= 1.0 && x >= 0.0
    ensures 0.0 <= k * x <= x
  {
    assert x - k * x == (1.0 - k) * x;
  }

  /** Once `perc` has been lowered, the next step starts from the lowered
      value: a run of steps never raises it. */
  lemma {:induction false} PercNeverRises(uz: real, inputs: seq<real>, mp: Params)
    ensures RunPerc(uz, inputs, mp) <= mp.perc
    decreases |inputs|
  {
    if |inputs| > 0 {
      var r := UpperStep(uz, inputs[0], mp);
      PercNeverRises(r.uz, inputs[1..], mp.(perc := r.perc));
    }
  }

  /** The value of `perc` after a run of steps over the given inputs. */
  function RunPerc(uz: real, inputs: seq<real>, mp: Params): real
    decreases |inputs|
  {
    if |inputs| == 0 then mp.perc
    else
      var r := UpperStep(uz, inputs[0], mp);
      RunPerc(r.uz, inputs[1..], mp.(perc := r.perc))
  }

  /** The parameters of the upper zone's worked examples: KUZ1 = 1,
      KUZ0 = 0.1, UZ1 = 20 and perc = 1.5. */
  const TestParams: Params := DefaultParams.(kuz1 := 1.0, kuz0 := 0.1, uz1 := 20.0, perc := 1.5)

  /** 30 mm in the store, or 30 mm of new water, give a quick outflow of
      10 mm, a slow one of 2 mm and the full percolation. */
  lemma FastResponseExample()
    ensures UpperStep(30.0, 0.0, TestParams) == UpperOutput(16.5, 1.5, 10.0, 2.0)
    ensures UpperStep(0.0, 30.0, TestParams) == UpperOutput(16.5, 1.5, 10.0, 2.0)
  {
  }

  /** 0.5 mm cannot supply 1.5 mm of percolation: `perc` drops to 0.45 and
      the store empties. */
  lemma PercTurnOffExample()
    ensures UpperStep(0.5, 0.0, TestParams) == UpperOutput(0.0, 0.45, 0.0, 0.05)
  {
    var p := TestParams;
    assert p.kuz1 == 1.0 && p.kuz0 == 0.1 && p.uz1 == 20.0 && p.perc == 1.5;
    assert QuickFlow(0.5 + 0.0, p) == 0.0 && SlowFlow(0.5 + 0.0, p) == 0.05;
    var r := UpperStep(0.5, 0.0, p);
    assert r.q1 == 0.0 && r.q0 == 0.05;
    assert r.perc == 0.45;
  }

  /** After the drop, 10 mm of new water still percolates only 0.45 mm. */
  lemma PercStaysLoweredExample()
    ensures UpperStep(0.0, 10.0, TestParams.(perc := 0.45)) == UpperOutput(8.55, 0.45, 0.0, 1.0)
  {
    var p := TestParams.(perc := 0.45);
    assert p.kuz1 == 1.0 && p.kuz0 == 0.1 && p.uz1 == 20.0 && p.perc == 0.45;
    assert QuickFlow(0.0 + 10.0, p) == 0.0 && SlowFlow(0.0 + 10.0, p) == 1.0;
    var r := UpperStep(0.0, 10.0, p);
    assert r.q1 == 0.0 && r.q0 == 1.0;
    assert r.perc == 0.45;
  }

  /** `UpperZoneTank`: the upper store, updated in place each step. */
  class UpperZoneTank {
    const cp: CatchmentParameters
    const mp: ModelParameters
    var uz: real

    constructor (cp: CatchmentParameters, mp: ModelParameters)
      ensures this.cp == cp && this.mp == mp && uz == 0.0
    {
      this.cp := cp;
      this.mp := mp;
      uz := 0.0;
    }

    /** `resetState`: an empty upper zone; `perc` is not restored. */
    method ResetState()
      modifies this`uz
      ensures uz == 0.0
    {
      uz := 0.0;
    }

    /** `simulateTimestepAndGetOutput(dUZ:)`: moves the store one step,
        lowering the shared `perc` when the store cannot supply it, and
        returns the percolation and the two outflows. */
    method SimulateTimestepAndGetOutput(dUZ: real) returns (perc: real, q1: real, q0: real)
      modifies this`uz, mp`perc
      ensures var r := UpperStep(old(uz), dUZ, old(mp.Values()));
        uz == r.uz && perc == r.perc && q1 == r.q1 && q0 == r.q0 &&
        mp.Values() == old(mp.Values()).(perc := r.perc)
    {
      uz := uz + dUZ;
      q1 := QuickFlow(uz, mp.Values());
      q0 := SlowFlow(uz, mp.Values());
      uz := uz - q1 - q0;
      if mp.perc > uz {
        mp.perc := uz;
      }
      uz := uz - mp.perc;
      perc := mp.perc;
    }
  }
}
