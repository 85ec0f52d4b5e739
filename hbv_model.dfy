/** The full HBV model (Sources/SwiftHBV/models/0-HBVModel.swift): ten snow
    bands at the mean elevations of the catchment's percentile breakpoints,
    one soil moisture tank, one upper and one lower zone, all reading one
    shared `ModelParameters` object. One time step corrects the observed
    precipitation, runs every band, feeds the mean of their releases
    through soil, upper and lower zone, and returns the discharge in m³/s. */
module HBV {
  import opened MathFunctions
  import opened Catchment
  import opened Parameters
  import Snow
  import SoilMoisture
  import UpperZone
  import LowerZone
  import Vectors

  /** Swift's `Int(_:)` on a Double: the integer part, rounded toward zero. */
  function TruncateTowardZero(x: real): (n: int)
    ensures x >= 0.0 ==> 0.0 <= n as real <= x < n as real + 1.0
    ensures x < 0.0 ==> n as real - 1.0 < x <= n as real && n <= 0
  {
    if x >= 0.0 then x.Floor else -((-x).Floor)
  }

  /** Half an integer sum, truncated toward zero, is the integer division
      toward zero. */
  lemma HalfTruncates(s: int)
    ensures TruncateTowardZero(s as real / 2.0) == (if s >= 0 then s / 2 else -((-s) / 2))
  {
    var h := s as real / 2.0;
    if s >= 0 {
      assert (s / 2) as real <= h < (s / 2) as real + 1.0;
    } else {
      assert ((-s) / 2) as real <= -h < ((-s) / 2) as real + 1.0;
    }
  }

  /** The elevation of each snow band: the truncated mean of two
      neighbouring breakpoints, one band fewer than breakpoints. */
  function BandElevations(levels: seq<int>): (e: seq<int>)
    requires |levels| > 0
    ensures |e| == |levels| - 1
    ensures forall i :: 0 <= i < |e| && levels[i] <= levels[i + 1] ==> levels[i] <= e[i] <= levels[i + 1]
  {
    seq(|levels| - 1, i requires 0 <= i < |levels| - 1 => Midpoint(levels[i], levels[i + 1]))
  }

  /** The mean of two breakpoints as `Int(Double(a + b) / 2.0)`. */
  function Midpoint(a: int, b: int): (m: int)
    ensures a <= b ==> a <= m <= b
  {
    HalfTruncatesBetween(a, b);
    TruncateTowardZero((a + b) as real / 2.0)
  }

  /** The truncated mean of two ordered integers lies between them. */
  lemma HalfTruncatesBetween(a: int, b: int)
    ensures a <= b ==> a <= TruncateTowardZero((a + b) as real / 2.0) <= b
  {
    HalfTruncates(a + b);
  }

  /** The example catchment's bands lie at 251, 492, 570, 633, 702, 777,
      847, 913, 983 and 1172 m: the half metres of odd sums are dropped. */
  lemma ExampleBandElevations()
    ensures BandElevations(Example().SnowLevels()) == [251, 492, 570, 633, 702, 777, 847, 913, 983, 1172]
  {
    var l := Example().SnowLevels();
    var e := BandElevations(l);
    var expected := [251, 492, 570, 633, 702, 777, 847, 913, 983, 1172];
    forall i | 0 <= i < 10
      ensures e[i] == expected[i]
    {
      HalfTruncates(l[i] + l[i + 1]);
    }
  }

  /** The observed precipitation corrected by S_corr when the observed
      temperature is below Tx, by P_corr otherwise. */
  function CorrectedPrecipitation(pObs: real, tObs: real, mp: Params): (c: real)
    ensures pObs == 0.0 ==> c == 0.0
    ensures mp.sCorr == mp.pCorr ==> c == pObs * mp.pCorr
    ensures c == pObs * mp.sCorr || c == pObs * mp.pCorr
  {
    if tObs < mp.tx then pObs * mp.sCorr else pObs * mp.pCorr
  }

  /** m³/s to mm per time step over the catchment area (km²). */
  function ConvertToQmmPerTimestep(qm3s: real, cp: CatchmentParameters): (q: real)
    requires cp.catchmentArea != 0.0
    ensures qm3s == 0.0 ==> q == 0.0
    ensures cp.secondsPerTimestep != 0 ==> ConvertToQm3PerS(q, cp) == qm3s
  {
    ScaleRoundTrip(qm3s, cp.catchmentArea, cp.secondsPerTimestep as real);
    qm3s / cp.catchmentArea / 1000.0 * (cp.secondsPerTimestep as real)
  }

  /** Dividing by the area and multiplying by the time step is undone by
      the reverse, whenever the time step is not zero. */
  lemma ScaleRoundTrip(x: real, a: real, t: real)
    requires a != 0.0
    ensures t != 0.0 ==> x / a / 1000.0 * t * a * 1000.0 / t == x
  {
    if t != 0.0 {
      assert x / a / 1000.0 * t * a * 1000.0 == x * t;
    }
  }

  /** mm per time step to m³/s over the catchment area (km²). */
  function ConvertToQm3PerS(qmm: real, cp: CatchmentParameters): (q: real)
    requires cp.secondsPerTimestep != 0
    ensures cp.catchmentArea > 0.0 && cp.secondsPerTimestep > 0 ==> (q > 0.0 <==> qmm > 0.0)
    ensures cp.catchmentArea != 0.0 ==> (q == 0.0 <==> qmm == 0.0)
  {
    qmm * cp.catchmentArea * 1000.0 / (cp.secondsPerTimestep as real)
  }

  /** The two conversions are inverse to each other for a non-zero area
      and time step, in both orders. */
  lemma ConversionRoundTrip(x: real, cp: CatchmentParameters)
    requires cp.catchmentArea != 0.0 && cp.secondsPerTimestep != 0
    ensures ConvertToQm3PerS(ConvertToQmmPerTimestep(x, cp), cp) == x
    ensures ConvertToQmmPerTimestep(ConvertToQm3PerS(x, cp), cp) == x
  {
    var a := cp.catchmentArea;
    var t := cp.secondsPerTimestep as real;
    assert x / a / 1000.0 * t * a * 1000.0 / t == x;
    assert x * a * 1000.0 / t / a / 1000.0 * t == x;
  }

  /** One day of 1 mm over the example catchment is 3059.5 * 1000 / 86400
      m³/s. */
  lemma ExampleConversion()
    ensures ConvertToQm3PerS(86.4, Example()) == 3059.5
  {
  }

  /** The state of one snow band. */
  datatype BandState = BandState(sn: real, sw: real)

  /** Everything one step changes: the bands, the three lower stores and
      the two accumulators. */
  datatype CascadeState = CascadeState(
    bands: seq<BandState>,
    sm: real,
    uz: real,
    lz: real,
    waterIn: real,
    waterOut: real)

  /** The state after `resetState`: empty stores, zero accumulators. */
  function InitialState(n: nat): (s: CascadeState)
    ensures |s.bands| == n
  {
    CascadeState(seq(n, i => BandState(0.0, 0.0)), 0.0, 0.0, 0.0, 0.0, 0.0)
  }

  /** The result of one step: the new state, the tank parameters with the
      possibly lowered `perc`, and the discharge in mm and in m³/s. */
  datatype StepResult = StepResult(state: CascadeState, tanks: Params, qmm: real, discharge: real)

  /** Every band stepped with the same corrected precipitation and
      observed temperature. */
  function BandOutputs(bands: seq<BandState>, p: real, t: real, elev: seq<int>,
                       cp: CatchmentParameters, tanks: Params): (o: seq<Snow.SnowOutput>)
    requires |bands| == |elev|
    ensures |o| == |bands|
  {
    seq(|bands|, i requires 0 <= i < |bands| =>
      Snow.SnowStep(bands[i].sn, bands[i].sw, p, t, elev[i], cp, tanks))
  }

  /** What each band releases to the soil. */
  function Insoils(o: seq<Snow.SnowOutput>): (r: seq<real>)
    ensures |r| == |o|
  {
    seq(|o|, i requires 0 <= i < |o| => o[i].insoil)
  }

  /** The new band states. */
  function NewBands(o: seq<Snow.SnowOutput>): (r: seq<BandState>)
    ensures |r| == |o|
  {
    seq(|o|, i requires 0 <= i < |o| => BandState(o[i].sn, o[i].sw))
  }

  /** The new soil moisture and zone states, the percolation (the new
      `perc`), the discharge in mm and the evaporation of one step. */
  datatype ZoneResult = ZoneResult(sm: real, uz: real, lz: real, perc: real, qmm: real, evap: real)

  /** The zones' part of a step: the mean release `insoil` through the soil
      moisture tank, the upper zone and the lower zone, which also gets the
      corrected precipitation `p` on its lakes. */
  function ZoneStep(sm: real, uz: real, lz: real, insoil: real, p: real, tanks: Params,
                    cp: CatchmentParameters, pow: (real, real) -> real): (z: ZoneResult)
    requires tanks.fc != 0.0 && tanks.et != 0.0
    ensures z.sm + z.uz + z.lz + z.qmm + z.evap == sm + uz + lz + insoil + LowerZone.LakePrecipitation(p, cp)
    ensures z.sm >= 0.0 && z.uz >= 0.0 && z.perc <= tanks.perc
  {
    var soil := SoilMoisture.SoilStep(sm, insoil, tanks, pow);
    var upper := UpperZone.UpperStep(uz, soil.dUZ, tanks);
    var lower := LowerZone.LowerStep(lz, p, upper.perc, cp, tanks.(perc := upper.perc));
    ZoneResult(soil.sm, upper.uz, lower.lz, upper.perc,
               upper.q1 + upper.q0 + lower.qlz, soil.evapSoil + lower.evapLake)
  }

  /** The tanks' part of a step, given the corrected precipitation `p`:
      every band, then the zones, then the accumulators. */
  function TankStep(s: CascadeState, p: real, tObs: real, tanks: Params,
                    cp: CatchmentParameters, elev: seq<int>, pow: (real, real) -> real): (r: StepResult)
    requires |s.bands| == |elev|
    requires tanks.fc != 0.0 && tanks.et != 0.0 && cp.secondsPerTimestep != 0
    ensures |r.state.bands| == |s.bands|
    ensures r.tanks == tanks.(perc := r.tanks.perc)
  {
    var o := BandOutputs(s.bands, p, tObs, elev, cp, tanks);
    var z := ZoneStep(s.sm, s.uz, s.lz, Mean(Insoils(o)), p, tanks, cp, pow);
    StepResult(
      CascadeState(NewBands(o), z.sm, z.uz, z.lz, s.waterIn + p, s.waterOut + (z.qmm + z.evap)),
      tanks.(perc := z.perc), z.qmm, ConvertToQm3PerS(z.qmm, cp))
  }

  /** `simulateTimestepAndGetDischarge` on values. The precipitation
      correction reads `corr`, the model's own parameter object; the tanks
      read `tanks`, the object they were built with. The two are the same
      unless the model's object was replaced. */
  function CascadeStep(s: CascadeState, pObs: real, tObs: real, corr: Params, tanks: Params,
                       cp: CatchmentParameters, elev: seq<int>, pow: (real, real) -> real): (r: StepResult)
    requires |s.bands| == |elev|
    requires tanks.fc != 0.0 && tanks.et != 0.0 && cp.secondsPerTimestep != 0
    ensures |r.state.bands| == |s.bands|
    ensures r.tanks == tanks.(perc := r.tanks.perc)
  {
    TankStep(s, CorrectedPrecipitation(pObs, tObs, corr), tObs, tanks, cp, elev, pow)
  }

  /** The water held in each band. */
  function BandStorages(bands: seq<BandState>): (r: seq<real>)
    ensures |r| == |bands|
  {
    seq(|bands|, i requires 0 <= i < |bands| => bands[i].sn + bands[i].sw)
  }

  /** The precipitation each band receives. */
  function BandPrecipitations(p: real, elev: seq<int>, cp: CatchmentParameters): (r: seq<real>)
    ensures |r| == |elev|
  {
    seq(|elev|, i requires 0 <= i < |elev| => Snow.BandPrecipitation(p, elev[i], cp))
  }

  /** The water stored in the catchment, in mm: the mean over the bands of
      their snow and free water, plus the soil moisture and both zones. */
  function Storage(s: CascadeState): (st: real)
    ensures ((forall i :: 0 <= i < |s.bands| ==> s.bands[i].sn >= 0.0 && s.bands[i].sw >= 0.0) &&
             s.sm >= 0.0 && s.uz >= 0.0 && s.lz >= 0.0) ==> st >= 0.0
    ensures s == InitialState(|s.bands|) ==> st == 0.0
  {
    BandStoragesMean(s.bands);
    Mean(BandStorages(s.bands)) + s.sm + s.uz + s.lz
  }

  /** Bands holding no negative amounts hold a non-negative mean, and empty
      bands hold nothing. */
  lemma BandStoragesMean(bands: seq<BandState>)
    ensures (forall i :: 0 <= i < |bands| ==> bands[i].sn >= 0.0 && bands[i].sw >= 0.0) ==>
      Mean(BandStorages(bands)) >= 0.0
    ensures (forall i :: 0 <= i < |bands| ==> bands[i] == BandState(0.0, 0.0)) ==>
      Mean(BandStorages(bands)) == 0.0
  {
    var b := BandStorages(bands);
    if forall i :: 0 <= i < |bands| ==> bands[i].sn >= 0.0 && bands[i].sw >= 0.0 {
      MeanNonNegative(b);
    }
    if (forall i :: 0 <= i < |bands| ==> bands[i] == BandState(0.0, 0.0)) && |bands| > 0 {
      MeanOfConstant(b, 0.0);
    }
  }

  /** The mean of a pointwise sum is the sum of the means. */
  lemma MeanOfPointwiseSum(a: seq<real>, b: seq<real>, c: seq<real>)
    requires |a| == |b| == |c|
    requires forall i :: 0 <= i < |c| ==> c[i] == a[i] + b[i]
    ensures Mean(c) == Mean(a) + Mean(b)
  {
    SumPointwiseAdd(a, b, c);
    if |c| > 0 {
      var n := |c| as real;
      assert Sum(c) / n == Sum(a) / n + Sum(b) / n;
    }
  }

  /** The bands together keep account of their water: the mean storage
      after the step plus the mean release equals the mean storage before
      plus the mean band precipitation. */
  lemma BandsBalance(bands: seq<BandState>, p: real, t: real, elev: seq<int>,
                     cp: CatchmentParameters, tanks: Params)
    requires |bands| == |elev|
    ensures var o := BandOutputs(bands, p, t, elev, cp, tanks);
      Mean(BandStorages(NewBands(o))) + Mean(Insoils(o))
        == Mean(BandStorages(bands)) + Mean(BandPrecipitations(p, elev, cp))
  {
    var o := BandOutputs(bands, p, t, elev, cp, tanks);
    var before, after := BandStorages(bands), BandStorages(NewBands(o));
    var ins, bp := Insoils(o), BandPrecipitations(p, elev, cp);
    var moved := seq(|o|, i requires 0 <= i < |o| => after[i] + ins[i]);
    forall i | 0 <= i < |o|
      ensures moved[i] == before[i] + bp[i]
    {
      Snow.SnowStepBalance(bands[i].sn, bands[i].sw, p, t, elev[i], cp, tanks);
    }
    MeanOfPointwiseSum(after, ins, moved);
    MeanOfPointwiseSum(before, bp, moved);
  }

  /** One step of the whole cascade keeps account of its water: the storage
      grows by the mean band precipitation and the lake share of the
      corrected precipitation, less exactly what is added to
      `accumulatedWaterOut`; `accumulatedWaterIn` grows by the corrected
      precipitation. */
  lemma CascadeBalance(s: CascadeState, pObs: real, tObs: real, corr: Params, tanks: Params,
                       cp: CatchmentParameters, elev: seq<int>, pow: (real, real) -> real)
    requires |s.bands| == |elev|
    requires tanks.fc != 0.0 && tanks.et != 0.0 && cp.secondsPerTimestep != 0
    ensures var r := CascadeStep(s, pObs, tObs, corr, tanks, cp, elev, pow);
      var p := CorrectedPrecipitation(pObs, tObs, corr);
      r.state.waterIn == s.waterIn + p &&
      Storage(r.state) == Storage(s) + Mean(BandPrecipitations(p, elev, cp))
        + LowerZone.LakePrecipitation(p, cp) - (r.state.waterOut - s.waterOut)
  {
    var p := CorrectedPrecipitation(pObs, tObs, corr);
    CascadeStepIsTankStep(s, pObs, tObs, corr, tanks, cp, elev, pow);
    TankStepBalance(s, p, tObs, tanks, cp, elev, pow);
  }

  /** A cascade step is the tank step at the corrected precipitation. */
  lemma CascadeStepIsTankStep(s: CascadeState, pObs: real, tObs: real, corr: Params, tanks: Params,
                              cp: CatchmentParameters, elev: seq<int>, pow: (real, real) -> real)
    requires |s.bands| == |elev|
    requires tanks.fc != 0.0 && tanks.et != 0.0 && cp.secondsPerTimestep != 0
    ensures CascadeStep(s, pObs, tObs, corr, tanks, cp, elev, pow)
      == TankStep(s, CorrectedPrecipitation(pObs, tObs, corr), tObs, tanks, cp, elev, pow)
  {
  }

  /** `CascadeBalance` for a given corrected precipitation `p`. */
  lemma TankStepBalance(s: CascadeState, p: real, tObs: real, tanks: Params,
                        cp: CatchmentParameters, elev: seq<int>, pow: (real, real) -> real)
    requires |s.bands| == |elev|
    requires tanks.fc != 0.0 && tanks.et != 0.0 && cp.secondsPerTimestep != 0
    ensures var r := TankStep(s, p, tObs, tanks, cp, elev, pow);
      r.state.waterIn == s.waterIn + p &&
      Storage(r.state) == Storage(s) + Mean(BandPrecipitations(p, elev, cp))
        + LowerZone.LakePrecipitation(p, cp) - (r.state.waterOut - s.waterOut)
  {
    var o := BandOutputs(s.bands, p, tObs, elev, cp, tanks);
    var insoil := Mean(Insoils(o));
    BandsBalance(s.bands, p, tObs, elev, cp, tanks);
    var z := ZoneStep(s.sm, s.uz, s.lz, insoil, p, tanks, cp, pow);
    var lake := LowerZone.LakePrecipitation(p, cp);
    assert z.sm + z.uz + z.lz + z.qmm + z.evap == s.sm + s.uz + s.lz + insoil + lake;
    var st := TankStep(s, p, tObs, tanks, cp, elev, pow).state;
    assert st == CascadeState(NewBands(o), z.sm, z.uz, z.lz, s.waterIn + p, s.waterOut + (z.qmm + z.evap));
    var bandsBefore, bandsAfter := Mean(BandStorages(s.bands)), Mean(BandStorages(NewBands(o)));
    var bp := Mean(BandPrecipitations(p, elev, cp));
    assert Storage(s) == bandsBefore + s.sm + s.uz + s.lz;
    assert Storage(st) == bandsAfter + z.sm + z.uz + z.lz;
    assert bandsAfter + insoil == bandsBefore + bp;
  }

  /** Without a precipitation gradient and without lakes every band gets
      the corrected precipitation, so the storage changes by exactly what
      the two accumulators record. */
  lemma ClosedBalance(s: CascadeState, pObs: real, tObs: real, corr: Params, tanks: Params,
                      cp: CatchmentParameters, elev: seq<int>, pow: (real, real) -> real)
    requires |s.bands| == |elev| > 0
    requires tanks.fc != 0.0 && tanks.et != 0.0 && cp.secondsPerTimestep != 0
    requires cp.pGrad == 0.0 && cp.lakePercentage == 0.0
    ensures var r := CascadeStep(s, pObs, tObs, corr, tanks, cp, elev, pow);
      Storage(r.state) - Storage(s) == (r.state.waterIn - s.waterIn) - (r.state.waterOut - s.waterOut)
  {
    var p := CorrectedPrecipitation(pObs, tObs, corr);
    CascadeBalance(s, pObs, tObs, corr, tanks, cp, elev, pow);
    MeanOfConstant(BandPrecipitations(p, elev, cp), p);
  }

  /** The state, the tank parameters and the discharges (m³/s) after a
      series of steps. */
  datatype RunResult = RunResult(state: CascadeState, tanks: Params, discharges: seq<real>)

  /** A run extended by one time step: the step of the cascade from where
      the run left off, its discharge appended. */
  function NextRun(r: RunResult, t: CatchmentTimestep, corr: Params, cp: CatchmentParameters,
                   elev: seq<int>, pow: (real, real) -> real): (next: RunResult)
    requires |r.state.bands| == |elev|
    requires r.tanks.fc != 0.0 && r.tanks.et != 0.0 && cp.secondsPerTimestep != 0
    ensures |next.discharges| == |r.discharges| + 1 && |next.state.bands| == |elev|
    ensures next.tanks == r.tanks.(perc := next.tanks.perc)
  {
    var step := CascadeStep(r.state, t.precipitation, t.temp, corr, r.tanks, cp, elev, pow);
    RunResult(step.state, step.tanks, r.discharges + [step.discharge])
  }

  /** The steps of `resetHBVAndSimulateDischarge`'s loop, one per time step
      of the series, in order. */
  function Run(s: CascadeState, series: seq<CatchmentTimestep>, corr: Params, tanks: Params,
               cp: CatchmentParameters, elev: seq<int>, pow: (real, real) -> real): (r: RunResult)
    requires |s.bands| == |elev|
    requires tanks.fc != 0.0 && tanks.et != 0.0 && cp.secondsPerTimestep != 0
    ensures |r.discharges| == |series| && |r.state.bands| == |elev|
    ensures r.tanks == tanks.(perc := r.tanks.perc)
    decreases |series|
  {
    if |series| == 0 then RunResult(s, tanks, [])
    else NextRun(Run(s, series[..|series| - 1], corr, tanks, cp, elev, pow), series[|series| - 1],
                 corr, cp, elev, pow)
  }

  /** The first `i + 1` steps of a run are the first `i` and one more. */
  lemma RunStep(s: CascadeState, series: seq<CatchmentTimestep>, i: nat, corr: Params,
                tanks: Params, cp: CatchmentParameters, elev: seq<int>, pow: (real, real) -> real)
    requires |s.bands| == |elev|
    requires tanks.fc != 0.0 && tanks.et != 0.0 && cp.secondsPerTimestep != 0
    requires i < |series|
    ensures Run(s, series[..i + 1], corr, tanks, cp, elev, pow)
      == NextRun(Run(s, series[..i], corr, tanks, cp, elev, pow), series[i], corr, cp, elev, pow)
  {
    assert series[..i + 1][..i] == series[..i];
  }

  /** A run never raises `perc`: each step keeps it or lowers it to what
      the upper zone can supply, and the next step starts from there. So
      the value after the whole series is at most its value after any
      prefix of it. */
  lemma {:induction false} PercNeverRises(s: CascadeState, series: seq<CatchmentTimestep>, k: nat,
                                          corr: Params, tanks: Params, cp: CatchmentParameters,
                                          elev: seq<int>, pow: (real, real) -> real)
    requires |s.bands| == |elev|
    requires tanks.fc != 0.0 && tanks.et != 0.0 && cp.secondsPerTimestep != 0
    requires k <= |series|
    ensures Run(s, series, corr, tanks, cp, elev, pow).tanks.perc
      <= Run(s, series[..k], corr, tanks, cp, elev, pow).tanks.perc
    decreases |series|
  {
    if k < |series| {
      var n := |series| - 1;
      var prev := Run(s, series[..n], corr, tanks, cp, elev, pow);
      assert series[..n][..k] == series[..k];
      PercNeverRises(s, series[..n], k, corr, tanks, cp, elev, pow);
      var t := series[n];
      var p := CorrectedPrecipitation(t.precipitation, t.temp, corr);
      var o := BandOutputs(prev.state.bands, p, t.temp, elev, cp, prev.tanks);
      var soil := SoilMoisture.SoilStep(prev.state.sm, Mean(Insoils(o)), prev.tanks, pow);
      UpperZone.UpperStepBalance(prev.state.uz, soil.dUZ, prev.tanks);
    } else {
      assert series[..k] == series;
    }
  }

  /** A step without precipitation from the empty cascade: nothing
      reaches the upper zone, so a positive `perc` is lowered to zero
      (when UZ1 is not negative). */
  lemma DryFirstStep(n: nat, tObs: real, corr: Params, tanks: Params,
                     cp: CatchmentParameters, elev: seq<int>, pow: (real, real) -> real)
    requires |elev| == n
    requires tanks.fc != 0.0 && tanks.et != 0.0 && cp.secondsPerTimestep != 0
    requires tanks.uz1 >= 0.0
    ensures CascadeStep(InitialState(n), 0.0, tObs, corr, tanks, cp, elev, pow).tanks.perc <= 0.0
  {
    var s := InitialState(n);
    var p := CorrectedPrecipitation(0.0, tObs, corr);
    assert p == 0.0;
    var o := BandOutputs(s.bands, p, tObs, elev, cp, tanks);
    forall i | 0 <= i < |o|
      ensures Insoils(o)[i] == 0.0
    {
      assert Snow.BandPrecipitation(p, elev[i], cp) == 0.0;
    }
    if |o| > 0 {
      MeanOfConstant(Insoils(o), 0.0);
    }
    assert Mean(Insoils(o)) == 0.0;
    SoilMoisture.EmptyTankIsQuiet(tanks, pow);
    var upper := UpperZone.UpperStep(0.0, 0.0, tanks);
    assert UpperZone.QuickFlow(0.0, tanks) == 0.0;
    assert UpperZone.SlowFlow(0.0, tanks) == 0.0;
    assert upper.perc <= 0.0;
    assert ZoneStep(0.0, 0.0, 0.0, 0.0, p, tanks, cp, pow).perc == upper.perc;
  }

  /** After `resetState`, a first step without precipitation switches
      percolation off (`DryFirstStep`) and, by `PercNeverRises`, it stays
      at most zero for the rest of the series. */
  lemma DryStartSwitchesOffPercolation(series: seq<CatchmentTimestep>, corr: Params, tanks: Params,
                                       cp: CatchmentParameters, elev: seq<int>, pow: (real, real) -> real)
    requires |series| > 0 && series[0].precipitation == 0.0
    requires tanks.fc != 0.0 && tanks.et != 0.0 && cp.secondsPerTimestep != 0
    requires tanks.uz1 >= 0.0
    ensures Run(InitialState(|elev|), series, corr, tanks, cp, elev, pow).tanks.perc <= 0.0
  {
    var s := InitialState(|elev|);
    PercNeverRises(s, series, 1, corr, tanks, cp, elev, pow);
    var first := series[..1];
    assert first[..0] == [];
    assert Run(s, first[..0], corr, tanks, cp, elev, pow) == RunResult(s, tanks, []);
    DryFirstStep(|elev|, series[0].temp, corr, tanks, cp, elev, pow);
  }

  /** Only Tx, S_corr and P_corr of the model's own parameter object enter a
      step, so a change of its `perc` does not change the step. */
  lemma CorrectionOnlyReadsThreeFields(s: CascadeState, pObs: real, tObs: real, c1: Params, c2: Params,
                                       tanks: Params, cp: CatchmentParameters, elev: seq<int>,
                                       pow: (real, real) -> real)
    requires |s.bands| == |elev|
    requires tanks.fc != 0.0 && tanks.et != 0.0 && cp.secondsPerTimestep != 0
    requires c1.tx == c2.tx && c1.sCorr == c2.sCorr && c1.pCorr == c2.pCorr
    ensures CascadeStep(s, pObs, tObs, c1, tanks, cp, elev, pow)
      == CascadeStep(s, pObs, tObs, c2, tanks, cp, elev, pow)
  {
    var p := CorrectedPrecipitation(pObs, tObs, c1);
    assert p == CorrectedPrecipitation(pObs, tObs, c2);
    assert CascadeStep(s, pObs, tObs, c1, tanks, cp, elev, pow) == TankStep(s, p, tObs, tanks, cp, elev, pow);
  }

  /** The elevation loop of `init`: one mean per neighbouring pair of
      breakpoints, in order. */
  method MeanElevations(levels: seq<int>) returns (elevations: seq<int>)
    requires |levels| > 0
    ensures elevations == BandElevations(levels)
  {
    elevations := [];
    for i := 1 to |levels|
      invariant elevations == BandElevations(levels)[..i - 1]
    {
      var meanElev := TruncateTowardZero((levels[i - 1] + levels[i]) as real / 2.0);
      elevations := elevations + [meanElev];
    }
  }

  /** The snow tank loop of `init`: one new, empty tank per elevation, all
      on the same catchment and parameter object. */
  method NewSnowTanks(cp: CatchmentParameters, mp: ModelParameters, elevations: seq<int>)
    returns (tanks: seq<Snow.SnowTank>)
    ensures |tanks| == |elevations|
    ensures forall j :: 0 <= j < |tanks| ==>
      tanks[j].mp == mp && tanks[j].cp == cp && tanks[j].hElev == elevations[j] &&
      tanks[j].sn == 0.0 && tanks[j].sw == 0.0
    ensures forall a, b :: 0 <= a < b < |tanks| ==> tanks[a] != tanks[b]
  {
    tanks := [];
    for k := 0 to |elevations|
      invariant |tanks| == k
      invariant forall j :: 0 <= j < k ==>
        tanks[j].mp == mp && tanks[j].cp == cp && tanks[j].hElev == elevations[j] &&
        tanks[j].sn == 0.0 && tanks[j].sw == 0.0
      invariant forall a, b :: 0 <= a < b < k ==> tanks[a] != tanks[b]
    {
      var t := new Snow.SnowTank(cp, mp, elevations[k]);
      tanks := tanks + [t];
    }
  }

  /** The tanks' part of a step is the band outputs and the zone step on
      their mean release, assembled. */
  lemma TankStepAssembled(s: CascadeState, p: real, tObs: real, tanks: Params,
                          cp: CatchmentParameters, elev: seq<int>, pow: (real, real) -> real,
                          insoils: seq<real>, bands: seq<BandState>, z: ZoneResult)
    requires |s.bands| == |elev|
    requires tanks.fc != 0.0 && tanks.et != 0.0 && cp.secondsPerTimestep != 0
    requires var o := BandOutputs(s.bands, p, tObs, elev, cp, tanks);
      insoils == Insoils(o) && bands == NewBands(o)
    requires z == ZoneStep(s.sm, s.uz, s.lz, Mean(insoils), p, tanks, cp, pow)
    ensures TankStep(s, p, tObs, tanks, cp, elev, pow) == StepResult(
      CascadeState(bands, z.sm, z.uz, z.lz, s.waterIn + p, s.waterOut + (z.qmm + z.evap)),
      tanks.(perc := z.perc), z.qmm, ConvertToQm3PerS(z.qmm, cp))
  {
  }

  /** `HBVModel`: the tanks, the model's parameter object, the two water
      accumulators and the two discharge buffers reused between runs. */
  class HBVModel {
    const cp: CatchmentParameters
    var mp: ModelParameters
    const snowTanks: seq<Snow.SnowTank>
    const soilMoistureTank: SoilMoisture.SoilMoistureTank
    const upperZoneTank: UpperZone.UpperZoneTank
    const lowerZoneTank: LowerZone.LowerZoneTank
    var accumulatedWaterIn: real
    var accumulatedWaterOut: real
    var qs: seq<real>
    var qsAcc: seq<real>

    /** The parameter object the tanks were built with. */
    function TankParams(): ModelParameters
    {
      soilMoistureTank.mp
    }

    /** The snow bands' elevations, lowest first. */
    function Elevations(): (e: seq<int>)
      ensures |e| == |snowTanks|
    {
      seq(|snowTanks|, i requires 0 <= i < |snowTanks| => snowTanks[i].hElev)
    }

    /** Ten distinct snow tanks at the band elevations; every tank reads
        the catchment and one shared parameter object. */
    predicate Valid()
    {
      |snowTanks| == 10 &&
      Elevations() == BandElevations(cp.SnowLevels()) &&
      (forall i :: 0 <= i < |snowTanks| ==> snowTanks[i].mp == TankParams() && snowTanks[i].cp == cp) &&
      (forall i, j :: 0 <= i < j < |snowTanks| ==> snowTanks[i] != snowTanks[j]) &&
      upperZoneTank.mp == TankParams() && lowerZoneTank.mp == TankParams() &&
      soilMoistureTank.cp == cp && upperZoneTank.cp == cp && lowerZoneTank.cp == cp
    }

    /** The current state of every snow band, in band order. */
    function Bands(): (b: seq<BandState>)
      reads snowTanks
      ensures |b| == |snowTanks|
    {
      seq(|snowTanks|, i requires 0 <= i < |snowTanks| reads snowTanks =>
        BandState(snowTanks[i].sn, snowTanks[i].sw))
    }

    /** The current state of every tank and both accumulators. */
    function State(): (s: CascadeState)
      reads this`accumulatedWaterIn, this`accumulatedWaterOut, snowTanks
      reads soilMoistureTank`sm, upperZoneTank`uz, lowerZoneTank`lz
      ensures |s.bands| == |snowTanks|
    {
      CascadeState(Bands(), soilMoistureTank.sm, upperZoneTank.uz, lowerZoneTank.lz,
                   accumulatedWaterIn, accumulatedWaterOut)
    }

    /** `init(_:_:)`: one snow tank per band, all tanks on `mp`, everything
        empty. */
    constructor (cp: CatchmentParameters, mp: ModelParameters)
      ensures Valid() && this.cp == cp && this.mp == mp && TankParams() == mp
      ensures State() == InitialState(10)
      ensures qs == [] && qsAcc == []
    {
      var elevations := MeanElevations(cp.SnowLevels());
      var tanks := NewSnowTanks(cp, mp, elevations);
      this.cp := cp;
      this.mp := mp;
      snowTanks := tanks;
      soilMoistureTank := new SoilMoisture.SoilMoistureTank(cp, mp);
      upperZoneTank := new UpperZone.UpperZoneTank(cp, mp);
      lowerZoneTank := new LowerZone.LowerZoneTank(cp, mp);
      accumulatedWaterIn, accumulatedWaterOut := 0.0, 0.0;
      qs, qsAcc := [], [];
    }

    /** `init(_:)`: the same on a fresh parameter object holding the
        defaults. */
    constructor WithDefaultParameters(cp: CatchmentParameters)
      ensures Valid() && this.cp == cp && fresh(mp) && TankParams() == mp
      ensures mp.Values() == DefaultParams
      ensures State() == InitialState(10)
      ensures qs == [] && qsAcc == []
    {
      var mp := new ModelParameters();
      var elevations := MeanElevations(cp.SnowLevels());
      var tanks := NewSnowTanks(cp, mp, elevations);
      this.cp := cp;
      this.mp := mp;
      snowTanks := tanks;
      soilMoistureTank := new SoilMoisture.SoilMoistureTank(cp, mp);
      upperZoneTank := new UpperZone.UpperZoneTank(cp, mp);
      lowerZoneTank := new LowerZone.LowerZoneTank(cp, mp);
      accumulatedWaterIn, accumulatedWaterOut := 0.0, 0.0;
      qs, qsAcc := [], [];
    }

    /** `setNewModelParameters(_:)` with an object: only the model's own
        reference moves; the tanks keep reading the object they were built
        with. */
    method SetNewModelParameters(modelParam: ModelParameters)
      modifies this`mp
      ensures mp == modelParam
    {
      mp := modelParam;
    }

    /** `setNewModelParameters(_:)` with a vector: overwrites the model's
        own parameter object, which the tanks see only while it is still
        the object they were built with. */
    method SetNewModelParametersFromVector(modelParam: Vectors.Vector)
      requires |modelParam.vector| == 16
      modifies mp
      ensures mp.Values() == FromVector(modelParam.vector)
    {
      mp.SetAsVector(modelParam.vector);
    }

    /** `setNewModelParameters(_:)` with an array, as the vector version. */
    method SetNewModelParametersFromArray(modelParam: seq<real>)
      requires |modelParam| == 16
      modifies mp
      ensures mp.Values() == FromVector(modelParam)
    {
      mp.SetAsVector(modelParam);
    }

    /** `resetState`: every tank empty and both accumulators zero. The
        parameters, `perc` included, are left as they are. */
    method ResetState()
      requires Valid()
      modifies this`accumulatedWaterIn, this`accumulatedWaterOut
      modifies snowTanks, soilMoistureTank, upperZoneTank, lowerZoneTank
      ensures State() == InitialState(|snowTanks|)
      ensures TankParams().Values() == old(TankParams().Values())
    {
      for i := 0 to |snowTanks|
        invariant forall j :: 0 <= j < i ==> snowTanks[j].sn == 0.0 && snowTanks[j].sw == 0.0
        modifies snowTanks
      {
        snowTanks[i].ResetState();
      }
      soilMoistureTank.ResetState();
      upperZoneTank.ResetState();
      lowerZoneTank.ResetState();
      accumulatedWaterIn := 0.0;
      accumulatedWaterOut := 0.0;
    }

    /** The `map` over the snow tanks: every band steps with the same
        corrected precipitation and temperature, and their releases come
        back in band order. */
    method StepSnowTanks(p: real, t: real) returns (insoils: seq<real>)
      requires Valid()
      modifies snowTanks
      ensures var o := BandOutputs(old(Bands()), p, t, Elevations(), cp, TankParams().Values());
        insoils == Insoils(o) && Bands() == NewBands(o)
    {
      ghost var bands0 := Bands();
      insoils := [];
      for i := 0 to |snowTanks|
        invariant |insoils| == i
        invariant forall j :: 0 <= j < i ==>
          var x := Snow.SnowStep(old(snowTanks[j].sn), old(snowTanks[j].sw), p, t, snowTanks[j].hElev, cp, TankParams().Values());
          insoils[j] == x.insoil && snowTanks[j].sn == x.sn && snowTanks[j].sw == x.sw
        invariant forall j :: i <= j < |snowTanks| ==> snowTanks[j].sn == old(snowTanks[j].sn) && snowTanks[j].sw == old(snowTanks[j].sw)
      {
        var insoilE := snowTanks[i].SimulateTimestepAndGetOutput(p, t);
        insoils := insoils + [insoilE];
      }
      ghost var o := BandOutputs(bands0, p, t, Elevations(), cp, TankParams().Values());
      forall j | 0 <= j < |snowTanks|
        ensures insoils[j] == Insoils(o)[j] && Bands()[j] == NewBands(o)[j]
      {
        assert bands0[j] == BandState(old(snowTanks[j].sn), old(snowTanks[j].sw));
      }
    }

    /** The soil moisture, upper zone and lower zone calls of a step, in
        that order, with the percolation handed from the upper to the lower
        zone; returns the discharge and the evaporation in mm. */
    method StepZones(insoil: real, p: real, pow: (real, real) -> real) returns (qmm: real, evap: real)
      requires Valid()
      requires TankParams().fc != 0.0 && TankParams().et != 0.0
      modifies soilMoistureTank, upperZoneTank, lowerZoneTank, TankParams()`perc
      ensures var z := ZoneStep(old(soilMoistureTank.sm), old(upperZoneTank.uz), old(lowerZoneTank.lz),
                                insoil, p, old(TankParams().Values()), cp, pow);
        soilMoistureTank.sm == z.sm && upperZoneTank.uz == z.uz && lowerZoneTank.lz == z.lz &&
        TankParams().Values() == old(TankParams().Values()).(perc := z.perc) &&
        qmm == z.qmm && evap == z.evap
    {
      var dUZ, evapSoil := soilMoistureTank.SimulateTimestepAndGetOutput(insoil, pow);
      var perc, q1, q0 := upperZoneTank.SimulateTimestepAndGetOutput(dUZ);
      var qlz, evapLake := lowerZoneTank.SimulateTimestepAndGetOutput(p, perc);
      qmm := q1 + q0 + qlz;
      evap := evapSoil + evapLake;
    }

    /** The tank calls of a step, given the corrected precipitation `p`:
        the snow bands, their mean release through the zones, and the two
        accumulators; returns the discharge in mm. */
    method StepTanks(p: real, t: real, pow: (real, real) -> real) returns (qmm: real)
      requires Valid()
      requires TankParams().fc != 0.0 && TankParams().et != 0.0 && cp.secondsPerTimestep != 0
      modifies this`accumulatedWaterIn, this`accumulatedWaterOut
      modifies snowTanks, soilMoistureTank, upperZoneTank, lowerZoneTank, TankParams()`perc
      ensures var r := TankStep(old(State()), p, t, old(TankParams().Values()), cp, Elevations(), pow);
        Bands() == r.state.bands && soilMoistureTank.sm == r.state.sm && upperZoneTank.uz == r.state.uz &&
        lowerZoneTank.lz == r.state.lz && accumulatedWaterIn == r.state.waterIn &&
        accumulatedWaterOut == r.state.waterOut &&
        TankParams().Values() == r.tanks && qmm == r.qmm
    {
      ghost var s0 := State();
      ghost var tanks := TankParams().Values();
      accumulatedWaterIn := accumulatedWaterIn + p;
      assert Bands() == s0.bands;
      var insoils := StepSnowTanks(p, t);
      ghost var bands1 := Bands();
      var insoil := Mean(insoils);
      assert soilMoistureTank.sm == s0.sm && upperZoneTank.uz == s0.uz && lowerZoneTank.lz == s0.lz;
      assert TankParams().Values() == tanks;
      ghost var z := ZoneStep(s0.sm, s0.uz, s0.lz, insoil, p, tanks, cp, pow);
      var evap;
      qmm, evap := StepZones(insoil, p, pow);
      accumulatedWaterOut := accumulatedWaterOut + (qmm + evap);
      TankStepAssembled(s0, p, t, tanks, cp, Elevations(), pow, insoils, bands1, z);
      assert Bands() == bands1;
    }

    /** `simulateTimestepAndGetDischarge(p_obs:T_obs:)`: one step of the
        cascade on the current state, with the precipitation corrected by
        the model's own parameters and the tanks on theirs; `perc` of the
        tanks' object may be lowered. */
    method SimulateTimestepAndGetDischarge(pObs: real, tObs: real, pow: (real, real) -> real)
      returns (q: real)
      requires Valid()
      requires TankParams().fc != 0.0 && TankParams().et != 0.0 && cp.secondsPerTimestep != 0
      modifies this`accumulatedWaterIn, this`accumulatedWaterOut
      modifies snowTanks, soilMoistureTank, upperZoneTank, lowerZoneTank, TankParams()`perc
      ensures var r := CascadeStep(old(State()), pObs, tObs, old(mp.Values()), old(TankParams().Values()),
                                   cp, Elevations(), pow);
        Bands() == r.state.bands && soilMoistureTank.sm == r.state.sm && upperZoneTank.uz == r.state.uz &&
        lowerZoneTank.lz == r.state.lz && accumulatedWaterIn == r.state.waterIn &&
        accumulatedWaterOut == r.state.waterOut &&
        TankParams().Values() == r.tanks && q == r.discharge
    {
      var t := tObs;
      var p: real;
      if t < mp.tx {
        p := pObs * mp.sCorr;
      } else {
        p := pObs * mp.pCorr;
      }
      assert p == CorrectedPrecipitation(pObs, tObs, mp.Values());
      var qmm := StepTanks(p, t, pow);
      q := ConvertToQm3PerS(qmm, cp);
    }

    /** The discharges of the first `i` steps are in `qs` and their running
        sums in `qsAcc`; `qAcc` is the sum of all `i`. */
    ghost predicate Recorded(i: nat, qAcc: real)
      reads this`qs, this`qsAcc
    {
      |qsAcc| == |qs| && i <= |qs| && qAcc == Sum(qs[..i]) &&
      forall j :: 0 <= j < i ==> qsAcc[j] == Sum(qs[..j + 1])
    }

    /** The bookkeeping of one step of the loop: store the discharge and
        the new running sum at position `i`. */
    method RecordDischarge(i: nat, q: real, qAcc: real) returns (newAcc: real)
      requires Recorded(i, qAcc) && i < |qs|
      modifies this`qs, this`qsAcc
      ensures newAcc == qAcc + q && Recorded(i + 1, newAcc)
      ensures qs[..i + 1] == old(qs[..i]) + [q] && |qs| == |old(qs)|
    {
      ghost var oldQs := qs;
      qs := qs[i := q];
      assert qs[..i + 1] == oldQs[..i] + [q];
      SumAppend(oldQs[..i], q);
      newAcc := qAcc + q;
      qsAcc := qsAcc[i := newAcc];
      forall j | 0 <= j < i
        ensures qsAcc[j] == Sum(qs[..j + 1])
      {
        assert qs[..j + 1] == oldQs[..j + 1];
      }
    }

    /** The state and the tank parameters are those the run `r` ends in. */
    ghost predicate AtRun(r: RunResult)
      reads this`accumulatedWaterIn, this`accumulatedWaterOut, snowTanks
      reads soilMoistureTank`sm, upperZoneTank`uz, lowerZoneTank`lz, TankParams()
    {
      State() == r.state && TankParams().Values() == r.tanks
    }

    /** The invariant of the loop of `resetHBVAndSimulateDischarge` after
        `i` passes: the model is where the run `run` of the first `i` time
        steps ends, their discharges and running sums are recorded, and the
        correction still reads the fields of `corr`. */
    ghost predicate Simulating(i: nat, qAcc: real, corr: Params, run: RunResult)
      reads this, mp, snowTanks, soilMoistureTank`sm, upperZoneTank`uz, lowerZoneTank`lz, TankParams()
    {
      Valid() && |run.state.bands| == |snowTanks| &&
      run.tanks.fc != 0.0 && run.tanks.et != 0.0 && cp.secondsPerTimestep != 0 &&
      Recorded(i, qAcc) && qs[..i] == run.discharges && AtRun(run) &&
      mp.tx == corr.tx && mp.sCorr == corr.sCorr && mp.pCorr == corr.pCorr
    }

    /** `simulateTimestepAndGetDischarge` called from the loop: the model
        moves from where `run` ends to where the run one step longer ends,
        and the step's discharge is the last one of the longer run. */
    method StepRun(t: CatchmentTimestep, pow: (real, real) -> real, ghost corr: Params, ghost run: RunResult)
      returns (q: real)
      requires Valid() && |run.state.bands| == |snowTanks|
      requires run.tanks.fc != 0.0 && run.tanks.et != 0.0 && cp.secondsPerTimestep != 0
      requires mp.tx == corr.tx && mp.sCorr == corr.sCorr && mp.pCorr == corr.pCorr
      requires AtRun(run)
      modifies this`accumulatedWaterIn, this`accumulatedWaterOut
      modifies snowTanks, soilMoistureTank, upperZoneTank, lowerZoneTank, TankParams()`perc
      ensures var next := NextRun(run, t, corr, cp, Elevations(), pow);
        AtRun(next) && next.discharges == run.discharges + [q]
    {
      CorrectionOnlyReadsThreeFields(run.state, t.precipitation, t.temp, mp.Values(), corr,
                                     run.tanks, cp, Elevations(), pow);
      q := SimulateTimestepAndGetDischarge(t.precipitation, t.temp, pow);
    }

    /** One pass of the loop of `resetHBVAndSimulateDischarge`: the step for
        time step `t`, its discharge recorded at position `i`. */
    method SimulateAndRecord(t: CatchmentTimestep, i: nat, qAcc: real, pow: (real, real) -> real,
                             ghost corr: Params, ghost run: RunResult)
      returns (newAcc: real)
      requires i < |qs| && Simulating(i, qAcc, corr, run)
      modifies this`qs, this`qsAcc, this`accumulatedWaterIn, this`accumulatedWaterOut
      modifies snowTanks, soilMoistureTank, upperZoneTank, lowerZoneTank, TankParams()`perc
      ensures |qs| == |old(qs)| && mp == old(mp)
      ensures Simulating(i + 1, newAcc, corr, NextRun(run, t, corr, cp, Elevations(), pow))
    {
      ghost var next := NextRun(run, t, corr, cp, Elevations(), pow);
      var q := StepRun(t, pow, corr, run);
      newAcc := RecordDischarge(i, q, qAcc);
      assert AtRun(next);
    }

    /** The loop of `resetHBVAndSimulateDischarge`: one step per time step
        of the series, from the current state, each discharge recorded. */
    method SimulateSeries(timeSequence: seq<CatchmentTimestep>, pow: (real, real) -> real,
                          ghost corr: Params, ghost s0: CascadeState, ghost tanks0: Params)
      requires Valid() && cp.secondsPerTimestep != 0
      requires State() == s0 && TankParams().Values() == tanks0
      requires tanks0.fc != 0.0 && tanks0.et != 0.0
      requires mp.tx == corr.tx && mp.sCorr == corr.sCorr && mp.pCorr == corr.pCorr
      requires |qs| == |timeSequence| && |qsAcc| == |timeSequence|
      modifies this`qs, this`qsAcc, this`accumulatedWaterIn, this`accumulatedWaterOut
      modifies snowTanks, soilMoistureTank, upperZoneTank, lowerZoneTank, TankParams()`perc
      ensures mp == old(mp)
      ensures var r := Run(s0, timeSequence, corr, tanks0, cp, Elevations(), pow);
        qs == r.discharges && State() == r.state && TankParams().Values() == r.tanks
      ensures qsAcc == Cumsum(qs)
    {
      var qAcc := 0.0;
      ghost var run := Run(s0, [], corr, tanks0, cp, Elevations(), pow);
      assert timeSequence[..0] == [];
      for i := 0 to |timeSequence|
        invariant |qs| == |timeSequence| && mp == old(mp)
        invariant run == Run(s0, timeSequence[..i], corr, tanks0, cp, Elevations(), pow)
        invariant Simulating(i, qAcc, corr, run)
      {
        qAcc := SimulateAndRecord(timeSequence[i], i, qAcc, pow, corr, run);
        RunStep(s0, timeSequence, i, corr, tanks0, cp, Elevations(), pow);
        run := NextRun(run, timeSequence[i], corr, cp, Elevations(), pow);
      }
      assert qs[..|timeSequence|] == qs;
      assert timeSequence[..|timeSequence|] == timeSequence;
    }

    /** The tank parameters `setNewModelParameters(_:)` with the array `v`
        leaves: the new values when the model's own object is still the
        tanks' object, the tanks' old values otherwise. */
    ghost function TankValuesAfterSet(v: seq<real>): Params
      requires |v| == 16
      reads this, mp, TankParams()
    {
      if mp == TankParams() then FromVector(v) else TankParams().Values()
    }

    /** `resetHBVAndSimulateDischarge(modelParams:timeSequence:)`: set the
        parameters, reset every tank, make both buffers as long as the
        series, then run the series, recording each discharge in `qs` and
        their running sum in `qsAcc`; both buffers are returned. */
    method ResetHBVAndSimulateDischarge(modelParams: seq<real>, timeSequence: seq<CatchmentTimestep>,
                                        pow: (real, real) -> real)
      returns (outQs: seq<real>, outQsAcc: seq<real>)
      requires Valid() && |modelParams| == 16 && cp.secondsPerTimestep != 0
      requires TankValuesAfterSet(modelParams).fc != 0.0 && TankValuesAfterSet(modelParams).et != 0.0
      modifies this`qs, this`qsAcc, this`accumulatedWaterIn, this`accumulatedWaterOut
      modifies mp, snowTanks, soilMoistureTank, upperZoneTank, lowerZoneTank, TankParams()`perc
      ensures var r := Run(InitialState(10), timeSequence, FromVector(modelParams),
                           old(TankValuesAfterSet(modelParams)), cp, Elevations(), pow);
        qs == r.discharges && State() == r.state && TankParams().Values() == r.tanks
      ensures qsAcc == Cumsum(qs)
      ensures outQs == qs && outQsAcc == qsAcc && mp == old(mp)
    {
      ghost var tanks0 := old(TankValuesAfterSet(modelParams));
      SetNewModelParametersFromArray(modelParams);
      assert TankParams().Values() == tanks0;
      ResetState();
      assert State() == InitialState(10) && TankParams().Values() == tanks0;
      var sequenceLength := |timeSequence|;
      if |qs| != sequenceLength {
        qs := seq(sequenceLength, _ => 0.0);
      }
      if |qsAcc| != sequenceLength {
        qsAcc := seq(sequenceLength, _ => 0.0);
      }
      SimulateSeries(timeSequence, pow, FromVector(modelParams), InitialState(10), tanks0);
      outQs := qs;
      outQsAcc := qsAcc;
    }
  }
}
