/** Catchment characteristics (Sources/SwiftHBV/CatchmentParameters.swift)
    and one row of observed data (the `CatchmentTimestep` tuple of
    Sources/SwiftHBV/SwiftHBV.swift). Both are plain values here: nothing in
    the simulation changes them. */
module Catchment {

  /** One time step of observations: date, precipitation (mm per time
      step), temperature and observed discharge (m³/s). */
  datatype CatchmentTimestep = CatchmentTimestep(
    datetime: string,
    precipitation: real,
    temp: real,
    discharge: real)

  /** Area in km², time step length in seconds, the observation elevation
      and the eleven elevation percentiles (all in whole metres), the
      gradients per 100 m and the lake percentage. */
  datatype CatchmentParameters = CatchmentParameters(
    catchmentArea: real,
    secondsPerTimestep: int,
    hObs: int,
    hMin: int, h10: int, h20: int, h30: int, h40: int, h50: int,
    h60: int, h70: int, h80: int, h90: int, hMax: int,
    pGrad: real,
    tDryGrad: real,
    tWetGrad: real,
    lakePercentage: real)
  {
    /** `h_snow_levels`: the eleven elevation breakpoints, from the lowest
        height of the catchment to its highest. */
    function SnowLevels(): (l: seq<int>)
      ensures |l| == 11 && l[0] == hMin && l[10] == hMax
    {
      [hMin, h10, h20, h30, h40, h50, h60, h70, h80, h90, hMax]
    }
  }

  /** `getExample`: the example catchment the tests use. */
  function Example(): (cp: CatchmentParameters)
    ensures |cp.SnowLevels()| == 11
    ensures cp.catchmentArea > 0.0 && cp.secondsPerTimestep > 0
  {
    CatchmentParameters(
      3059.5, 86400, 738,
      57, 445, 539, 601, 666, 739, 815, 880, 947, 1020, 1325,
      0.05, -1.0, -0.6, 0.0)
  }
}
