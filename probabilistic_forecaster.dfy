/**
 * The bounded history buffer and the deterministic fallback of the probabilistic
 * forecaster (core/probabilistic_forecaster.py).
 *
 * The history keeps at most twice the lookback period of the most recent values.
 * With fewer than ten values the forecaster answers with a fixed band around the
 * last value; the Monte Carlo simulation used otherwise is a parameter here.
 */
module Forecasting {

  /** A probabilistic forecast: summary statistics, a confidence band and quartiles. */
  datatype Forecast = Forecast(
    mean: real,
    median: real,
    std: real,
    ciLower: real,
    ciUpper: real,
    percentile25: real,
    percentile75: real,
    timestamp: string,
    model: string)

  // ---------------------------------------------------------------------------
  // Python slicing
  // ---------------------------------------------------------------------------

  /** Python's `xs[start:]`: a negative start counts from the end, and out-of-range starts are clipped. */
  function SliceFrom(xs: seq<real>, start: int): (r: seq<real>)
    ensures |r| <= |xs|
    ensures r == xs[|xs| - |r|..]
    ensures start >= 0 ==> |r| == if start >= |xs| then 0 else |xs| - start
    ensures start < 0 ==> |r| == if -start >= |xs| then |xs| else -start
  {
    var from := if start < 0 then start + |xs| else start;
    var clipped := if from < 0 then 0 else if from > |xs| then |xs| else from;
    xs[clipped..]
  }

  /** `ys` is a suffix of `xs`. */
  predicate IsSuffix(ys: seq<real>, xs: seq<real>)
  {
    |ys| <= |xs| && ys == xs[|xs| - |ys|..]
  }

  // ---------------------------------------------------------------------------
  // The history buffer
  // ---------------------------------------------------------------------------

  /** `add_data_point`: append, and keep the last `2 * lookback` values once the list is longer than that. */
  function Appended(data: seq<real>, value: real, lookback: int): seq<real>
  {
    var xs := data + [value];
    if |xs| > lookback * 2 then SliceFrom(xs, -(lookback * 2)) else xs
  }

  /** The buffer after an addition is a suffix of the old buffer followed by the new value. */
  lemma AppendedIsSuffix(data: seq<real>, value: real, lookback: int)
    ensures IsSuffix(Appended(data, value, lookback), data + [value])
  {
  }

  /** With a nonnegative lookback the newest value is kept as the last element. */
  lemma AppendedEndsWithValue(data: seq<real>, value: real, lookback: int)
    requires lookback >= 0
    ensures |Appended(data, value, lookback)| >= 1
    ensures Appended(data, value, lookback)[|Appended(data, value, lookback)| - 1] == value
  {
    var xs := data + [value];
    var r := Appended(data, value, lookback);
    assert r == xs[|xs| - |r|..];
    if |xs| > lookback * 2 && lookback > 0 {
      assert |r| == lookback * 2;
    }
  }

  /** With a positive lookback the buffer never holds more than `2 * lookback` values. */
  lemma AppendedIsBounded(data: seq<real>, value: real, lookback: int)
    requires lookback >= 1
    ensures |Appended(data, value, lookback)| <= lookback * 2
  {
  }

  /** While the bound is not exceeded nothing is dropped. */
  lemma AppendedWithinBoundKeepsAll(data: seq<real>, value: real, lookback: int)
    requires |data| + 1 <= lookback * 2
    ensures Appended(data, value, lookback) == data + [value]
  {
  }

  /** Past the bound exactly the oldest values are dropped, leaving the `2 * lookback` most recent. */
  lemma AppendedPastBoundKeepsMostRecent(data: seq<real>, value: real, lookback: int)
    requires lookback >= 1 && |data| + 1 > lookback * 2
    ensures Appended(data, value, lookback) == (data + [value])[|data| + 1 - lookback * 2..]
  {
  }

  /** A zero lookback means `[-0:]`, which keeps the whole list. */
  lemma AppendedZeroLookbackKeepsAll(data: seq<real>, value: real)
    ensures Appended(data, value, 0) == data + [value]
  {
  }

  // ---------------------------------------------------------------------------
  // The fallback forecast
  // ---------------------------------------------------------------------------

  /**
   * `_fallback_forecast`: a band around the last value (mean and median equal to it,
   * zero spread, 95%-105% interval, 98%-102% quartiles), or fixed values when there
   * is no data at all.
   */
  function Fallback(data: seq<real>, timestamp: string): (f: Forecast)
    ensures f.model == "fallback" && f.timestamp == timestamp && f.std == 0.0
    ensures |data| > 0 ==> (var last := data[|data| - 1];
              f.mean == last && f.median == last
              && f.ciLower == last * 0.95 && f.ciUpper == last * 1.05
              && f.percentile25 == last * 0.98 && f.percentile75 == last * 1.02)
    ensures |data| == 0 ==> (f.mean == 0.0 && f.median == 0.0 && f.ciLower == -1.0 && f.ciUpper == 1.0
              && f.percentile25 == -0.5 && f.percentile75 == 0.5)
  {
    if |data| > 0 then
      var last := data[|data| - 1];
      Forecast(last, last, 0.0, last * 0.95, last * 1.05, last * 0.98, last * 1.02, timestamp, "fallback")
    else
      Forecast(0.0, 0.0, 0.0, -1.0, 1.0, -0.5, 0.5, timestamp, "fallback")
  }

  /** The band is ordered ciLower <= p25 <= median <= p75 <= ciUpper when there is no data or the last value is nonnegative. */
  predicate BandOrdered(f: Forecast)
  {
    f.ciLower <= f.percentile25 <= f.median <= f.percentile75 <= f.ciUpper
  }

  lemma FallbackBandOrdered(data: seq<real>, timestamp: string)
    requires |data| == 0 || data[|data| - 1] >= 0.0
    ensures BandOrdered(Fallback(data, timestamp))
    ensures Fallback(data, timestamp).ciLower <= Fallback(data, timestamp).mean <= Fallback(data, timestamp).ciUpper
  {
  }

  /** For a negative last value the multiplicative band is reversed: its lower end lies above its upper end. */
  lemma FallbackBandReversedWhenNegative(data: seq<real>, timestamp: string)
    requires |data| > 0 && data[|data| - 1] < 0.0
    ensures Fallback(data, timestamp).ciLower > Fallback(data, timestamp).ciUpper
    ensures Fallback(data, timestamp).percentile25 > Fallback(data, timestamp).percentile75
  {
  }

  // ---------------------------------------------------------------------------
  // The forecaster
  // ---------------------------------------------------------------------------

  class ProbabilisticForecaster {
    const lookbackPeriod: int
    const confidenceLevel: real
    var historicalData: seq<real>

    /** With a positive lookback, the history never exceeds twice the lookback period. */
    ghost predicate Valid()
      reads this
    {
      lookbackPeriod >= 1 ==> |historicalData| <= lookbackPeriod * 2
    }

    constructor (lookbackPeriod: int := 60, confidenceLevel: real := 0.95)
      ensures Valid()
      ensures this.lookbackPeriod == lookbackPeriod && this.confidenceLevel == confidenceLevel
      ensures historicalData == []
    {
      this.lookbackPeriod := lookbackPeriod;
      this.confidenceLevel := confidenceLevel;
      historicalData := [];
    }

    /** `add_data_point`: appends and truncates to the most recent `2 * lookbackPeriod` values. */
    method AddDataPoint(value: real)
      requires Valid()
      modifies this
      ensures Valid()
      ensures historicalData == Appended(old(historicalData), value, lookbackPeriod)
    {
      historicalData := historicalData + [value];
      if |historicalData| > lookbackPeriod * 2 {
        historicalData := SliceFrom(historicalData, -(lookbackPeriod * 2));
      }
      if lookbackPeriod >= 1 {
        AppendedIsBounded(old(historicalData), value, lookbackPeriod);
      }
    }

    /**
     * `forecast_monte_carlo`: the fallback with fewer than ten values; otherwise the
     * simulation, which sees the last `lookbackPeriod` values and the last value.
     */
    function ForecastMonteCarlo(timestamp: string, simulate: (seq<real>, real) -> Forecast): (f: Forecast)
      reads this
      ensures |historicalData| < 10 ==> f == Fallback(historicalData, timestamp) && f.model == "fallback"
      ensures |historicalData| >= 10 ==>
                f == simulate(SliceFrom(historicalData, -lookbackPeriod), historicalData[|historicalData| - 1])
    {
      if |historicalData| < 10 then Fallback(historicalData, timestamp)
      else simulate(SliceFrom(historicalData, -lookbackPeriod), historicalData[|historicalData| - 1])
    }

    /** `forecast_ensemble`: delegates to the Monte Carlo forecast. */
    function ForecastEnsemble(timestamp: string, simulate: (seq<real>, real) -> Forecast): (f: Forecast)
      reads this
      ensures f == ForecastMonteCarlo(timestamp, simulate)
      ensures |historicalData| < 10 ==> f.model == "fallback"
    {
      ForecastMonteCarlo(timestamp, simulate)
    }
  }
}
