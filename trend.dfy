/** Trend structure: the MA50/MA200 slopes and the trend direction
    (`_determine_trend_with_slope`). */
module Trend {
  import opened Types
  import opened Slope

  /** Number of recent moving-average values the slopes are taken over. */
  const SlopePeriods: nat := 10

  /** Slope of a moving-average history, 0.0 below ten values. */
  function MaSlope(log: real -> real, history: seq<real>): (r: real)
    ensures |history| < SlopePeriods ==> r == 0.0
    ensures |history| >= SlopePeriods ==>
      r == CalculateSlope(log, history[|history| - SlopePeriods..], SlopePeriods)
  {
    if |history| >= SlopePeriods then
      SlopeOfSuffix(log, history[..|history| - SlopePeriods], history[|history| - SlopePeriods..], SlopePeriods);
      assert history == history[..|history| - SlopePeriods] + history[|history| - SlopePeriods..];
      CalculateSlope(log, history, SlopePeriods)
    else 0.0
  }

  /** The four branches of the trend rule. The aligned branches require the
      MA200 slope to agree with the price position; the other two fall
      back to the price position alone. */
  function DetermineTrend(price: real, ma200: real, ma200Slope: real): (t: TrendDirection)
    ensures t == Bullish <==> price > ma200
  {
    if price > ma200 && ma200Slope >= 0.0 then Bullish
    else if price < ma200 && ma200Slope < 0.0 then Bearish
    else if price > ma200 then Bullish
    else Bearish
  }

  datatype TrendReading = TrendReading(trend: TrendDirection, ma50Slope: real, ma200Slope: real)

  /** Trend direction with both slopes, as returned to the engine. The MA50
      value only feeds log messages, so it does not appear here. */
  function TrendWithSlope(log: real -> real, price: real, ma200: real,
                          ma50History: seq<real>, ma200History: seq<real>): (r: TrendReading)
    ensures r.trend == Bullish <==> price > ma200
    ensures r.ma50Slope == MaSlope(log, ma50History)
    ensures r.ma200Slope == MaSlope(log, ma200History)
  {
    var s50 := MaSlope(log, ma50History);
    var s200 := MaSlope(log, ma200History);
    TrendReading(DetermineTrend(price, ma200, s200), s50, s200)
  }

  /** The slope never changes the direction: a price at the MA200 is bearish
      and any price above it is bullish, whatever the two slopes are. */
  lemma TrendIgnoresSlope(price: real, ma200: real, slope1: real, slope2: real)
    ensures DetermineTrend(price, ma200, slope1) == DetermineTrend(price, ma200, slope2)
    ensures DetermineTrend(ma200, ma200, slope1) == Bearish
  {
  }

  /** A constant MA history has a zero slope. */
  lemma FlatHistoryFlatSlope(log: real -> real, history: seq<real>, c: real)
    requires forall i :: 0 <= i < |history| ==> history[i] == c
    ensures MaSlope(log, history) == 0.0
  {
    if |history| >= SlopePeriods {
      ConstantSeriesSlopeZero(log, history, SlopePeriods, c);
    }
  }
}
