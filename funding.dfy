/** Funding behaviour (`_determine_funding`) and the market-cap slopes the
    engine reports beside it. */
module Funding {
  import opened Wrappers
  import opened Series
  import opened Types
  import opened Slope

  /** Daily market-cap histories from the external provider, oldest first,
      with the timestamps dropped. A missing key reads as an empty list. */
  datatype MarketCapHistory = MarketCapHistory(stablecoin: seq<real>, total: seq<real>)

  /** The one way the corrected evaluation fails: `stablecoin / total` with
      a zero total. */
  datatype EvalError = ZeroDivision

  datatype FundingReading = FundingReading(funding: FundingBehavior, change: real, ratioChange: real)

  /** Fewest external or cached values the funding rule takes a slope over. */
  const MinHistoryDays: nat := 7
  /** Stablecoin share of the total market cap, in percent, above which
      capital is read as defensive when no slope is available. */
  const RatioThreshold: real := 8.0

  /** Stablecoin share of the total market cap, in percent. */
  function StablecoinRatio(stablecoinCap: real, totalCap: real): (r: real)
    requires totalCap != 0.0
    ensures totalCap > 0.0 && stablecoinCap >= 0.0 ==> r >= 0.0
  {
    (stablecoinCap / totalCap) * 100.0
  }

  /** Slope of a history with at least `minLen` values over its last
      `min(10, len)` values; 0.0 for a shorter history. */
  function HistorySlope(log: real -> real, history: seq<real>, minLen: nat): (r: real)
    requires minLen >= 1
    ensures |history| < minLen ==> r == 0.0
  {
    if |history| >= minLen then CalculateSlope(log, history, MinNat(10, |history|)) else 0.0
  }

  datatype Slopes = Slopes(stablecoin: real, total: real)

  /** Slopes of the external histories, both 0.0 without them. */
  function ExternalSlopes(log: real -> real, external: Option<MarketCapHistory>, minLen: nat): (r: Slopes)
    requires minLen >= 1
    ensures external.None? ==> r == Slopes(0.0, 0.0)
  {
    match external
    case None => Slopes(0.0, 0.0)
    case Some(h) => Slopes(HistorySlope(log, h.stablecoin, minLen), HistorySlope(log, h.total, minLen))
  }

  /** The slopes the funding rule reads: external ones first; the cache
      replaces both only when both external slopes are zero and the cache
      holds a week of values. */
  function FundingSlopes(log: real -> real, external: Option<MarketCapHistory>,
                         cacheStablecoin: seq<real>, cacheTotal: seq<real>): (r: Slopes)
    requires |cacheStablecoin| == |cacheTotal|
    ensures var e := ExternalSlopes(log, external, MinHistoryDays);
      if e == Slopes(0.0, 0.0) && |cacheStablecoin| >= MinHistoryDays
      then r == Slopes(HistorySlope(log, cacheStablecoin, 1), HistorySlope(log, cacheTotal, 1))
      else r == e
  {
    var e := ExternalSlopes(log, external, MinHistoryDays);
    if e.stablecoin == 0.0 && e.total == 0.0 && |cacheStablecoin| >= MinHistoryDays then
      Slopes(CalculateSlope(log, cacheStablecoin, MinNat(10, |cacheStablecoin|)),
             CalculateSlope(log, cacheTotal, MinNat(10, |cacheTotal|)))
    else e
  }

  /** A slope reads as rising only when strictly positive; zero is "↓". */
  function Rising(slope: real): (r: bool)
  {
    slope > 0.0
  }

  /** The four sign patterns of (stablecoin, total). */
  function FundingFromPattern(stablecoinSlope: real, totalSlope: real): (f: FundingBehavior)
    ensures f == Offensive <==> totalSlope > 0.0
  {
    var s, t := Rising(stablecoinSlope), Rising(totalSlope);
    if s && t then Offensive
    else if !s && t then Offensive
    else if s && !t then Defensive
    else Defensive
  }

  /** Stablecoin change and share change against the oldest known values,
      when the decision came from slopes. */
  function Changes(stablecoinCap: real, ratio: real, external: Option<MarketCapHistory>,
                   cacheStablecoin: seq<real>, cacheTotal: seq<real>, totalCap: real): (r: (real, real))
    requires |cacheStablecoin| == |cacheTotal|
    ensures external.Some? && |external.value.stablecoin| > 0 ==>
      r.0 == stablecoinCap - external.value.stablecoin[0]
    ensures (external.None? || |external.value.stablecoin| == 0) && |cacheStablecoin| > 0 ==>
      r.0 == stablecoinCap - cacheStablecoin[0]
    ensures (external.None? || |external.value.stablecoin| == 0) && |cacheStablecoin| == 0 ==>
      r == (0.0, 0.0)
    ensures external.Some? && |external.value.stablecoin| > 0 ==>
      var h := external.value;
      var firstTotal := if |h.total| > 0 then h.total[0] else totalCap;
      (firstTotal > 0.0 ==> r.1 == ratio - StablecoinRatio(h.stablecoin[0], firstTotal)) &&
      (firstTotal <= 0.0 ==> r.1 == 0.0)
    ensures (external.None? || |external.value.stablecoin| == 0) && |cacheStablecoin| > 0 ==>
      (cacheTotal[0] > 0.0 ==> r.1 == ratio - StablecoinRatio(cacheStablecoin[0], cacheTotal[0])) &&
      (cacheTotal[0] <= 0.0 ==> r.1 == 0.0)
  {
    if external.Some? && |external.value.stablecoin| > 0 then
      var h := external.value;
      var firstStablecoin := h.stablecoin[0];
      var firstTotal := if |h.total| > 0 then h.total[0] else totalCap;
      var firstRatio := if firstTotal > 0.0 then firstStablecoin / firstTotal * 100.0 else ratio;
      (stablecoinCap - firstStablecoin, ratio - firstRatio)
    else if |cacheStablecoin| > 0 then
      var firstRatio := if cacheTotal[0] > 0.0 then cacheStablecoin[0] / cacheTotal[0] * 100.0 else ratio;
      (stablecoinCap - cacheStablecoin[0], ratio - firstRatio)
    else (0.0, 0.0)
  }

  /** `_determine_funding`. The share is computed first, so a zero total
      market cap fails before anything else. */
  function DetermineFunding(log: real -> real, stablecoinCap: real, totalCap: real,
                            external: Option<MarketCapHistory>,
                            cacheStablecoin: seq<real>, cacheTotal: seq<real>): (r: Result<FundingReading, EvalError>)
    requires |cacheStablecoin| == |cacheTotal|
    ensures r.Failure? <==> totalCap == 0.0
    ensures r.Success? ==>
      var slopes := FundingSlopes(log, external, cacheStablecoin, cacheTotal);
      var ratio := StablecoinRatio(stablecoinCap, totalCap);
      if slopes.stablecoin != 0.0 || slopes.total != 0.0 then
        (r.value.funding == Offensive <==> slopes.total > 0.0)
        && (r.value.change, r.value.ratioChange) ==
           Changes(stablecoinCap, ratio, external, cacheStablecoin, cacheTotal, totalCap)
      else
        (r.value.funding == Offensive <==> ratio < RatioThreshold)
        && r.value.ratioChange == ratio - RatioThreshold
        && r.value.change == stablecoinCap
  {
    if totalCap == 0.0 then Failure(ZeroDivision)
    else
      var ratio := StablecoinRatio(stablecoinCap, totalCap);
      var slopes := FundingSlopes(log, external, cacheStablecoin, cacheTotal);
      if slopes.stablecoin != 0.0 || slopes.total != 0.0 then
        var funding := FundingFromPattern(slopes.stablecoin, slopes.total);
        var changes := Changes(stablecoinCap, ratio, external, cacheStablecoin, cacheTotal, totalCap);
        Success(FundingReading(funding, changes.0, changes.1))
      else
        var funding := if ratio < RatioThreshold then Offensive else Defensive;
        Success(FundingReading(funding, stablecoinCap, ratio - RatioThreshold))
  }

  /** The slopes reported in the result's metadata. Unlike the funding
      rule, each external slope needs ten values, and each falls back to
      the cache on its own. */
  function MetadataSlopes(log: real -> real, external: Option<MarketCapHistory>,
                          cacheStablecoin: seq<real>, cacheTotal: seq<real>): (r: Slopes)
    ensures var e := ExternalSlopes(log, external, 10);
      (e.stablecoin != 0.0 ==> r.stablecoin == e.stablecoin) &&
      (e.total != 0.0 ==> r.total == e.total) &&
      (e.stablecoin == 0.0 ==> r.stablecoin == HistorySlope(log, cacheStablecoin, MinHistoryDays)) &&
      (e.total == 0.0 ==> r.total == HistorySlope(log, cacheTotal, MinHistoryDays))
  {
    var e := ExternalSlopes(log, external, 10);
    var s := if e.stablecoin == 0.0 && |cacheStablecoin| >= MinHistoryDays
             then CalculateSlope(log, cacheStablecoin, MinNat(10, |cacheStablecoin|)) else e.stablecoin;
    var t := if e.total == 0.0 && |cacheTotal| >= MinHistoryDays
             then CalculateSlope(log, cacheTotal, MinNat(10, |cacheTotal|)) else e.total;
    Slopes(s, t)
  }

  /** Without external histories the metadata reports the very slopes the
      funding rule decided on. */
  lemma MetadataSlopesWithoutExternal(log: real -> real, cacheStablecoin: seq<real>, cacheTotal: seq<real>)
    requires |cacheStablecoin| == |cacheTotal|
    ensures MetadataSlopes(log, None, cacheStablecoin, cacheTotal) ==
      FundingSlopes(log, None, cacheStablecoin, cacheTotal)
  {
  }

  /** The external provider estimates the stablecoin cap as 8% of the total
      cap, day by day. Such histories always have equal slopes. */
  predicate EstimatedAtEightPercent(h: MarketCapHistory)
  {
    |h.stablecoin| == |h.total| &&
    forall i :: 0 <= i < |h.total| ==> h.stablecoin[i] == h.total[i] * 0.08
  }

  lemma EstimatedIsScaled(h: MarketCapHistory)
    requires EstimatedAtEightPercent(h)
    ensures h.stablecoin == Scale(0.08, h.total)
  {
    forall i | 0 <= i < |h.total|
      ensures h.stablecoin[i] == Scale(0.08, h.total)[i]
    {
      ScaleAt(0.08, h.total, i);
    }
  }

  lemma EstimatedSlopesEqual(log: real -> real, h: MarketCapHistory, minLen: nat)
    requires LogLaw(log)
    requires minLen >= 1
    requires EstimatedAtEightPercent(h)
    ensures HistorySlope(log, h.stablecoin, minLen) == HistorySlope(log, h.total, minLen)
  {
    EstimatedIsScaled(h);
    if |h.total| >= minLen {
      ScaleInvariance(log, 0.08, h.total, MinNat(10, |h.total|));
    }
  }

  /** With estimated external histories of at least a week, only the
      patterns "both up" and "both down" can occur: funding is offensive
      exactly when the stablecoin slope is positive too. */
  lemma EstimatedHistoriesMoveTogether(log: real -> real, stablecoinCap: real, totalCap: real,
                                       h: MarketCapHistory, cacheStablecoin: seq<real>, cacheTotal: seq<real>)
    requires LogLaw(log)
    requires EstimatedAtEightPercent(h) && |h.total| >= MinHistoryDays
    requires |cacheStablecoin| == |cacheTotal|
    requires totalCap != 0.0
    requires ExternalSlopes(log, Some(h), MinHistoryDays).total != 0.0
    ensures var r := DetermineFunding(log, stablecoinCap, totalCap, Some(h), cacheStablecoin, cacheTotal);
      r.Success? &&
      (r.value.funding == Offensive <==> HistorySlope(log, h.stablecoin, MinHistoryDays) > 0.0)
  {
    EstimatedSlopesEqual(log, h, MinHistoryDays);
  }
}
