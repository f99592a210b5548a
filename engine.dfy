/** The state machine engine: one evaluation gathers the trend, funding,
    risk-thermometer and ETF readings into a `StateResult`, and keeps the
    bounded market-cap cache between evaluations. Provider answers are
    parameters: the current snapshot, the daily closing prices, the
    external market-cap histories and the ETF feed. */
module Engine {
  import opened Wrappers
  import opened Types
  import opened History
  import opened Trend
  import opened Funding
  import opened Thermometer
  import opened Etf
  import opened Mapping
  import opened Confidence
  import opened Farside

  /** The current values the engine fetches first. */
  datatype Snapshot = Snapshot(btcPrice: real, ma50: real, ma200: real, totalCap: real, stablecoinCap: real)

  /** `_get_historical_data` falls back to no prices when the candles cannot
      be fetched. */
  function PricesOf(klines: Option<seq<real>>): (prices: seq<real>)
    ensures klines.None? ==> prices == []
    ensures klines.Some? ==> prices == klines.value
  {
    if klines.Some? then klines.value else []
  }

  /** `_get_historical_market_cap_data`: the provider's answer is used only
      when it holds total-market-cap values. */
  function ExternalData(raw: Option<MarketCapHistory>): (r: Option<MarketCapHistory>)
    ensures r.Some? <==> raw.Some? && |raw.value.total| > 0
    ensures r.Some? ==> r == raw
  {
    if raw.Some? && |raw.value.total| > 0 then raw else None
  }

  /** The validation block with all twelve fields passed by name; the seven
      the engine does not compute are None. */
  function CorrectedValidation(thermometer: Reading, etf: EtfReading): (v: ValidationLayer)
    ensures v.riskThermometer == thermometer.tier && v.athDrawdown == thermometer.drawdown
    ensures v.etfAccelerator == etf.status.Value() && v.etfNetFlow == etf.netFlow && v.etfAum == etf.aum
    ensures v.athPrice.None? && v.etfFlow14dSum.None? && v.etfFlowPosRatio.None?
    ensures v.etfFlowRecentAvg.None? && v.etfFlowPrevAvg.None?
    ensures v.etfFlowTrend.None? && v.etfAumTrend.None?
  {
    ValidationLayer(thermometer.tier, thermometer.drawdown, None, etf.status.Value(),
                    etf.netFlow, etf.aum, None, None, None, None, None, None)
  }

  const MetadataKeys: seq<string> := [
    "btc_price", "ma50", "ma200", "ma50_slope", "ma200_slope",
    "total_market_cap", "stablecoin_market_cap", "stablecoin_ratio",
    "stablecoin_change", "stablecoin_ratio_change", "stablecoin_slope",
    "total_slope", "ath_drawdown"]

  /** The metadata dictionary of a result, in the source's key order. */
  function Metadata(snap: Snapshot, trend: TrendReading, ratio: real, funding: FundingReading,
                    slopes: Slopes, thermometer: Reading): (m: seq<(string, Json)>)
    ensures Keys(m) == MetadataKeys
  {
    [("btc_price", JNum(snap.btcPrice)),
     ("ma50", JNum(snap.ma50)),
     ("ma200", JNum(snap.ma200)),
     ("ma50_slope", JNum(trend.ma50Slope)),
     ("ma200_slope", JNum(trend.ma200Slope)),
     ("total_market_cap", JNum(snap.totalCap)),
     ("stablecoin_market_cap", JNum(snap.stablecoinCap)),
     ("stablecoin_ratio", JNum(ratio)),
     ("stablecoin_change", JNum(funding.change)),
     ("stablecoin_ratio_change", JNum(funding.ratioChange)),
     ("stablecoin_slope", JNum(slopes.stablecoin)),
     ("total_slope", JNum(slopes.total)),
     ("ath_drawdown", JNum(thermometer.drawdown))]
  }

  /** One evaluation, given the moving-average histories and the cache as
      it stands after the current values were added. */
  function Assemble(log: real -> real, snap: Snapshot, prices: seq<real>,
                    ma50History: seq<real>, ma200History: seq<real>,
                    external: Option<MarketCapHistory>,
                    cacheStablecoin: seq<real>, cacheTotal: seq<real>,
                    etf: Option<EtfFeed>): (r: Result<StateResult, EvalError>)
    requires |cacheStablecoin| == |cacheTotal|
  {
    var trend := TrendWithSlope(log, snap.btcPrice, snap.ma200, ma50History, ma200History);
    match DetermineFunding(log, snap.stablecoinCap, snap.totalCap, external, cacheStablecoin, cacheTotal)
    case Failure(e) => Failure(e)
    case Success(funding) =>
      var slopes := MetadataSlopes(log, external, cacheStablecoin, cacheTotal);
      var state := MapToState(trend.trend, funding.funding);
      var thermometer := RiskThermometer(snap.btcPrice, prices);
      var validation := CorrectedValidation(thermometer, EtfAccelerator(etf));
      var confidence := Confidence.Confidence(snap.ma50, snap.ma200, trend.ma50Slope, trend.ma200Slope, funding.ratioChange);
      var ratio := StablecoinRatio(snap.stablecoinCap, snap.totalCap);
      Success(StateResult(state, trend.trend, funding.funding, RiskLevel(state), confidence, validation,
                          Some(Metadata(snap, trend, ratio, funding, slopes, thermometer))))
  }

  /** `evaluate` as a function of its inputs: the price history, the
      external histories and the cache the funding rule reads. */
  function Evaluation(log: real -> real, snap: Snapshot, prices: seq<real>,
                      external: Option<MarketCapHistory>,
                      cacheStablecoin: seq<real>, cacheTotal: seq<real>,
                      etf: Option<EtfFeed>): (r: Result<StateResult, EvalError>)
    requires |cacheStablecoin| == |cacheTotal|
    ensures r.Failure? <==> snap.totalCap == 0.0
    ensures r.Success? ==>
      var v := r.value;
      && v.state == MapToState(v.trend, v.funding)
      && (v.trend == Bullish <==> snap.btcPrice > snap.ma200)
      && v.funding == DetermineFunding(log, snap.stablecoinCap, snap.totalCap, external,
                                       cacheStablecoin, cacheTotal).value.funding
      && v.riskLevel == RiskLevel(v.state)
      && 0.0 <= v.confidence <= 1.0
      && v.confidence == Confidence.Confidence(snap.ma50, snap.ma200,
           MaSlope(log, MovingAverage(prices, Ma50Window)), MaSlope(log, MovingAverage(prices, Ma200Window)),
           DetermineFunding(log, snap.stablecoinCap, snap.totalCap, external,
                            cacheStablecoin, cacheTotal).value.ratioChange)
      && v.validation == CorrectedValidation(RiskThermometer(snap.btcPrice, prices), EtfAccelerator(etf))
      && v.metadata.Some? && Keys(v.metadata.value) == MetadataKeys
  {
    Assemble(log, snap, prices, MovingAverage(prices, Ma50Window), MovingAverage(prices, Ma200Window),
             external, cacheStablecoin, cacheTotal, etf)
  }

  /** The engine object. Its two caches grow together, one value per
      evaluation, and hold at most thirty values each. */
  class StateMachine {
    var stablecoinCaps: seq<real>
    var totalCaps: seq<real>

    ghost predicate Valid()
      reads this
    {
      |stablecoinCaps| == |totalCaps| <= MaxHistorySize
    }

    constructor()
      ensures Valid()
      ensures stablecoinCaps == [] && totalCaps == []
    {
      stablecoinCaps := [];
      totalCaps := [];
    }

    /** `_update_market_cap_history` */
    method UpdateMarketCapHistory(stablecoinCap: real, totalCap: real)
      requires Valid()
      modifies this
      ensures Valid()
      ensures stablecoinCaps == Push(old(stablecoinCaps), stablecoinCap)
      ensures totalCaps == Push(old(totalCaps), totalCap)
    {
      stablecoinCaps := stablecoinCaps + [stablecoinCap];
      totalCaps := totalCaps + [totalCap];
      if |stablecoinCaps| > MaxHistorySize {
        stablecoinCaps := stablecoinCaps[1..];
        totalCaps := totalCaps[1..];
      }
    }

    /** `evaluate`. The cache is updated before the funding rule runs, so
        it already holds the current values, and it is updated even when
        the evaluation then fails. */
    method Evaluate(log: real -> real, snap: Snapshot, klines: Option<seq<real>>,
                    rawExternal: Option<MarketCapHistory>, etf: Option<EtfFeed>)
      returns (r: Result<StateResult, EvalError>)
      requires Valid()
      modifies this
      ensures Valid()
      ensures stablecoinCaps == Push(old(stablecoinCaps), snap.stablecoinCap)
      ensures totalCaps == Push(old(totalCaps), snap.totalCap)
      ensures r == Evaluation(log, snap, PricesOf(klines), ExternalData(rawExternal),
                              stablecoinCaps, totalCaps, etf)
    {
      var prices := PricesOf(klines);
      var ma50History, ma200History := MovingAverages(prices);
      var external := ExternalData(rawExternal);
      UpdateMarketCapHistory(snap.stablecoinCap, snap.totalCap);
      r := Assemble(log, snap, prices, ma50History, ma200History, external,
                    stablecoinCaps, totalCaps, etf);
    }
  }

  /** A successful result serialises and reads back unchanged. */
  lemma EvaluationSerialises(log: real -> real, snap: Snapshot, prices: seq<real>,
                             external: Option<MarketCapHistory>,
                             cacheStablecoin: seq<real>, cacheTotal: seq<real>, etf: Option<EtfFeed>)
    requires |cacheStablecoin| == |cacheTotal|
    requires snap.totalCap != 0.0
    ensures var r := Evaluation(log, snap, prices, external, cacheStablecoin, cacheTotal, etf);
      r.Success? && FromDict(ToDict(r.value)) == Some(r.value)
  {
    var r := Evaluation(log, snap, prices, external, cacheStablecoin, cacheTotal, etf);
    ToDictRoundTrip(r.value);
    assert Normalized(r.value) == r.value;
  }

  /** The corrected validation call passes every field the record requires. */
  lemma CorrectedValidationComplete()
    ensures ConstructValidation(AllValidationFields) == Constructed
    ensures EngineValidationKeywords < AllValidationFields
  {
    FullValidationCallConstructs();
    assert AthPriceField in AllValidationFields - EngineValidationKeywords;
  }

  /** The MA200 slope stays 0.0 until 209 closing prices are in view: ten
      MA200 values need 199 more prices than values. */
  lemma Ma200SlopeWarmUp(log: real -> real, prices: seq<real>)
    ensures |prices| < 209 ==> MaSlope(log, MovingAverage(prices, Ma200Window)) == 0.0
    ensures |prices| >= 209 ==> |MovingAverage(prices, Ma200Window)| >= SlopePeriods
    ensures |prices| < 59 ==> MaSlope(log, MovingAverage(prices, Ma50Window)) == 0.0
  {
  }

  // ---------------------------------------------------------------------
  // The ETF feed the accelerator reads, from the flow table

  /** Net flows of a history, oldest first. */
  function Flows(h: seq<FlowRecord>): (flows: seq<real>)
    ensures |flows| == |h|
    ensures forall i :: 0 <= i < |h| ==> flows[i] == h[i].netFlow
  {
    seq(|h|, i requires 0 <= i < |h| => h[i].netFlow)
  }

  /** Days of history the accelerator asks for. */
  const EtfHistoryDays: int := 30

  /** What `get_etf_data` and `get_etf_net_flow_history(days=30)` return
      for one table. The AUM comes from a separate source. */
  function EtfFeedOf(parseFloat: string -> Option<real>, table: Option<seq<Row>>, aum: Option<real>): (feed: EtfFeed)
  {
    var history := HistoryOf(parseFloat, table, EtfHistoryDays);
    EtfFeed(NetFlowOf(parseFloat, table), aum, if history.Some? then Some(Flows(history.value)) else None)
  }

  /** Reads the table as the accelerator does: the latest flow, then the
      history. */
  method FetchEtfFeed(parseFloat: string -> Option<real>, table: Option<seq<Row>>, aum: Option<real>)
    returns (feed: EtfFeed)
    ensures feed == EtfFeedOf(parseFloat, table, aum)
    ensures feed.history.Some? ==> 0 < |feed.history.value| <= EtfHistoryDays
  {
    var netFlow := LatestNetFlow(parseFloat, table);
    var history := NetFlowHistory(parseFloat, table, EtfHistoryDays);
    LatestIsNewestOfHistory(parseFloat, table, EtfHistoryDays);
    feed := EtfFeed(netFlow, aum, if history.Some? then Some(Flows(history.value)) else None);
  }

  /** The feed's newest history entry is its latest flow, and it has a
      history exactly when it has a latest flow. */
  lemma EtfFeedConsistent(parseFloat: string -> Option<real>, table: Option<seq<Row>>, aum: Option<real>)
    ensures var feed := EtfFeedOf(parseFloat, table, aum);
      (feed.netFlow.Some? <==> feed.history.Some?) &&
      (feed.netFlow.Some? ==>
        |feed.history.value| > 0 && feed.history.value[|feed.history.value| - 1] == feed.netFlow.value)
  {
    LatestIsNewestOfHistory(parseFloat, table, EtfHistoryDays);
  }

  /** The accelerator reads "unknown" exactly when the table has no usable
      row. */
  lemma EtfUnknownIffNoRow(parseFloat: string -> Option<real>, table: Option<seq<Row>>, aum: Option<real>)
    ensures EtfAccelerator(Some(EtfFeedOf(parseFloat, table, aum))).status == Unknown
      <==> table.None? || ValidRecords(parseFloat, table.value) == []
  {
    var feed := EtfFeedOf(parseFloat, table, aum);
    assert feed.netFlow == NetFlowOf(parseFloat, table);
  }

  /** A table with fewer than a week of usable rows is judged on its latest
      flow alone. */
  lemma EtfShortTableSingleDay(parseFloat: string -> Option<real>, table: Option<seq<Row>>, aum: Option<real>)
    requires table.Some? && 0 < |ValidRecords(parseFloat, table.value)| < MinHistory
    ensures EtfAccelerator(Some(EtfFeedOf(parseFloat, table, aum))).status
      == SingleDayStatus(NetFlowOf(parseFloat, table).value)
  {
    var h := ValidRecords(parseFloat, table.value);
    TruncateKeepsNewest(h, EtfHistoryDays);
    var feed := EtfFeedOf(parseFloat, table, aum);
    assert feed.netFlow == NetFlowOf(parseFloat, table);
    assert |feed.history.value| == |h|;
  }
}
