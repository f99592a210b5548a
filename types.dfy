/** Result types of the market-regime state machine and their JSON-shaped
    serialisation (`StateResult.to_dict`). */
module Types {
  import opened Wrappers

  // ---------------------------------------------------------------------
  // Enumerations. Each member carries the Chinese label the dashboard reads.

  datatype TrendDirection = Bullish | Bearish
  {
    function Value(): string
    {
      match this
      case Bullish => "趋势多"
      case Bearish => "趋势空"
    }
  }

  datatype FundingBehavior = Offensive | Defensive
  {
    function Value(): string
    {
      match this
      case Offensive => "资金进攻"
      case Defensive => "资金防守"
    }
  }

  datatype MarketState = BullOffensive | BullDefensive | BearOffensive | BearDefensive
  {
    function Value(): string
    {
      match this
      case BullOffensive => "牛市进攻"
      case BullDefensive => "牛市修复"
      case BearOffensive => "熊市反弹"
      case BearDefensive => "熊市消化"
    }
  }

  /** Enum lookup by value, `TrendDirection(s)`; None where Python raises. */
  function ParseTrend(s: string): (r: Option<TrendDirection>)
    ensures r.Some? ==> r.value.Value() == s
  {
    if s == "趋势多" then Some(Bullish)
    else if s == "趋势空" then Some(Bearish)
    else None
  }

  function ParseFunding(s: string): (r: Option<FundingBehavior>)
    ensures r.Some? ==> r.value.Value() == s
  {
    if s == "资金进攻" then Some(Offensive)
    else if s == "资金防守" then Some(Defensive)
    else None
  }

  function ParseState(s: string): (r: Option<MarketState>)
    ensures r.Some? ==> r.value.Value() == s
  {
    if s == "牛市进攻" then Some(BullOffensive)
    else if s == "牛市修复" then Some(BullDefensive)
    else if s == "熊市反弹" then Some(BearOffensive)
    else if s == "熊市消化" then Some(BearDefensive)
    else None
  }

  /** The enum values are pairwise distinct, so decoding a value string
      gives back the member it came from. */
  lemma EnumValuesRoundTrip(t: TrendDirection, f: FundingBehavior, m: MarketState)
    ensures ParseTrend(t.Value()) == Some(t)
    ensures ParseFunding(f.Value()) == Some(f)
    ensures ParseState(m.Value()) == Some(m)
  {
  }

  lemma EnumValuesInjective(m1: MarketState, m2: MarketState)
    ensures m1.Value() == m2.Value() <==> m1 == m2
  {
    EnumValuesRoundTrip(Bullish, Offensive, m1);
    EnumValuesRoundTrip(Bullish, Offensive, m2);
  }

  // ---------------------------------------------------------------------
  // Records

  /** The validation block. Fields typed `X | None` are Options. */
  datatype ValidationLayer = ValidationLayer(
    riskThermometer: string,
    athDrawdown: real,
    athPrice: Option<real>,
    etfAccelerator: string,
    etfNetFlow: Option<real>,
    etfAum: Option<real>,
    etfFlow14dSum: Option<real>,
    etfFlowPosRatio: Option<real>,
    etfFlowRecentAvg: Option<real>,
    etfFlowPrevAvg: Option<real>,
    etfFlowTrend: Option<string>,
    etfAumTrend: Option<string>)

  /** A JSON-like value: what `to_dict` produces. Objects keep key order. */
  datatype Json =
    | JNull
    | JNum(num: real)
    | JStr(str: string)
    | JObject(fields: seq<(string, Json)>)

  datatype StateResult = StateResult(
    state: MarketState,
    trend: TrendDirection,
    funding: FundingBehavior,
    riskLevel: string,
    confidence: real,
    validation: ValidationLayer,
    metadata: Option<seq<(string, Json)>>)

  function Keys(fields: seq<(string, Json)>): (ks: seq<string>)
    ensures |ks| == |fields|
  {
    seq(|fields|, i requires 0 <= i < |fields| => fields[i].0)
  }

  function NumOrNull(x: Option<real>): (r: Json)
  {
    match x
    case None => JNull
    case Some(v) => JNum(v)
  }

  function StrOrNull(x: Option<string>): (r: Json)
  {
    match x
    case None => JNull
    case Some(v) => JStr(v)
  }

  const ValidationFieldNames: seq<string> := [
    "risk_thermometer", "ath_drawdown", "ath_price", "etf_accelerator",
    "etf_net_flow", "etf_aum", "etf_flow_14d_sum", "etf_flow_pos_ratio",
    "etf_flow_recent_avg", "etf_flow_prev_avg", "etf_flow_trend", "etf_aum_trend"]

  const ResultKeys: seq<string> :=
    ["state", "trend", "funding", "risk_level", "confidence", "validation", "metadata"]

  function ValidationToDict(v: ValidationLayer): (d: seq<(string, Json)>)
  {
    [("risk_thermometer", JStr(v.riskThermometer)),
     ("ath_drawdown", JNum(v.athDrawdown)),
     ("ath_price", NumOrNull(v.athPrice)),
     ("etf_accelerator", JStr(v.etfAccelerator)),
     ("etf_net_flow", NumOrNull(v.etfNetFlow)),
     ("etf_aum", NumOrNull(v.etfAum)),
     ("etf_flow_14d_sum", NumOrNull(v.etfFlow14dSum)),
     ("etf_flow_pos_ratio", NumOrNull(v.etfFlowPosRatio)),
     ("etf_flow_recent_avg", NumOrNull(v.etfFlowRecentAvg)),
     ("etf_flow_prev_avg", NumOrNull(v.etfFlowPrevAvg)),
     ("etf_flow_trend", StrOrNull(v.etfFlowTrend)),
     ("etf_aum_trend", StrOrNull(v.etfAumTrend))]
  }

  /** `StateResult.to_dict`: enums become their value strings, metadata
      None becomes an empty object. */
  function ToDict(r: StateResult): (d: seq<(string, Json)>)
    ensures Keys(d) == ResultKeys
    ensures d[5].1.JObject? && Keys(d[5].1.fields) == ValidationFieldNames
  {
    [("state", JStr(r.state.Value())),
     ("trend", JStr(r.trend.Value())),
     ("funding", JStr(r.funding.Value())),
     ("risk_level", JStr(r.riskLevel)),
     ("confidence", JNum(r.confidence)),
     ("validation", JObject(ValidationToDict(r.validation))),
     ("metadata", JObject(if r.metadata.Some? then r.metadata.value else []))]
  }

  // ---------------------------------------------------------------------
  // Reading a serialised result back, the partner of ToDict. The reader
  // accepts exactly the key layout ToDict emits.

  function AsStr(j: Json): (r: Option<string>)
  {
    if j.JStr? then Some(j.str) else None
  }

  function AsNum(j: Json): (r: Option<real>)
  {
    if j.JNum? then Some(j.num) else None
  }

  /** A nullable number: Some(None) for null, None when malformed. */
  function AsOptNum(j: Json): (r: Option<Option<real>>)
  {
    if j.JNull? then Some(None) else if j.JNum? then Some(Some(j.num)) else None
  }

  function AsOptStr(j: Json): (r: Option<Option<string>>)
  {
    if j.JNull? then Some(None) else if j.JStr? then Some(Some(j.str)) else None
  }

  function ValidationFromDict(d: seq<(string, Json)>): (r: Option<ValidationLayer>)
    ensures r.Some? ==> Keys(d) == ValidationFieldNames
  {
    if Keys(d) != ValidationFieldNames then None
    else
      var rt := AsStr(d[0].1);
      var dd := AsNum(d[1].1);
      var ap := AsOptNum(d[2].1);
      var ea := AsStr(d[3].1);
      var nf := AsOptNum(d[4].1);
      var au := AsOptNum(d[5].1);
      var s14 := AsOptNum(d[6].1);
      var pr := AsOptNum(d[7].1);
      var ra := AsOptNum(d[8].1);
      var pa := AsOptNum(d[9].1);
      var ft := AsOptStr(d[10].1);
      var at := AsOptStr(d[11].1);
      if rt.Some? && dd.Some? && ap.Some? && ea.Some? && nf.Some? && au.Some? && s14.Some?
         && pr.Some? && ra.Some? && pa.Some? && ft.Some? && at.Some?
      then Some(ValidationLayer(rt.value, dd.value, ap.value, ea.value, nf.value, au.value,
                                s14.value, pr.value, ra.value, pa.value, ft.value, at.value))
      else None
  }

  /** Decodes a serialised result; metadata always comes back present. */
  function FromDict(d: seq<(string, Json)>): (r: Option<StateResult>)
    ensures r.Some? ==> Keys(d) == ResultKeys
  {
    if Keys(d) != ResultKeys then None
    else
      var st := AsStr(d[0].1);
      var tr := AsStr(d[1].1);
      var fu := AsStr(d[2].1);
      var rl := AsStr(d[3].1);
      var cf := AsNum(d[4].1);
      var va := d[5].1;
      var md := d[6].1;
      if st.Some? && tr.Some? && fu.Some? && rl.Some? && cf.Some? && va.JObject? && md.JObject?
      then
        var s := ParseState(st.value);
        var t := ParseTrend(tr.value);
        var f := ParseFunding(fu.value);
        var v := ValidationFromDict(va.fields);
        if s.Some? && t.Some? && f.Some? && v.Some?
        then Some(StateResult(s.value, t.value, f.value, rl.value, cf.value, v.value, Some(md.fields)))
        else None
      else None
  }

  /** `metadata or {}`: an absent metadata dict and an empty one serialise alike. */
  function Normalized(r: StateResult): (v: StateResult)
  {
    r.(metadata := Some(if r.metadata.Some? then r.metadata.value else []))
  }

  lemma ValidationRoundTrip(v: ValidationLayer)
    ensures ValidationFromDict(ValidationToDict(v)) == Some(v)
  {
    assert Keys(ValidationToDict(v)) == ValidationFieldNames;
  }

  /** Every field of a result survives serialisation; only the distinction
      between no metadata and empty metadata is lost. */
  lemma ToDictRoundTrip(r: StateResult)
    ensures FromDict(ToDict(r)) == Some(Normalized(r))
  {
    ValidationRoundTrip(r.validation);
    EnumValuesRoundTrip(r.trend, r.funding, r.state);
  }

  lemma ToDictInjective(r1: StateResult, r2: StateResult)
    ensures ToDict(r1) == ToDict(r2) <==> Normalized(r1) == Normalized(r2)
  {
    if ToDict(r1) == ToDict(r2) {
      ToDictRoundTrip(r1);
      ToDictRoundTrip(r2);
    }
  }

  // ---------------------------------------------------------------------
  // Calling the ValidationLayer constructor with keyword arguments. None of
  // its twelve fields has a default, so each must be passed by name.

  datatype ValidationField =
    | RiskThermometerField | AthDrawdownField | AthPriceField | EtfAcceleratorField
    | EtfNetFlowField | EtfAumField | EtfFlow14dSumField | EtfFlowPosRatioField
    | EtfFlowRecentAvgField | EtfFlowPrevAvgField | EtfFlowTrendField | EtfAumTrendField

  const AllValidationFields: set<ValidationField> := {
    RiskThermometerField, AthDrawdownField, AthPriceField, EtfAcceleratorField,
    EtfNetFlowField, EtfAumField, EtfFlow14dSumField, EtfFlowPosRatioField,
    EtfFlowRecentAvgField, EtfFlowPrevAvgField, EtfFlowTrendField, EtfAumTrendField}

  datatype CallOutcome = Constructed | TypeError(missing: set<ValidationField>)

  /** Outcome of `ValidationLayer(**kwargs)` when the keywords name `given`:
      Python raises TypeError naming every required argument left out. */
  function ConstructValidation(given: set<ValidationField>): (r: CallOutcome)
    ensures r.Constructed? <==> forall f: ValidationField :: f in given
    ensures r.TypeError? ==> r.missing != {} && forall f :: f in r.missing <==> f !in given
  {
    if AllValidationFields <= given then
      assert forall f: ValidationField :: f in given by {
        forall f: ValidationField ensures f in given { FieldListed(f); }
      }
      Constructed
    else
      forall f: ValidationField ensures f in AllValidationFields { FieldListed(f); }
      var absent :| absent in AllValidationFields && absent !in given;
      assert absent in AllValidationFields - given;
      TypeError(AllValidationFields - given)
  }

  /** The five keywords the engine passes when it builds the validation block. */
  const EngineValidationKeywords: set<ValidationField> :=
    {RiskThermometerField, AthDrawdownField, EtfAcceleratorField, EtfNetFlowField, EtfAumField}

  /** As written, the engine's constructor call lacks seven required
      arguments and raises TypeError on every evaluation. */
  lemma EngineValidationCallRaises()
    ensures ConstructValidation(EngineValidationKeywords) ==
      TypeError({AthPriceField, EtfFlow14dSumField, EtfFlowPosRatioField, EtfFlowRecentAvgField,
                 EtfFlowPrevAvgField, EtfFlowTrendField, EtfAumTrendField})
  {
  }

  lemma FieldListed(f: ValidationField)
    ensures f in AllValidationFields
  {
  }

  /** Passing all twelve fields by name constructs the record. */
  lemma FullValidationCallConstructs()
    ensures ConstructValidation(AllValidationFields) == Constructed
  {
  }
}
