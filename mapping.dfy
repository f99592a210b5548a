/** The four-quadrant state table and the risk level of each state
    (`_map_to_state`, `_get_risk_level`). */
module Mapping {
  import opened Types

  function MapToState(trend: TrendDirection, funding: FundingBehavior): (m: MarketState)
    ensures (m == BullOffensive || m == BullDefensive) <==> trend == Bullish
    ensures (m == BullOffensive || m == BearOffensive) <==> funding == Offensive
  {
    match (trend, funding)
    case (Bullish, Offensive) => BullOffensive
    case (Bullish, Defensive) => BullDefensive
    case (Bearish, Offensive) => BearOffensive
    case (Bearish, Defensive) => BearDefensive
  }

  function TrendOf(m: MarketState): (r: TrendDirection)
  {
    if m == BullOffensive || m == BullDefensive then Bullish else Bearish
  }

  function FundingOf(m: MarketState): (r: FundingBehavior)
  {
    if m == BullOffensive || m == BearOffensive then Offensive else Defensive
  }

  /** The table is a bijection between (trend, funding) pairs and states. */
  lemma MapToStateBijective(trend: TrendDirection, funding: FundingBehavior, m: MarketState)
    ensures TrendOf(MapToState(trend, funding)) == trend
    ensures FundingOf(MapToState(trend, funding)) == funding
    ensures MapToState(TrendOf(m), FundingOf(m)) == m
  {
  }

  lemma MapToStateInjective(t1: TrendDirection, f1: FundingBehavior, t2: TrendDirection, f2: FundingBehavior)
    ensures MapToState(t1, f1) == MapToState(t2, f2) ==> t1 == t2 && f1 == f2
  {
    MapToStateBijective(t1, f1, BullOffensive);
    MapToStateBijective(t2, f2, BullOffensive);
  }

  const High: string := "HIGH"
  const Medium: string := "MEDIUM"
  const Low: string := "LOW"

  function RiskLevel(m: MarketState): (level: string)
    ensures level == High <==> m == BullOffensive
    ensures level == Low <==> m == BearDefensive
    ensures level == Medium <==> m == BullDefensive || m == BearOffensive
  {
    match m
    case BullOffensive => High
    case BullDefensive => Medium
    case BearOffensive => Medium
    case BearDefensive => Low
  }
}
