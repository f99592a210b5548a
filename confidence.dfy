/** The confidence score (`_calculate_confidence`). */
module Confidence {
  import opened Series

  /** Mean absolute MA slope, scaled so that 0.5% per day is full confidence. */
  function SlopeConfidence(ma50Slope: real, ma200Slope: real): (c: real)
    ensures 0.0 <= c <= 1.0
    ensures c == 1.0 <==> Abs(ma50Slope) + Abs(ma200Slope) >= 1.0
  {
    var strength := (Abs(ma50Slope) + Abs(ma200Slope)) / 2.0;
    Min(1.0, strength / 0.5)
  }

  /** Relative MA50/MA200 gap, 0 when MA200 is not positive. */
  function ArrangementClarity(ma50: real, ma200: real): (a: real)
    ensures a >= 0.0
    ensures ma200 <= 0.0 ==> a == 0.0
  {
    if ma200 > 0.0 then Abs(ma50 - ma200) / ma200 else 0.0
  }

  function TrendConfidence(ma50: real, ma200: real, slopeConfidence: real): (c: real)
    requires 0.0 <= slopeConfidence
    ensures 0.0 <= c <= 1.0
  {
    Min(1.0, ArrangementClarity(ma50, ma200) * 5.0 + slopeConfidence * 0.5)
  }

  /** Distance of the stablecoin share from its threshold, relative to it. */
  function FundingConfidence(ratioChange: real): (c: real)
    ensures 0.0 <= c <= 1.0
    ensures c == 1.0 <==> Abs(ratioChange) >= 8.0
  {
    Min(1.0, Abs(ratioChange) / 8.0)
  }

  /** Mean of the trend and funding confidences. The price is an argument of
      the source's scorer but takes no part in it. */
  function Confidence(ma50: real, ma200: real, ma50Slope: real, ma200Slope: real,
                      ratioChange: real): (c: real)
    ensures 0.0 <= c <= 1.0
  {
    var trend := TrendConfidence(ma50, ma200, SlopeConfidence(ma50Slope, ma200Slope));
    var funding := FundingConfidence(ratioChange);
    Min(1.0, (trend + funding) / 2.0)
  }

  /** A stronger funding signal never lowers the score. */
  lemma ConfidenceMonotoneInFunding(ma50: real, ma200: real, ma50Slope: real, ma200Slope: real,
                                    change1: real, change2: real)
    requires Abs(change1) <= Abs(change2)
    ensures Confidence(ma50, ma200, ma50Slope, ma200Slope, change1)
         <= Confidence(ma50, ma200, ma50Slope, ma200Slope, change2)
  {
    assert FundingConfidence(change1) <= FundingConfidence(change2);
  }

  /** Full confidence needs both a clear trend and a strong funding signal. */
  lemma FullConfidence(ma50: real, ma200: real, ma50Slope: real, ma200Slope: real, ratioChange: real)
    ensures Confidence(ma50, ma200, ma50Slope, ma200Slope, ratioChange) == 1.0 <==>
      TrendConfidence(ma50, ma200, SlopeConfidence(ma50Slope, ma200Slope)) == 1.0 &&
      Abs(ratioChange) >= 8.0
  {
  }
}
