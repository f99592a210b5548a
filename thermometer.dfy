/** Risk thermometer: drawdown from the all-time high and its tier
    (`_calculate_risk_thermometer`). */
module Thermometer {
  import opened Series

  const Normal: string := "正常体温"
  const LowFever: string := "低/中烧"
  const HighFever: string := "高烧威胁"
  const Critical: string := "生命体征极差"

  /** All-time high over the closing prices and the current price. */
  function Ath(price: real, prices: seq<real>): (a: real)
    ensures a >= price
    ensures a == price || a in prices
    ensures forall i :: 0 <= i < |prices| ==> prices[i] <= a
  {
    if prices == [] then price
    else
      var m := Max(prices + [price]);
      assert forall i :: 0 <= i < |prices| ==> prices[i] == (prices + [price])[i];
      assert (prices + [price])[|prices|] == price;
      m
  }

  /** Rank of a tier, 0 (normal) to 3 (critical). Bounds are lower-inclusive. */
  function TierRank(drawdown: real): (k: nat)
    ensures k <= 3
    ensures k == 0 <==> drawdown < 20.0
    ensures k == 1 <==> 20.0 <= drawdown < 35.0
    ensures k == 2 <==> 35.0 <= drawdown < 60.0
    ensures k == 3 <==> drawdown >= 60.0
  {
    if drawdown < 20.0 then 0
    else if drawdown < 35.0 then 1
    else if drawdown < 60.0 then 2
    else 3
  }

  function TierLabel(k: nat): (r: string)
    requires k <= 3
  {
    [Normal, LowFever, HighFever, Critical][k]
  }

  datatype Reading = Reading(drawdown: real, tier: string)

  /** Drawdown in percent below the all-time high, floored at 0, and its tier. */
  function RiskThermometer(price: real, prices: seq<real>): (r: Reading)
    ensures r.drawdown >= 0.0
    ensures r.tier == TierLabel(TierRank(r.drawdown))
    ensures r.drawdown > 0.0 ==> price < Ath(price, prices)
    ensures Ath(price, prices) > 0.0 && Ath(price, prices) > price ==>
      r.drawdown == (Ath(price, prices) - price) / Ath(price, prices) * 100.0
  {
    var ath := Ath(price, prices);
    if ath == 0.0 then Reading(0.0, Normal)
    else
      var drawdown := ((ath - price) / ath) * 100.0;
      if drawdown <= 0.0 then Reading(0.0, Normal)
      else if drawdown < 20.0 then Reading(drawdown, Normal)
      else if drawdown < 35.0 then Reading(drawdown, LowFever)
      else if drawdown < 60.0 then Reading(drawdown, HighFever)
      else Reading(drawdown, Critical)
  }

  /** A deeper drawdown never reads as a milder tier. */
  lemma TierMonotone(d1: real, d2: real)
    requires d1 <= d2
    ensures TierRank(d1) <= TierRank(d2)
  {
  }

  /** A price at or above every closing price reads as no drawdown. */
  lemma AtHighNoDrawdown(price: real, prices: seq<real>)
    requires forall i :: 0 <= i < |prices| ==> prices[i] <= price
    ensures RiskThermometer(price, prices) == Reading(0.0, Normal)
  {
    var ath := Ath(price, prices);
    assert ath == price;
  }

  /** A fall from 100 to 80 is a 20% drawdown, the first fever tier. */
  lemma TwentyPercentIsLowFever()
    ensures RiskThermometer(80.0, [100.0]) == Reading(20.0, LowFever)
  {
    assert Ath(80.0, [100.0]) == 100.0;
  }
}
