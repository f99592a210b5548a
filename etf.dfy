/** ETF accelerator: the status of spot-ETF net flows
    (`_calculate_etf_accelerator`). */
module Etf {
  import opened Wrappers
  import opened Series

  datatype EtfStatus = Tailwind | Headwind | Blunted | Unknown
  {
    function Value(): string
    {
      match this
      case Tailwind => "顺风"
      case Headwind => "逆风"
      case Blunted => "钝化"
      case Unknown => "未知"
    }
  }

  /** What the flow provider returns: the latest net flow, the AUM and the
      daily net flows, oldest first (None when no row is usable). */
  datatype EtfFeed = EtfFeed(netFlow: Option<real>, aum: Option<real>, history: Option<seq<real>>)

  datatype EtfReading = EtfReading(status: EtfStatus, netFlow: Option<real>, aum: Option<real>)

  /** Flows within plus or minus this many dollars read as flat. */
  const FlatBand: real := 10_000_000.0
  /** Fewest history days before the trend rules replace the single-day rule. */
  const MinHistory: nat := 7
  /** Fewest days in one direction for a sustained trend. */
  const MinConsistentDays: nat := 14
  const ConsistencyThreshold: real := 0.7

  function SingleDayStatus(flow: real): (s: EtfStatus)
    ensures s == Blunted <==> Abs(flow) < FlatBand
    ensures s == Tailwind <==> flow >= FlatBand
    ensures s == Headwind <==> flow <= -FlatBand
  {
    if Abs(flow) < FlatBand then Blunted
    else if flow > 0.0 then Tailwind
    else Headwind
  }

  predicate AllPositive(s: seq<real>)
  {
    forall i :: 0 <= i < |s| ==> s[i] > 0.0
  }

  predicate AllNegative(s: seq<real>)
  {
    forall i :: 0 <= i < |s| ==> s[i] < 0.0
  }

  /** At least 14 days and 70% of days in one direction. */
  predicate Sustained(days: nat, total: nat)
    requires total > 0
  {
    days >= MinConsistentDays && (days as real) / (total as real) >= ConsistencyThreshold
  }

  /** Outflows that are easing: the later half averages less than half the
      earlier half's outflow. */
  predicate Decelerating(h: seq<real>)
    requires |h| >= 2
  {
    var firstAvg := Mean(h[..|h| / 2]);
    var secondAvg := Mean(h[|h| / 2..]);
    firstAvg < 0.0 && secondAvg > firstAvg && Abs(secondAvg) < Abs(firstAvg) * 0.5
  }

  /** The decision tree for a known net flow and a history of at least a week. */
  function TrendStatus(flow: real, h: seq<real>): (s: EtfStatus)
    requires |h| >= MinHistory
    ensures s != Unknown
    ensures s == Tailwind && flow <= 0.0 ==> Sustained(CountPositive(h), |h|)
    ensures s == Headwind && flow > 0.0 ==> Sustained(CountNegative(h), |h|)
    ensures Sustained(CountPositive(h), |h|) && Sum(Last(h, MinHistory)) > 0.0 ==> s == Tailwind
    ensures Sustained(CountNegative(h), |h|) && Sum(Last(h, MinHistory)) < 0.0 ==> s == Headwind
    ensures |h| < MinConsistentDays ==>
      s == (if Abs(Mean(h)) < FlatBand then Blunted else if flow > 0.0 then Tailwind else Headwind)
  {
    var n := |h|;
    var recent := Last(h, MinHistory);
    AllOrSumIsSum(recent);
    if Sustained(CountPositive(h), n) && (AllPositive(recent) || Sum(recent) > 0.0) then Tailwind
    else if Sustained(CountNegative(h), n) && (AllNegative(recent) || Sum(recent) < 0.0) then Headwind
    else if n >= MinConsistentDays && Decelerating(h) then Blunted
    else if Abs(Mean(h)) < FlatBand then Blunted
    else if flow > 0.0 then Tailwind
    else Headwind
  }

  /** An independent statement of the decision tree: the recent week is
      judged by its sum alone, the sustained rules apply only from two
      weeks on, and easing outflows are those whose later half averages
      under half the earlier half's outflow. */
  function SimplifiedStatus(flow: real, h: seq<real>): (r: EtfStatus)
    requires |h| >= MinHistory
  {
    var n := |h|;
    var recentSum := Sum(h[n - MinHistory..]);
    var firstAvg := Mean(h[..n / 2]);
    var secondAvg := Mean(h[n / 2..]);
    if n < MinConsistentDays then
      if Abs(Mean(h)) < FlatBand then Blunted else if flow > 0.0 then Tailwind else Headwind
    else if Sustained(CountPositive(h), n) && recentSum > 0.0 then Tailwind
    else if Sustained(CountNegative(h), n) && recentSum < 0.0 then Headwind
    else if firstAvg < 0.0 && Abs(secondAvg) < Abs(firstAvg) * 0.5 then Blunted
    else if Abs(Mean(h)) < FlatBand then Blunted
    else if flow > 0.0 then Tailwind
    else Headwind
  }

  /** The engine's tree and the simplified one agree on every input. */
  lemma TrendStatusIsSimplified(flow: real, h: seq<real>)
    requires |h| >= MinHistory
    ensures TrendStatus(flow, h) == SimplifiedStatus(flow, h)
  {
    var n := |h|;
    assert Last(h, MinHistory) == h[n - MinHistory..];
    AllOrSumIsSum(h[n - MinHistory..]);
    if n >= MinConsistentDays {
      var firstAvg := Mean(h[..n / 2]);
      var secondAvg := Mean(h[n / 2..]);
      if firstAvg < 0.0 && Abs(secondAvg) < Abs(firstAvg) * 0.5 {
        DecelerationMiddleClauseRedundant(firstAvg, secondAvg);
        assert Decelerating(h);
      }
    } else if Sustained(CountPositive(h), n) || Sustained(CountNegative(h), n) {
      SustainedNeedsTwoWeeks(h);
    }
  }

  /** `_calculate_etf_accelerator`. A None feed stands for an exception
      while fetching. */
  function EtfAccelerator(feed: Option<EtfFeed>): (r: EtfReading)
    ensures r.status == Unknown <==> feed.None? || feed.value.netFlow.None?
    ensures feed.Some? ==> r.netFlow == feed.value.netFlow && r.aum == feed.value.aum
    ensures feed.None? ==> r == EtfReading(Unknown, None, None)
    ensures feed.Some? && feed.value.netFlow.Some?
      && (feed.value.history.None? || |feed.value.history.value| < MinHistory)
      ==> r.status == SingleDayStatus(feed.value.netFlow.value)
    ensures feed.Some? && feed.value.netFlow.Some? && feed.value.history.Some?
      && |feed.value.history.value| >= MinHistory
      ==> r.status == TrendStatus(feed.value.netFlow.value, feed.value.history.value)
  {
    match feed
    case None => EtfReading(Unknown, None, None)
    case Some(f) =>
      if f.netFlow.None? then EtfReading(Unknown, None, f.aum)
      else
        var flow := f.netFlow.value;
        var h := if f.history.Some? then f.history.value else [];
        if |h| < MinHistory then EtfReading(SingleDayStatus(flow), f.netFlow, f.aum)
        else EtfReading(TrendStatus(flow, h), f.netFlow, f.aum)
  }

  /** A sustained trend needs fourteen days in one direction, so it never
      fires on a shorter history. */
  lemma SustainedNeedsTwoWeeks(h: seq<real>)
    requires |h| > 0
    requires Sustained(CountPositive(h), |h|) || Sustained(CountNegative(h), |h|)
    ensures |h| >= MinConsistentDays
  {
  }

  /** The recent-week check "all positive or positive sum" is the positive-sum
      check alone. */
  lemma {:induction false} AllOrSumIsSum(recent: seq<real>)
    requires |recent| > 0
    ensures (AllPositive(recent) || Sum(recent) > 0.0) <==> Sum(recent) > 0.0
    ensures (AllNegative(recent) || Sum(recent) < 0.0) <==> Sum(recent) < 0.0
  {
    if AllPositive(recent) {
      SumOfPositivesPositive(recent);
    }
    if AllNegative(recent) {
      SumOfNegativesNegative(recent);
    }
  }

  /** In the deceleration test the clause `second > first` is implied by the
      other two. */
  lemma DecelerationMiddleClauseRedundant(firstAvg: real, secondAvg: real)
    requires firstAvg < 0.0 && Abs(secondAvg) < Abs(firstAvg) * 0.5
    ensures secondAvg > firstAvg
  {
  }

  /** With mixed signals and a large average flow, a zero current flow
      reads as headwind. */
  lemma ZeroFlowTiebreakIsHeadwind(h: seq<real>)
    requires |h| >= MinHistory
    requires !Sustained(CountPositive(h), |h|) && !Sustained(CountNegative(h), |h|)
    requires !(|h| >= MinConsistentDays && Decelerating(h))
    requires Abs(Mean(h)) >= FlatBand
    ensures TrendStatus(0.0, h) == Headwind
  {
  }
}
