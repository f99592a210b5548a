/** Historical series the engine derives: the rolling MA50/MA200 over
    closing prices (`_get_historical_data`) and the bounded market-cap
    cache (`_update_market_cap_history`). */
module History {
  import opened Series

  /** Window lengths of the two moving averages. */
  const Ma50Window: nat := 50
  const Ma200Window: nat := 200
  /** Most values the market-cap cache keeps. */
  const MaxHistorySize: nat := 30

  /** Rolling means over every full window of `width` prices: entry j is the
      mean of prices[j .. j + width). */
  function MovingAverage(prices: seq<real>, width: nat): (ma: seq<real>)
    requires width > 0
    ensures |ma| == if |prices| >= width then |prices| - width + 1 else 0
    ensures forall j :: 0 <= j < |ma| ==> ma[j] == Sum(prices[j..j + width]) / width as real
  {
    if |prices| < width then []
    else seq(|prices| - width + 1, j requires 0 <= j <= |prices| - width => Sum(prices[j..j + width]) / width as real)
  }

  /** The closing-price loop: one pass that appends an MA50 once 50 prices
      are in view and an MA200 once 200 are. */
  method MovingAverages(prices: seq<real>) returns (ma50: seq<real>, ma200: seq<real>)
    ensures ma50 == MovingAverage(prices, Ma50Window)
    ensures ma200 == MovingAverage(prices, Ma200Window)
  {
    ma50, ma200 := [], [];
    for i := 0 to |prices|
      invariant ma50 == MovingAverage(prices[..i], Ma50Window)
      invariant ma200 == MovingAverage(prices[..i], Ma200Window)
    {
      if i >= Ma50Window - 1 {
        ma50 := ma50 + [Sum(prices[i - (Ma50Window - 1)..i + 1]) / Ma50Window as real];
      }
      if i >= Ma200Window - 1 {
        ma200 := ma200 + [Sum(prices[i - (Ma200Window - 1)..i + 1]) / Ma200Window as real];
      }
      MovingAverageStep(prices, i, Ma50Window);
      MovingAverageStep(prices, i, Ma200Window);
    }
    assert prices[..|prices|] == prices;
  }

  /** One more price extends the series by the window that ends at it, if full. */
  lemma MovingAverageStep(prices: seq<real>, i: nat, width: nat)
    requires 0 < width && i < |prices|
    ensures MovingAverage(prices[..i + 1], width) ==
      MovingAverage(prices[..i], width) +
      (if i >= width - 1 then [Sum(prices[i - (width - 1)..i + 1]) / width as real] else [])
  {
    var before, after := MovingAverage(prices[..i], width), MovingAverage(prices[..i + 1], width);
    forall j | 0 <= j < |before|
      ensures after[j] == before[j]
    {
      assert prices[..i + 1][j..j + width] == prices[..i][j..j + width];
    }
    if i >= width - 1 {
      assert prices[..i + 1][i - (width - 1)..i + 1] == prices[i - (width - 1)..i + 1];
    }
  }

  /** Moving averages of positive prices are positive. */
  lemma MovingAveragePositive(prices: seq<real>, width: nat)
    requires width > 0
    requires forall i :: 0 <= i < |prices| ==> prices[i] > 0.0
    ensures forall j :: 0 <= j < |MovingAverage(prices, width)| ==> MovingAverage(prices, width)[j] > 0.0
  {
    var ma := MovingAverage(prices, width);
    forall j | 0 <= j < |ma|
      ensures ma[j] > 0.0
    {
      var w := prices[j..j + width];
      assert forall k :: 0 <= k < |w| ==> w[k] == prices[j + k];
      SumOfPositivesPositive(w);
    }
  }

  /** The newest moving average is the mean of the last `width` prices. */
  lemma LatestMovingAverage(prices: seq<real>, width: nat)
    requires 0 < width <= |prices|
    ensures MovingAverage(prices, width)[|prices| - width] == Mean(Last(prices, width))
  {
    var j := |prices| - width;
    assert prices[j..j + width] == Last(prices, width);
  }

  // ---------------------------------------------------------------------
  // Market-cap cache

  /** Append, then drop the oldest value once the cache exceeds its size. */
  function Push(cache: seq<real>, x: real): (r: seq<real>)
  {
    var grown := cache + [x];
    if |grown| > MaxHistorySize then grown[1..] else grown
  }

  /** The last `min(30, len)` values of a stream. */
  function Recent(stream: seq<real>): (r: seq<real>)
    ensures |r| <= MaxHistorySize
  {
    if |stream| > MaxHistorySize then stream[|stream| - MaxHistorySize..] else stream
  }

  /** Pushing each value of a stream in turn onto an empty cache. */
  function Replay(stream: seq<real>): (r: seq<real>)
  {
    if stream == [] then [] else Push(Replay(stream[..|stream| - 1]), stream[|stream| - 1])
  }

  lemma PushRecent(stream: seq<real>, x: real)
    ensures Push(Recent(stream), x) == Recent(stream + [x])
  {
    var s := stream + [x];
    if |stream| > MaxHistorySize {
      assert Recent(stream) + [x] == s[|stream| - MaxHistorySize..];
      assert s[|stream| - MaxHistorySize..][1..] == s[|s| - MaxHistorySize..];
    } else if |stream| == MaxHistorySize {
      assert (stream + [x])[1..] == s[|s| - MaxHistorySize..];
    }
  }

  /** Whatever the values fed in, the cache holds exactly the newest
      thirty of them, oldest first. */
  lemma {:induction false} ReplayIsRecent(stream: seq<real>)
    ensures Replay(stream) == Recent(stream)
  {
    if stream != [] {
      var init := stream[..|stream| - 1];
      ReplayIsRecent(init);
      PushRecent(init, stream[|stream| - 1]);
      assert init + [stream[|stream| - 1]] == stream;
    }
  }
}
