# bullbear-dashboard state machine, in Dafny

This project models the market-regime state machine of the bullbear
dashboard backend and proves properties of it. One evaluation reads:

- the BTC price and its MA50/MA200;
- the total and stablecoin market caps;
- up to 220 daily closing prices;
- optional 30-day market-cap histories from an external provider;
- the spot-ETF flow table.

From these it derives four readings:

- a trend direction (price against the MA200, plus the slopes of both moving averages);
- a funding behaviour (stablecoin and total market-cap slopes, or the stablecoin share when no slope is available);
- a risk thermometer (drawdown below the all-time high);
- an ETF accelerator (tailwind, headwind, blunted or unknown).

It combines the trend and funding readings into one of four market states, a
risk level and a confidence score, and returns a `StateResult` that
serialises to a dictionary. The engine keeps a cache of the last thirty
(stablecoin, total) market-cap pairs between evaluations.

Slopes are least-squares regressions on the natural logarithm of a series,
in percent per day. The moving-average slopes read the last ten values. The
market-cap slopes read the last `min(10, len)` values of a history that holds
at least seven (ten for the external histories reported in the metadata).
When some of those values are not positive, only the positive ones are
regressed.

Modules, one per concern of the engine:

- `Series`: sums, means, counts and suffixes of real sequences.
- `Slope`: `_calculate_slope`. It proves:
  - invariance under scaling the series;
  - the exact slope of a log-linear or geometric series;
  - independence from values before the window.
- `History`: the moving-average loop and the bounded cache.
- `Types`: the enums, the result records, `to_dict`, and a reader that inverts `to_dict`.
- `Trend`, `Funding`, `Thermometer`, `Etf`, `Mapping`, `Confidence`: the engine's rules.
- `Text`, `Farside`: the flow-table parser (cell parsing, AUM parsing, the statistics-row filter, latest flow and history).
- `Engine`: `evaluate` as a function (`Evaluation`), and the engine object (`StateMachine`) whose `Evaluate` method updates the cache and is proved to return `Evaluation`.

`math.log` and `float(str)` are parameters:

- `log: real -> real`. Lemmas about slopes assume only the product law `log(a*b) == log(a) + log(b)` for positive arguments (`Slope.LogLaw`).
- `parseFloat: string -> Option<real>`, None where Python raises `ValueError`.

Provider answers are arguments of the operations.

## Model

| member | source | states |
|---|---|---|
| `Series.CountPositive` | backend/bullbear_backend/state_machine/engine.py:587 | the number of positive days never exceeds the number of days |
| `Series.CountNegative` | backend/bullbear_backend/state_machine/engine.py:588 | the number of negative days never exceeds the number of days |
| `Series.SumOfPositivesPositive` | backend/bullbear_backend/state_machine/engine.py:600-604 | a non-empty week of inflows has a positive sum |
| `Series.SumOfNegativesNegative` | backend/bullbear_backend/state_machine/engine.py:610-614 | a non-empty week of outflows has a negative sum |
| `Slope.Positives` | backend/bullbear_backend/state_machine/engine.py:277 | the result holds exactly the input's positive values, as many as the input has (`CountPositive`), and is the input itself when every value is positive; `PositivesAppend` fixes their order |
| `Slope.PositivesAppend` | backend/bullbear_backend/state_machine/engine.py:277 | the filter keeps input order: filtering a concatenation concatenates the filtered parts |
| `Slope.PositivesSingle` | backend/bullbear_backend/state_machine/engine.py:277 | one value is kept exactly when it is positive |
| `Slope.Window` | backend/bullbear_backend/state_machine/engine.py:274-283 | the regression reads at most `periods` values, all positive; with no non-positive value it is exactly the last `periods` values, otherwise it is the order-preserving filter `Positives` of them |
| `Slope.CalculateSlope` | backend/bullbear_backend/state_machine/engine.py:247-314 | 0 when fewer than `periods` values exist or fewer than two positive ones remain |
| `Slope.DenominatorZeroIffSinglePoint` | backend/bullbear_backend/state_machine/engine.py:299-303 | the regression denominator is zero exactly for a one-point window, so the `denominator == 0` guard only fires there |
| `Slope.ScaleInvariance` | backend/bullbear_backend/state_machine/engine.py:286-314 | multiplying every value by a positive constant leaves the slope unchanged (the slope is a relative rate) |
| `Slope.LinearLogSlope` | backend/bullbear_backend/state_machine/engine.py:292-314 | when the logs of the window lie on a line a + b*i, the slope is exactly 100*b |
| `Slope.LineLogSlope` | backend/bullbear_backend/state_machine/engine.py:292-314 | the same for a line built by repeated addition of b |
| `Slope.ConstantSeriesSlopeZero` | backend/bullbear_backend/state_machine/engine.py:247-314 | a constant series has slope 0 |
| `Slope.SlopeOfSuffix` | backend/bullbear_backend/state_machine/engine.py:270-274 | values before the last `periods` never influence the slope |
| `Slope.GeometricSlope` | backend/bullbear_backend/state_machine/engine.py:270-314 | a series growing by a factor r per day has slope exactly 100*log(r), whatever precedes it |
| `History.MovingAverage` | backend/bullbear_backend/state_machine/engine.py:187-194 | one entry per full window, entry j the mean of prices j to j+width-1 |
| `History.MovingAverages` | backend/bullbear_backend/state_machine/engine.py:187-194 | the single loop over closing prices yields exactly the MA50 and MA200 series |
| `History.MovingAverageStep` | backend/bullbear_backend/state_machine/engine.py:190-194 | one more price appends the window ending at it, once the window is full |
| `History.MovingAveragePositive` | backend/bullbear_backend/state_machine/engine.py:187-194 | positive prices give positive moving averages, so the slope filter never drops one |
| `History.LatestMovingAverage` | backend/bullbear_backend/state_machine/engine.py:191-192 | the newest moving average is the mean of the last `width` prices |
| `History.Recent` | backend/bullbear_backend/state_machine/engine.py:34 | the cache never holds more than thirty values |
| `History.PushRecent` | backend/bullbear_backend/state_machine/engine.py:238-245 | pushing onto the newest thirty values of a stream gives the newest thirty of the longer stream |
| `History.ReplayIsRecent` | backend/bullbear_backend/state_machine/engine.py:227-245 | after any sequence of updates the cache holds exactly the newest thirty values, oldest first; applied to both lists, they stay in step |
| `Types.ParseTrend` | backend/bullbear_backend/state_machine/types.py:10-14 | a value string is read back only as the member with that value |
| `Types.ParseFunding` | backend/bullbear_backend/state_machine/types.py:17-21 | the same for funding behaviour |
| `Types.ParseState` | backend/bullbear_backend/state_machine/types.py:24-30 | the same for market states |
| `Types.EnumValuesRoundTrip` | backend/bullbear_backend/state_machine/types.py:10-30 | every enum member is recovered from its value string |
| `Types.EnumValuesInjective` | backend/bullbear_backend/state_machine/types.py:24-30 | distinct market states have distinct value strings |
| `Types.ToDict` | backend/bullbear_backend/state_machine/types.py:63-86 | the dictionary has the seven result keys in order, and the validation object has its twelve keys in order |
| `Types.ValidationFromDict` | backend/bullbear_backend/state_machine/types.py:71-84 | only a dictionary with exactly the twelve validation keys is accepted |
| `Types.FromDict` | backend/bullbear_backend/state_machine/types.py:63-86 | only a dictionary with exactly the seven result keys is accepted |
| `Types.ValidationRoundTrip` | backend/bullbear_backend/state_machine/types.py:71-84 | every validation field survives serialisation |
| `Types.ToDictRoundTrip` | backend/bullbear_backend/state_machine/types.py:63-86 | reading `to_dict` back gives the result, with absent metadata turned into empty metadata |
| `Types.ToDictInjective` | backend/bullbear_backend/state_machine/types.py:63-86 | two results serialise alike exactly when they differ at most in absent versus empty metadata |
| `Types.ConstructValidation` | backend/bullbear_backend/state_machine/types.py:33-48 | the constructor succeeds exactly when all twelve fields are passed; otherwise TypeError names exactly the fields left out |
| `Types.EngineValidationCallRaises` | backend/bullbear_backend/state_machine/engine.py:130-136 | the engine's five-keyword call raises TypeError for the seven missing fields |
| `Types.FullValidationCallConstructs` | backend/bullbear_backend/state_machine/types.py:33-48 | passing all twelve fields constructs the record |
| `Trend.MaSlope` | backend/bullbear_backend/state_machine/engine.py:342-358 | 0 below ten values, else the slope of the last ten values |
| `Trend.DetermineTrend` | backend/bullbear_backend/state_machine/engine.py:360-382 | bullish exactly when the price is above the MA200, across all four branches |
| `Trend.TrendWithSlope` | backend/bullbear_backend/state_machine/engine.py:316-382 | the direction is bullish exactly above the MA200, and the two slopes are those of the MA histories |
| `Trend.TrendIgnoresSlope` | backend/bullbear_backend/state_machine/engine.py:362-382 | the MA200 slope never changes the direction, and a price equal to the MA200 is bearish |
| `Trend.FlatHistoryFlatSlope` | backend/bullbear_backend/state_machine/engine.py:346-358 | a constant MA history has slope 0 |
| `Funding.StablecoinRatio` | backend/bullbear_backend/state_machine/engine.py:408 | the stablecoin share is non-negative for non-negative caps and a positive total |
| `Funding.HistorySlope` | backend/bullbear_backend/state_machine/engine.py:421-428 | a history shorter than the minimum gives slope 0 |
| `Funding.ExternalSlopes` | backend/bullbear_backend/state_machine/engine.py:418-428 | without external data both slopes are 0 |
| `Funding.FundingSlopes` | backend/bullbear_backend/state_machine/engine.py:414-435 | the cache replaces both slopes only when both external slopes are 0 and the cache holds a week of values |
| `Funding.FundingFromPattern` | backend/bullbear_backend/state_machine/engine.py:437-459 | of the four sign patterns, offensive exactly when the total-cap slope is positive |
| `Funding.Changes` | backend/bullbear_backend/state_machine/engine.py:461-474 | the stablecoin change and the share change are measured against the oldest external values, else the oldest cached pair, else both are 0; a non-positive first total makes the share change 0 |
| `Funding.DetermineFunding` | backend/bullbear_backend/state_machine/engine.py:384-492 | fails exactly on a zero total market cap; with a non-zero slope it is offensive exactly when the total slope is positive; otherwise offensive exactly when the share is below 8%, with the share's distance from 8% and the raw stablecoin cap as the changes; with a slope the changes are those of `Changes` |
| `Funding.MetadataSlopes` | backend/bullbear_backend/state_machine/engine.py:79-110 | each reported slope is the external one (ten values needed) when non-zero; otherwise it is the slope of its own cached history once that holds seven values, and 0 before |
| `Funding.MetadataSlopesWithoutExternal` | backend/bullbear_backend/state_machine/engine.py:79-110 | without external histories the reported slopes are the ones the funding rule decided on |
| `Funding.EstimatedIsScaled` | backend/bullbear_backend/data/providers/coingecko.py:163-169 | the estimated stablecoin history is the total history scaled by 0.08 |
| `Funding.EstimatedSlopesEqual` | backend/bullbear_backend/data/providers/coingecko.py:163-169 | estimated stablecoin and total histories always have equal slopes |
| `Funding.EstimatedHistoriesMoveTogether` | backend/bullbear_backend/state_machine/engine.py:437-459 | with estimated external data only "both up" and "both down" occur: funding is offensive exactly when the stablecoin slope is positive |
| `Thermometer.Ath` | backend/bullbear_backend/state_machine/engine.py:517-523 | the all-time high is at least the price and every closing price, and is one of them |
| `Thermometer.TierRank` | backend/bullbear_backend/state_machine/engine.py:536-544 | tiers break at 20, 35 and 60 percent, lower bound inclusive |
| `Thermometer.RiskThermometer` | backend/bullbear_backend/state_machine/engine.py:494-544 | drawdown is never negative and is (ATH - price) / ATH * 100 whenever the ATH is positive and above the price; the tier is the one for that drawdown |
| `Thermometer.TierMonotone` | backend/bullbear_backend/state_machine/engine.py:536-544 | a deeper drawdown never reads as a milder tier |
| `Thermometer.AtHighNoDrawdown` | backend/bullbear_backend/state_machine/engine.py:530-534 | a price at or above every closing price reads as no drawdown, normal tier |
| `Thermometer.TwentyPercentIsLowFever` | backend/bullbear_backend/state_machine/engine.py:536-540 | a fall from 100 to 80 is a 20% drawdown in the first fever tier |
| `Etf.SingleDayStatus` | backend/bullbear_backend/state_machine/engine.py:573-583 | blunted exactly within 10 million dollars of zero, tailwind exactly at or above it, headwind exactly at or below minus it |
| `Etf.TrendStatus` | backend/bullbear_backend/state_machine/engine.py:585-646 | never unknown; a sustained run of inflows with a positive last-week sum gives tailwind, and its mirror headwind; under two weeks only the ±10M band on the average flow and the current flow's sign decide; a tailwind against a non-positive flow, or a headwind against a positive one, needs a sustained run |
| `Etf.EtfAccelerator` | backend/bullbear_backend/state_machine/engine.py:546-652 | unknown exactly when the fetch failed or no net flow exists; the flow and AUM pass through; under a week of history the single-day rule decides, and from a week on the history decision tree `TrendStatus` |
| `Etf.SustainedNeedsTwoWeeks` | backend/bullbear_backend/state_machine/engine.py:599-615 | a sustained run never fires on fewer than fourteen days |
| `Etf.AllOrSumIsSum` | backend/bullbear_backend/state_machine/engine.py:602-614 | "all positive or positive sum" over the last week is the positive-sum test alone (likewise for negatives) |
| `Etf.TrendStatusIsSimplified` | backend/bullbear_backend/state_machine/engine.py:585-646 | the decision tree equals a simpler one: the last week judged by its sum alone, the sustained rules only from fourteen days, easing outflows without the `second_avg > first_avg` clause, then the flat band, then the current flow's sign |
| `Etf.DecelerationMiddleClauseRedundant` | backend/bullbear_backend/state_machine/engine.py:629 | `second_avg > first_avg` follows from the other two conditions |
| `Etf.ZeroFlowTiebreakIsHeadwind` | backend/bullbear_backend/state_machine/engine.py:635-644 | with mixed signals and a large average flow, a zero current flow reads as headwind |
| `Mapping.MapToState` | backend/bullbear_backend/state_machine/engine.py:654-665 | the state is a bull state exactly for a bullish trend and an offensive state exactly for offensive funding |
| `Mapping.MapToStateBijective` | backend/bullbear_backend/state_machine/engine.py:654-665 | the state table is a bijection between (trend, funding) pairs and states |
| `Mapping.MapToStateInjective` | backend/bullbear_backend/state_machine/engine.py:654-665 | different pairs map to different states |
| `Mapping.RiskLevel` | backend/bullbear_backend/state_machine/engine.py:667-675 | HIGH exactly for bull offensive, LOW exactly for bear defensive, MEDIUM exactly for the other two |
| `Confidence.SlopeConfidence` | backend/bullbear_backend/state_machine/engine.py:695-699 | in [0, 1], and 1 exactly when the mean absolute slope reaches 0.5% per day |
| `Confidence.ArrangementClarity` | backend/bullbear_backend/state_machine/engine.py:693 | non-negative, and 0 when the MA200 is not positive |
| `Confidence.TrendConfidence` | backend/bullbear_backend/state_machine/engine.py:701 | in [0, 1] |
| `Confidence.FundingConfidence` | backend/bullbear_backend/state_machine/engine.py:703-705 | in [0, 1], and 1 exactly when the share is at least 8 points from its threshold |
| `Confidence.Confidence` | backend/bullbear_backend/state_machine/engine.py:677-707 | in [0, 1] |
| `Confidence.ConfidenceMonotoneInFunding` | backend/bullbear_backend/state_machine/engine.py:703-707 | a stronger funding signal never lowers the score |
| `Confidence.FullConfidence` | backend/bullbear_backend/state_machine/engine.py:701-707 | full confidence exactly when the trend confidence is full and the share is 8 points from its threshold |
| `Text.Without` | backend/bullbear_backend/data/providers/farside.py:111 | no removed character remains, and the string never grows |
| `Text.WithoutAppend` | backend/bullbear_backend/data/providers/farside.py:111 | removing characters distributes over concatenation |
| `Text.StripStart` | backend/bullbear_backend/data/providers/farside.py:111 | the result is a suffix that starts with a non-space, and only spaces were dropped |
| `Text.StripEnd` | backend/bullbear_backend/data/providers/farside.py:111 | the result is a prefix that ends with a non-space, and only spaces were dropped |
| `Farside.ParseValue` | backend/bullbear_backend/data/providers/farside.py:98-123 | missing, NaN and non-string objects give None; numbers pass through unchanged |
| `Farside.ParsePlain` | backend/bullbear_backend/data/providers/farside.py:110-119 | a plain numeral parses as `float` of itself |
| `Farside.ParseParenthesised` | backend/bullbear_backend/data/providers/farside.py:113-119 | "(d)" parses as minus d |
| `Farside.ParseMinus` | backend/bullbear_backend/data/providers/farside.py:113-119 | "-d" parses as minus d |
| `Farside.ParseIgnoresFormatting` | backend/bullbear_backend/data/providers/farside.py:111 | a string parses like the string with its formatting characters removed |
| `Farside.ParseCurrency` | backend/bullbear_backend/data/providers/farside.py:111-119 | "$a,b" parses as the numeral ab |
| `Farside.AumFromCleaned` | backend/bullbear_backend/data/providers/farside.py:248-261 | an accepted AUM lies between a billion and a trillion dollars |
| `Farside.ParseAum` | backend/bullbear_backend/data/providers/farside.py:232-265 | missing, NaN and other objects give None; numbers pass through unchecked; accepted strings lie between a billion and a trillion |
| `Farside.AumBillions` | backend/bullbear_backend/data/providers/farside.py:250-261 | "dB" is d billion dollars when that lies in range |
| `Farside.AumMillions` | backend/bullbear_backend/data/providers/farside.py:250-261 | "dM" is d million dollars when that lies in range |
| `Farside.AumSuffixCase` | backend/bullbear_backend/data/providers/farside.py:246 | the unit letter is case-insensitive |
| `Farside.AumOutOfRange` | backend/bullbear_backend/data/providers/farside.py:257-261 | a bare number below a billion is rejected |
| `Farside.ToDollars` | backend/bullbear_backend/data/providers/farside.py:215-216 | values under ten thousand in magnitude are millions of dollars; larger ones are dollars already; a value read as millions always passes the ten-billion range check |
| `Farside.RowFlow` | backend/bullbear_backend/data/providers/farside.py:185-220 | a row contributes only with a date, outside the statistics rows and with a parsed Total, and its flow is that value in dollars within ten billion either way; conversely every such row contributes exactly that flow |
| `Farside.ValidRecords` | backend/bullbear_backend/data/providers/farside.py:376-406 | never more records than rows, every flow within ten billion dollars either way |
| `Farside.ValidRecordsAppend` | backend/bullbear_backend/data/providers/farside.py:377-406 | filtering rows distributes over concatenation |
| `Farside.TruncateKeepsNewest` | backend/bullbear_backend/data/providers/farside.py:415 | for days >= 1 exactly the newest min(days, len) records are kept in order; days == 0 keeps all |
| `Farside.LatestNetFlow` | backend/bullbear_backend/data/providers/farside.py:185-226 | the backward scan returns the flow of the last row that passes the filter, None when none does |
| `Farside.NetFlowHistory` | backend/bullbear_backend/data/providers/farside.py:376-415 | the forward loop collects every passing row in order, None when none does, then keeps the newest `days` |
| `Farside.LatestIsNewestOfHistory` | backend/bullbear_backend/data/providers/farside.py:125-226 | the latest flow exists exactly when a history does, and is the newest history entry |
| `Farside.TotalRowDropped` | backend/bullbear_backend/data/providers/farside.py:198-200 | a row dated "Total" is never a data point |
| `Engine.CorrectedValidation` | backend/bullbear_backend/state_machine/engine.py:130-136 | the validation block carries the thermometer and ETF readings, and the seven fields the engine does not compute are None |
| `Engine.Metadata` | backend/bullbear_backend/state_machine/engine.py:152-166 | the metadata has the thirteen keys of the source, in order |
| `Engine.Evaluation` | backend/bullbear_backend/state_machine/engine.py:47-167 | fails exactly on a zero total cap. On success: the state maps the trend and funding; the trend is bullish exactly above the MA200; the funding is the funding rule's; the risk level is the state's; the confidence is in [0, 1] and is the confidence score of the two MAs, their slopes and the funding rule's share change; the validation block carries the thermometer and ETF readings; the metadata has its thirteen keys |
| `Engine.StateMachine.constructor` | backend/bullbear_backend/state_machine/engine.py:31-33 | both caches start empty |
| `Engine.StateMachine.UpdateMarketCapHistory` | backend/bullbear_backend/state_machine/engine.py:227-245 | both caches grow by the current value and drop their oldest beyond thirty, keeping equal lengths |
| `Engine.StateMachine.Evaluate` | backend/bullbear_backend/state_machine/engine.py:47-167 | updates the cache first, even when the evaluation then fails, and returns `Evaluation` over the updated cache |
| `Engine.EvaluationSerialises` | backend/bullbear_backend/state_machine/types.py:63-86 | a successful result serialises and reads back unchanged |
| `Engine.CorrectedValidationComplete` | backend/bullbear_backend/state_machine/engine.py:130-136 | the corrected call passes every required field, a strict superset of the engine's keywords |
| `Engine.Ma200SlopeWarmUp` | backend/bullbear_backend/state_machine/engine.py:178-194 | the MA200 slope stays 0 below 209 closing prices and the MA50 slope below 59 |
| `Engine.FetchEtfFeed` | backend/bullbear_backend/data/providers/farside.py:424-433 | the feed is the latest flow, the AUM and the 30-day history, with at most thirty history entries |
| `Engine.EtfFeedConsistent` | backend/bullbear_backend/state_machine/engine.py:562-573 | the feed has a history exactly when it has a latest flow, and the newest entry is that flow |
| `Engine.EtfUnknownIffNoRow` | backend/bullbear_backend/state_machine/engine.py:562-568 | the accelerator reads unknown exactly when the table has no usable row |
| `Engine.EtfShortTableSingleDay` | backend/bullbear_backend/state_machine/engine.py:573-583 | a table with under a week of usable rows is judged on its latest flow alone |

## Left out

- Network and I/O: fetching the current snapshot, the candles, the external market-cap histories and the flow page. Their answers are arguments: `Snapshot`, `Option<seq<real>>`, `Option<MarketCapHistory>`, a table of rows.
- Locating the flow table among the page's tables and finding its Date and Total columns: a table is given as its (date, Total) rows, or None when none was found.
- The AUM fetch through the market-data library: the AUM reaches `FetchEtfFeed` as an argument.
- Logging: no effect on results.
- The two page reads behind one accelerator call are modelled as reading the same table. A page that changes between the reads is not modelled.
- Exceptions other than the zero total market cap: a failed ETF fetch is a None feed, and failed candle or history fetches are empty or None inputs.
- Floating point: arithmetic is on reals. Rounding, overflow, infinities and NaN arithmetic are not modelled. `math.log` is a parameter, constrained only by the product law where a lemma needs it.
- `Slope.CalculateSlope`: requires `periods >= 1`. Every caller passes 10 or min(10, len) with len at least 7. The `periods == 0` behaviour of Python slicing is not modelled.
- `Text.Lower` and `Text.Upper` fold ASCII letters only. `Text.IsSpace` covers the characters Python's `str.isspace` accepts in the Basic Latin, Latin-1 and General Punctuation ranges, plus U+1680 and U+3000.
- `Farside.ParseValue` and `Farside.ParseAum`: booleans are not a separate case; Python treats them as the numbers 0 and 1, and `Number` covers that.
- The engine's two market-cap lists are shared by every engine object, as class attributes. The model keeps them as fields of one `StateMachine` object, so sharing between objects and concurrent evaluations are not modelled.
- `Types.ConstructValidation`: models the set of missing argument names that the TypeError reports, not the order or wording of its message.
- `Farside.TruncateKeepsNewest`: states the result only for `days >= 0`. `Truncate` itself follows Python slicing for negative counts too.
- `Engine.Evaluation` builds the validation block with `Engine.CorrectedValidation`, the intended twelve-field call. It does not reproduce the TypeError that the five-argument call at engine.py lines 130-136 raises (see Findings).
- The stablecoin share (`stablecoin_market_cap / total_market_cap`, engine.py lines 143 and 408) has no zero guard on the total market cap. The code divides, so a zero total is modelled as a failed evaluation (`EvalError.ZeroDivision`), not as a defensive reading. The slopes themselves never divide by the total.

## Findings

| source | as written | input that shows it | evidently intended | confidence | as-written member | corrected member |
|---|---|---|---|---|---|---|
| backend/bullbear_backend/state_machine/engine.py:130-136 | `ValidationLayer(...)` is called with five keyword arguments, but the dataclass at types.py:33-48 declares twelve fields and none has a default | any call of `evaluate` that reaches line 130, that is, every evaluation with a non-zero total market cap | build the validation block with the seven newer fields (`ath_price`, the four ETF flow statistics, both trend strings) set to None | not executed | `Types.EngineValidationCallRaises` | `Engine.CorrectedValidation` |
