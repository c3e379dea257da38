# Simple stock screener: analysis engine, in Dafny

This project models the deterministic core of the simple stock screener. That
core is everything that happens to the data after it has been fetched:

- **Technical analysis.** The price series feeds the rolling sum, mean and
  standard deviation, the EMA, ADX, ATR, Bollinger bands and RSI. These
  produce four strategy signals (trend following, mean reversion, momentum,
  volatility), and a weighted combiner merges them into one bullish, bearish
  or neutral verdict with a confidence.
- **Fundamental analysis.** Four threshold scorers (profitability, growth,
  financial health, price ratios) each cast a vote, and a majority vote gives
  the verdict.
- **Sentiment analysis.** Insider trades and news articles become votes
  weighted 0.3 and 0.7.
- **Valuation analysis.** An owner-earnings value and a DCF value are compared
  with the market capitalisation, and the gaps decide the signal.
- **Smaller pure parts:**
  - the stock table's text and number filters;
  - the screener metrics computed for a ticker, and the choice of its current
    and previous periods;
  - the parsers for the NASDAQ and NYSE symbol directories, and the
    intersection with the data provider's tickers;
  - the splitter that separates an AI reply's `<think>` reasoning from its
    content.

The engine exists twice in the repository:

- the live version under `src/features/stock-analysis/`;
- an older copy under `src/features/ai-analysis/`.

Both are modelled. They share the numeric primitives (modules `Rolling`,
`Indicators`, `Combination`, `Valuation`, `Sentiment`). The places where the
older copy behaves differently are separate functions, and each has a lemma
comparing it with the live version (modules `TechnicalsLegacy`,
`FundamentalsLegacy`, `ValuationLegacy`). The two sentiment files compute
exactly the same thing, so they share one module.

JavaScript numbers are the datatype `JsNumber.Num`: `NaN`, a finite real, or
one of the two infinities. Every comparison involving `NaN` is false, and
division by zero gives an infinity or `NaN`, as in JavaScript. `Math.sqrt` is
an abstract function that is non-negative and maps 0 to 0. `Math.round(x)` is
`Floor(x + 1/2)`. A value read from a metrics snapshot can be `undefined`,
`null` or a number (`FinancialData.Field`), because the source's `&&`, `??`,
`||` and comparisons treat these cases differently.

The loops of the source are methods with loop invariants. Each one is proved
equal to a specification function, and the properties the source promises
are lemmas about those functions. Examples:

- the rolling-window loops keep a queue and a running sum;
- RSI keeps two queues;
- the ADX loops;
- the combiner's accumulation;
- the older fundamentals analyzer pushing votes into an array.

Several behaviours of the source appear as proved facts:

- **Live volatility signal is always neutral.** In the live version, the
  63-day mean of the historical volatility is `NaN` at every position. The
  volatility series starts with `NaN`, and a `NaN` never leaves a running sum.
  So that signal is always neutral with confidence 0.5
  (`Technicals.VolatilityAlwaysNeutral`).
- **Older volatility signal can never be bullish.** The older copy replaces
  that `NaN` with 1 through `||`. Its volatility signal can therefore never be
  bullish, and it is bearish exactly when the last historical volatility
  exceeds 2 (`TechnicalsLegacy.LegacyVolatilityDecision`).
- **Text filter ignores the user's text.** It looks for `"[object Object]"`,
  because it turns the whole filter object into a string
  (`Filters.TextFilterMeaning`).

## Model

| member | source | states |
|---|---|---|
| Rolling.PctChange | src/features/stock-analysis/technicals.ts:435-442 | the loop returns the daily-change series: one entry per price (one for no prices), starting with 0 |
| Rolling.PctChangeMeaning | src/features/stock-analysis/technicals.ts:437-440 | an entry after a zero price is 0; otherwise it is the relative change, so the price equals the previous price times (1 + change) |
| Rolling.RunningSumWindow | src/features/stock-analysis/technicals.ts:515-521 | with finite inputs, the running sum after k values is exactly the sum of the last `window` of them (the queue's contents) |
| Rolling.RunningSumNaN | src/features/stock-analysis/technicals.ts:516-520 | once a NaN has been added, the running sum stays NaN for good, because subtracting values later cannot remove it |
| Rolling.RollingSum | src/features/stock-analysis/technicals.ts:511-529 | the queue-and-running-sum loop returns the rolling-sum series |
| Rolling.RollingSumFinite | src/features/stock-analysis/technicals.ts:522-526 | from position window-1 on, each entry is the sum of values[i-window+1..i] |
| Rolling.RollingSumNaN | src/features/ai-analysis/technicals.ts:417-434 | there is one NaN per warm-up position (i < window-1), and a NaN input makes every later entry NaN |
| Rolling.RollingMean | src/features/stock-analysis/technicals.ts:451-469 | the loop returns the rolling-mean series |
| Rolling.RollingMeanFinite | src/features/stock-analysis/technicals.ts:462-466 | from position window-1 on, each entry is the window's sum divided by the window size |
| Rolling.RollingMeanNaN | src/features/ai-analysis/technicals.ts:367-384 | warm-up entries are NaN, and a NaN input poisons every later mean |
| Rolling.RollingStd | src/features/stock-analysis/technicals.ts:478-502 | the loop with running sum and running sum of squares returns the rolling-std series |
| Rolling.StdFromSums | src/features/stock-analysis/technicals.ts:496-498 | a window's deviation is never NaN and never negative; a NaN sum gives 0, because `NaN >= 0` is false and the variance is replaced by 0 |
| Rolling.StdOfFiniteSums | src/features/stock-analysis/technicals.ts:496-498 | with finite sums and a non-negative shortcut variance, the deviation is the square root of that variance |
| Rolling.RollingStdFinite | src/features/stock-analysis/technicals.ts:483-499 | with finite inputs, from position window-1 on, each entry is the population standard deviation of the last `window` values |
| Rolling.RollingStdNaN | src/features/ai-analysis/technicals.ts:389-412 | warm-up entries are NaN; later entries are never NaN and never negative, and are 0 once a NaN input has been seen |
| Variance.ShortcutVariance | src/features/stock-analysis/technicals.ts:496-497 | the shortcut sumSquared/n - mean² equals the population variance of the window, which is non-negative |
| Rolling.CalculateEma | src/features/stock-analysis/technicals.ts:538-552 | the loop returns the EMA series: one entry per value, the first value itself, then alpha·v + (1-alpha)·previous |
| Rolling.EmaAlphaRange | src/features/stock-analysis/technicals.ts:541 | for a span of at least 1, the factor 2/(span+1) lies in (0, 1] |
| Rolling.EmaWithin | src/features/stock-analysis/technicals.ts:542-549 | every EMA value lies between the smallest and the largest input |
| Rolling.EmaNonNegative | src/features/ai-analysis/technicals.ts:439-452 | the EMA of non-negative values is non-negative |
| Rolling.EmaConstant | src/features/stock-analysis/technicals.ts:544-548 | a constant series has that constant as its EMA everywhere |
| Rolling.ArrayMean | src/features/stock-analysis/technicals.ts:755-764 | the loop returns the mean of the list, and 0 for an empty list |
| Rolling.MeanNonNegative | src/features/ai-analysis/technicals.ts:604-613 | the mean of non-negative values is non-negative |
| Rolling.MeanZero | src/features/stock-analysis/technicals.ts:759-763 | the mean of non-negative values is 0 exactly when every value is 0 |
| Indicators.DirectionalMovement | src/features/stock-analysis/technicals.ts:576-610 | the first ADX loop returns the true-range, +DM and -DM series |
| Indicators.TrueRangeIsLargestRange | src/features/stock-analysis/technicals.ts:580-596 | the true range is 0 at bar 0 and never negative; elsewhere it is the largest of high-low, \|high-prevClose\| and \|low-prevClose\| |
| Indicators.DirectionalMovementExclusive | src/features/stock-analysis/technicals.ts:598-609 | +DM and -DM are non-negative and never both positive; each is positive exactly when its move is the larger one and positive |
| Indicators.DirectionalIndicators | src/features/stock-analysis/technicals.ts:616-636 | the second ADX loop returns DI+, DI- and DX position by position, all 0 where the smoothed true range is 0 |
| Indicators.DirectionalBounds | src/features/stock-analysis/technicals.ts:625-634 | with non-negative smoothed inputs, DI+ and DI- are non-negative, DX lies in [0, 100], and DX is 0 exactly when DI+ equals DI- |
| Indicators.CalculateAdx | src/features/stock-analysis/technicals.ts:563-644 | the whole ADX computation returns the EMA of DX, together with DI+ and DI- |
| Indicators.AdxBounds | src/features/stock-analysis/technicals.ts:638 | for a period of at least 1, the ADX has one entry per bar and each entry lies in [0, 100] |
| Indicators.CalculateAtr | src/features/stock-analysis/technicals.ts:653-676 | the loop returns the rolling mean of the true range |
| Indicators.AtrMeaning | src/features/stock-analysis/technicals.ts:661-675 | the ATR is NaN during warm-up; afterwards it is the mean true range of the window, which is non-negative |
| Indicators.CalculateBollingerBands | src/features/stock-analysis/technicals.ts:685-705 | the loop returns the upper and lower band series |
| Indicators.BollingerBandsMeaning | src/features/stock-analysis/technicals.ts:689-703 | both bands are NaN during warm-up; afterwards they are mean ± 2·std of the window with std ≥ 0, so upper ≥ lower |
| Indicators.CalculateRsi | src/features/stock-analysis/technicals.ts:714-747 | the loop returns the RSI series; its two queues hold the last `period` gains and losses, never more than `period` entries |
| Indicators.RsiStep | src/features/stock-analysis/technicals.ts:726-744 | one step of the loop: the queues become the last `period` gains and losses up to this close, and the pushed value is the RSI at this position |
| Indicators.RsiFromQueues | src/features/stock-analysis/technicals.ts:737-744 | the value pushed is 100 when the mean loss is 0, otherwise 100 - 100/(1 + mean gain / mean loss) |
| Indicators.RsiRange | src/features/stock-analysis/technicals.ts:721-744 | RSI is NaN at position 0 and finite in [0, 100] afterwards; it is exactly 100 when no close in the window fell |
| Indicators.RsiAtRange | src/features/ai-analysis/technicals.ts:571-602 | the same facts at one position, for the RSI shared with the older copy |
| Indicators.RsiFormulaRange | src/features/stock-analysis/technicals.ts:742-743 | with a positive average loss, 100 - 100/(1+RS) is finite and lies in [0, 100) |
| Indicators.NoLossMeansNoFall | src/features/stock-analysis/technicals.ts:728-730 | the losses in a range are all 0 exactly when no close in that range is lower than its predecessor |
| Combination.WeightedSignalCombination | src/features/stock-analysis/technicals.ts:372-417 | the accumulation loop returns the combined signal and confidence |
| Combination.WeightedSumBounded | src/features/stock-analysis/technicals.ts:395-402 | with non-negative weights and confidences, the weighted sum lies between ± the total confidence |
| Combination.FinalScoreBounded | src/features/stock-analysis/technicals.ts:404-416 | the final score lies in [-1, 1], so the combined confidence lies in [0, 1] |
| Combination.CombinedThresholds | src/features/stock-analysis/technicals.ts:404-414 | bullish exactly when the total is positive and the sum exceeds 0.2·total; bearish exactly when the sum is below -0.2·total; a non-positive total gives neutral with 0 |
| Combination.Unanimous | src/features/ai-analysis/technicals.ts:296-341 | strategies that all agree, with some confidence, give their signal with confidence 1 (0 for neutral) |
| Signals.PercentRange | src/features/stock-analysis/technicals.ts:87 | a confidence in [0, 1] reports as a whole percentage in [0, 100]; 0 gives 0 and 1 gives 100 |
| Signals.PercentMonotone | src/features/ai-analysis/technicals.ts:63 | a higher confidence never reports a lower percentage |
| FinancialData.ToNumber | src/features/stock-analysis/fundamentals.ts:87-89 | a snapshot field as a number: NaN exactly when undefined, truthy exactly when a non-zero number |
| Technicals.CapAtOne | src/features/stock-analysis/technicals.ts:215 | `Math.min(x, 1.0)` of a non-negative x is a real in [0, 1] |
| Technicals.TrendRule | src/features/stock-analysis/technicals.ts:137-158 | bullish exactly when ema8 > ema21 > ema55, bearish exactly when neither comparison holds; otherwise neutral with 0.5; confidence adx/100 |
| Technicals.TrendConfidenceRange | src/features/stock-analysis/technicals.ts:139 | the trend confidence always lies in [0, 1] |
| Technicals.FlatSeriesTrend | src/features/stock-analysis/technicals.ts:143-149 | a flat close series gives trend "bearish", not neutral; with flat bars the confidence is 0 |
| Technicals.FlatAdx | src/features/stock-analysis/technicals.ts:619-623 | flat bars have an ADX of 0 everywhere |
| Technicals.ZScores | src/features/stock-analysis/technicals.ts:182-190 | the loop returns the z-score series |
| Technicals.ZScoreMeaning | src/features/ai-analysis/technicals.ts:145-148 | a NaN deviation gives a NaN z; a deviation of exactly 0 gives 0; otherwise mean + z·std equals the close |
| Technicals.MeanReversionRule | src/features/stock-analysis/technicals.ts:211-230 | bullish exactly when z < -2 and priceVsBb < 0.2, bearish exactly when z > 2 and priceVsBb > 0.8; confidence min(\|z\|/4, 1), else 0.5 |
| Technicals.MeanReversionWarmup | src/features/stock-analysis/technicals.ts:177-219 | with fewer than 50 bars, mean reversion is neutral with 0.5 |
| Technicals.MomentumRule | src/features/stock-analysis/technicals.ts:271-292 | bullish or bearish exactly when the score passes ±0.05 and volume momentum exceeds 1; confidence min(\|score\|·5, 1), else 0.5 |
| Technicals.MomentumScore | src/features/stock-analysis/technicals.ts:266-269 | a NaN momentum makes the weighted score NaN, because `??` does not replace NaN |
| Technicals.MomentumWarmup | src/features/stock-analysis/technicals.ts:254-281 | with fewer than 126 bars, momentum is neutral with 0.5 |
| Technicals.VolatilityRule | src/features/stock-analysis/technicals.ts:339-362 | bullish exactly when regime < 0.8 and z < -1, bearish exactly when regime > 1.2 and z > 1; confidence min(\|z\|/3, 1), else 0.5 |
| Technicals.VolatilityMeanAlwaysNaN | src/features/stock-analysis/technicals.ts:312-319 | the 63-day mean of the historical volatility is NaN at every position |
| Technicals.VolatilityAlwaysNeutral | src/features/stock-analysis/technicals.ts:319-351 | the live volatility signal is always neutral with 0.5, and its regime metric is NaN |
| Technicals.ReportInRange | src/features/stock-analysis/technicals.ts:85-110 | with strategy confidences in [0, 1], every reported percentage lies in [0, 100] |
| Technicals.AnalyzeTechnicalsMeaning | src/features/stock-analysis/technicals.ts:52-110 | an error exactly for no prices ("No price data found"); otherwise every percentage lies in [0, 100] and volatility reports neutral 50 |
| TechnicalsLegacy.LegacyTrendAndMeanReversionAgree | src/features/ai-analysis/technicals.ts:102-189 | the older trend and mean-reversion signals equal the live ones for every non-empty price list |
| TechnicalsLegacy.LegacyVolumeMomentumMeaning | src/features/ai-analysis/technicals.ts:204-207 | where the 21-day volume mean is truthy the older volume momentum equals the live one; where the mean is falsy (warm-up, zero) it is the raw volume; during the 20-bar warm-up the live one is NaN |
| TechnicalsLegacy.LegacyMomentumMeaning | src/features/ai-analysis/technicals.ts:192-237 | when the last volume mean is truthy the older momentum signal equals the live one; with fewer than 126 bars it is neutral with 0.5 |
| TechnicalsLegacy.LegacyAtrRatioMeaning | src/features/ai-analysis/technicals.ts:263-267 | the ATR ratio equals the live one for a non-zero close; a zero close divides by 1 instead |
| TechnicalsLegacy.HistVolNonNegative | src/features/ai-analysis/technicals.ts:244-246 | the historical volatility starts with NaN and is otherwise NaN or non-negative |
| TechnicalsLegacy.LegacyVolatilitySeries | src/features/ai-analysis/technicals.ts:248-261 | because the 63-day mean is always NaN, `\|\| 1` makes the regime equal to the volatility itself and the z-score equal to volatility - 1 |
| TechnicalsLegacy.RuleOnVolatility | src/features/ai-analysis/technicals.ts:275-281 | on such a series, the rule is never bullish and is bearish exactly when the volatility exceeds 2 |
| TechnicalsLegacy.LegacyVolatilityDecision | src/features/ai-analysis/technicals.ts:240-293 | the older volatility signal is never bullish; it is bearish exactly when the last volatility exceeds 2, with confidence min(\|v-1\|/3, 1) |
| TechnicalsLegacy.AnalyzeTechnicalsLegacyMeaning | src/features/ai-analysis/technicals.ts:28-87 | an error exactly for no prices; otherwise percentages lie in [0, 100], trend and mean reversion equal the live report, and volatility is never bullish |
| Fundamentals.CountTrue | src/features/stock-analysis/fundamentals.ts:16-20 | the number of criteria that hold is at most their count, and is 0 exactly when none holds |
| Fundamentals.VoteOfThree | src/features/stock-analysis/fundamentals.ts:22-27 | of three criteria, at least two give bullish, none gives bearish, exactly one gives neutral |
| Fundamentals.Mentioned | src/features/stock-analysis/fundamentals.ts:33-42 | a metric's name is among the details exactly when its value is truthy |
| Fundamentals.MentionedAppend | src/features/stock-analysis/fundamentals.ts:33-42 | the filter keeps array order: the labels of a concatenation are the labels of each part in turn |
| Fundamentals.AnalyzeProfitability | src/features/stock-analysis/fundamentals.ts:15-45 | the vote over ROE > 0.15, net margin > 0.2 and operating margin > 0.15; the details are the names of the truthy ones of the three, in source order (ROE, Net Margin, Op Margin) |
| Fundamentals.AnalyzeGrowth | src/features/stock-analysis/fundamentals.ts:52-76 | the vote over the three growth rates > 0.1; the details are Revenue Growth then Earnings Growth, each present exactly when truthy; book-value growth is never mentioned |
| Fundamentals.CashFlowCoversMeaning | src/features/stock-analysis/fundamentals.ts:87-89 | the cash-flow criterion holds exactly when FCF/share and EPS are non-zero numbers and FCF/share > 0.8·EPS |
| Fundamentals.AnalyzeFinancialHealth | src/features/stock-analysis/fundamentals.ts:83-108 | the vote over current ratio > 1.5, D/E < 0.5 and cash-flow cover; the details are Current Ratio then D/E, each present exactly when truthy; cash flow is never mentioned |
| Fundamentals.AnalyzeValuation | src/features/stock-analysis/fundamentals.ts:115-145 | the vote over P/E > 25, P/B > 3, P/S > 5, where high multiples count toward bullish; the details are P/E, P/B, P/S in that order, each present exactly when truthy |
| Fundamentals.TallyCounts | src/features/stock-analysis/fundamentals.ts:196-202 | the fold's count for a signal is its initial count plus its occurrences |
| Fundamentals.CountValue | src/features/ai-analysis/fundamentals.ts:143-149 | reading a count gives NaN exactly when the signal never entered the record |
| Fundamentals.Majority | src/features/stock-analysis/fundamentals.ts:204-209 | bullish exactly when bullish > bearish, bearish exactly when bearish > bullish |
| Fundamentals.ReasoningEntries | src/features/stock-analysis/fundamentals.ts:188-193 | the reasoning has exactly the four `_signal` keys, each holding its scorer's analysis |
| Fundamentals.ZeroCountsAreOccurrences | src/features/stock-analysis/fundamentals.ts:201 | with the zero-initialised record, the counts are the numbers of occurrences |
| Fundamentals.MajorityOfFour | src/features/stock-analysis/fundamentals.ts:211-214 | out of four votes, confidence is 25 times the larger count: one of 0, 25, 50, 75, 100 |
| Fundamentals.ZeroVerdict | src/features/stock-analysis/fundamentals.ts:196-214 | for four votes, the majority decides, the confidence is in {0, 25, 50, 75, 100}, and a 2-2 tie is neutral with 50 |
| Fundamentals.AnalyzeFundamentalsMeaning | src/features/stock-analysis/fundamentals.ts:173-220 | an error exactly for no snapshot ("No financial metrics found"); otherwise the four reasoning entries carry the scorers' signals and the majority and confidence are as above |
| FundamentalsLegacy.RecordVotes | src/features/ai-analysis/fundamentals.ts:34-140 | the pushes leave the four signals in scorer order, and the reasoning entry k carries signals[k] |
| FundamentalsLegacy.AnalyzeFundamentalsLegacy | src/features/ai-analysis/fundamentals.ts:28-167 | an error for no snapshot; otherwise the report built from the `{}`-initialised record |
| FundamentalsLegacy.EmptyRecordVerdict | src/features/ai-analysis/fundamentals.ts:143-161 | if bullish or bearish never occurs, the verdict is neutral with NaN confidence; otherwise it equals the zero-initialised verdict |
| FundamentalsLegacy.AnalyzeFundamentalsLegacyMeaning | src/features/ai-analysis/fundamentals.ts:38-140 | the older scorers give the live reasoning; the verdict equals the live one when both kinds of vote occur, and is neutral with NaN otherwise |
| FundamentalsLegacy.FourBullishVotes | src/features/ai-analysis/fundamentals.ts:151-160 | four bullish votes give bullish 100 with zero initial counts, but neutral with NaN from `{}` |
| Sentiment.InsiderSignalsOf | src/features/stock-analysis/sentiment.ts:13-21 | at most one vote per trade, and never neutral |
| Sentiment.InsiderSignalsAppend | src/features/ai-analysis/sentiment.ts:26-30 | one more trade appends its vote: bearish for negative shares, bullish for other numbers, none for missing shares |
| Sentiment.NewsSignalsOf | src/features/stock-analysis/sentiment.ts:29-42 | one vote per article: bearish exactly for "negative", bullish exactly for "positive" |
| Sentiment.WeightedVotesBounded | src/features/stock-analysis/sentiment.ts:84-92 | each weighted score lies between 0 and the total weight |
| Sentiment.AnalyzeSentimentMeaning | src/features/stock-analysis/sentiment.ts:95-112 | the signal is the strict comparison of the two scores, with a tie giving neutral; confidence lies in [0, 100], and is 0 with nothing to count |
| Sentiment.AllPositiveNews | src/features/stock-analysis/sentiment.ts:103-112 | n positive articles and no trades give bullish with confidence 100 |
| Sentiment.NeutralArticle | src/features/ai-analysis/sentiment.ts:52-74 | a neutral article adds to the total weight only |
| Sentiment.ConfidenceDilutes | src/features/ai-analysis/sentiment.ts:76-82 | a larger total never raises the confidence |
| Sentiment.NeutralNewsDilutes | src/features/stock-analysis/sentiment.ts:84-112 | adding a neutral article keeps the signal and scores and never raises the confidence |
| Valuation.OwnerEarningsGrowth | src/features/stock-analysis/valuation.ts:151 | the growth rate defaults to 0.05 only when earnings growth is undefined (null counts as 0) |
| Valuation.TerminalGrowth | src/features/stock-analysis/valuation.ts:179 | the terminal growth is min(g, 0.03) |
| Valuation.OwnerEarningsValuePositive | src/features/stock-analysis/valuation.ts:166-189 | positive owner earnings with growth above -1 give a positive value |
| Valuation.PresentValuesProportional | src/features/stock-analysis/valuation.ts:220-228 | the discounted cash flows scale linearly with the free cash flow |
| Valuation.TerminalProportional | src/features/stock-analysis/valuation.ts:231-234 | the discounted terminal value scales linearly with the last cash flow |
| Valuation.DcfProportional | src/features/stock-analysis/valuation.ts:237-240 | the DCF value is the free cash flow times the DCF value of a unit cash flow |
| Valuation.UnitDcfPositive | src/features/ai-analysis/valuation.ts:188-206 | with growth above -1 the DCF value of a unit cash flow is positive |
| Valuation.DcfSign | src/features/stock-analysis/valuation.ts:206-241 | with growth above -1 the DCF value has the sign of the free cash flow |
| Valuation.DcfOf | src/features/stock-analysis/valuation.ts:85-91 | the DCF value is NaN exactly when earnings growth is undefined; otherwise it is the DCF at that growth |
| Valuation.GapMeaning | src/features/stock-analysis/valuation.ts:96-97 | with a positive market cap, the gap is value/cap - 1, and a zero value gives -1 |
| Valuation.GapSignal | src/features/stock-analysis/valuation.ts:100-105 | bullish exactly above 0.15 or +∞, bearish exactly below -0.15 or -∞, neutral for NaN |
| Valuation.AnalyzeValuationOf | src/features/stock-analysis/valuation.ts:44-66 | an error exactly when there is no snapshot ("No financial metrics found", checked first) or fewer than two records ("Not enough financial data") |
| Valuation.ValuationMeaning | src/features/stock-analysis/valuation.ts:72-109 | the two gaps and their mean decide the signal at ±0.15; confidence is round(\|gap\|·100); non-positive owner earnings force that gap to -1 |
| Valuation.MissingMarketCap | src/features/stock-analysis/valuation.ts:93-109 | an undefined market cap makes every gap NaN: neutral signals and NaN confidence |
| Valuation.MissingGrowth | src/features/stock-analysis/valuation.ts:81-91 | undefined growth makes the DCF NaN while owner earnings use 5%; the verdict is neutral with NaN confidence |
| Valuation.UncappedConfidence | src/features/stock-analysis/valuation.ts:100-109 | the confidence has no cap: a mean gap of at least +101% reports a bullish signal with confidence above 100, and a gap of +200% reports 200 |
| ValuationLegacy.AnalyzeValuationLegacyOf | src/features/ai-analysis/valuation.ts:56-73 | the record-count check comes first; a missing snapshot then fails on reading `earnings_growth` |
| ValuationLegacy.AnalyzeValuationLegacyMeaning | src/features/ai-analysis/valuation.ts:60-118 | the older version succeeds exactly when the live one does and then gives the same report; with neither input it reports the other error |
| Text.Trim | src/app/routes/api.inngest/scheduled-processing.ts:49 | the trimmed string is a slice with no whitespace at either end, cut only from whitespace margins |
| Text.TrimIdempotent | src/widgets/ai-dialog/ui.tsx:31-32 | trimming twice trims nothing more |
| Text.Split | src/app/routes/api.inngest/scheduled-processing.ts:48 | splitting gives at least one piece, and no piece holds the separator |
| Text.JoinSplit | src/app/routes/api.inngest/scheduled-processing.ts:63 | joining the pieces with the separator gives back the line |
| Text.SplitJoin | src/app/routes/api.inngest/scheduled-processing.ts:114-115 | splitting joined separator-free fields gives back the fields |
| Text.IndexOf | src/widgets/ai-dialog/ui.tsx:26 | the first occurrence at or after the start position, or -1 when there is none |
| Text.IncludesMeaning | src/widgets/stock-table/model/filters.ts:15 | `includes` holds exactly when the pattern occurs somewhere |
| AiContent.ThinkBlock | src/widgets/ai-dialog/ui.tsx:23-26 | a found block is an opening tag, then a closing tag after it |
| AiContent.ThinkBlockMeaning | src/widgets/ai-dialog/ui.tsx:23 | no block exactly when no opening tag is followed by a closing tag; otherwise the leftmost opening tag and the first closing tag after it |
| AiContent.ParseAIContent | src/widgets/ai-dialog/ui.tsx:25-49 | both the reasoning and the content come out trimmed |
| AiContent.CompleteReply | src/widgets/ai-dialog/ui.tsx:28-33 | a complete block with content after it splits back into the trimmed reasoning and the trimmed content |
| AiContent.OpenReply | src/widgets/ai-dialog/ui.tsx:37-42 | an opened but unclosed block is all reasoning, and the content is "" |
| AiContent.PlainReply | src/widgets/ai-dialog/ui.tsx:45-48 | a reply without an opening tag is all content |
| AiContent.UnclosedTagInContent | src/widgets/ai-dialog/ui.tsx:26-48 | a reply with an opening tag that is not at its start and no closing tag is all content, and that content still holds the opening tag |
| ScheduledProcessing.DirectoryRows | src/app/routes/api.inngest/scheduled-processing.ts:47-50 | the data rows are the trimmed lines without the first and the last |
| ScheduledProcessing.NasdaqRowMeaning | src/app/routes/api.inngest/scheduled-processing.ts:54-96 | a NASDAQ row is kept exactly when symbol, name and category are filled and the four flags are "N"; it is kept as {symbol, name} |
| ScheduledProcessing.NasdaqIgnoresRoundLot | src/app/routes/api.inngest/scheduled-processing.ts:54-63 | the sixth field never changes a row's fate |
| ScheduledProcessing.NyseRowMeaning | src/app/routes/api.inngest/scheduled-processing.ts:114-142 | an NYSE row is kept exactly when its seven fields are filled and exchange, ETF and test issue are "N" |
| ScheduledProcessing.KeptListingsMeaning | src/app/routes/api.inngest/scheduled-processing.ts:93-98 | a listing is collected exactly when some row is kept as it |
| ScheduledProcessing.KeptListingsAppend | src/app/routes/api.inngest/scheduled-processing.ts:139-144 | the listings keep the rows' order |
| ScheduledProcessing.TickersToProcessEmpty | src/app/routes/api.inngest/scheduled-processing.ts:19-22 | the intersection of ticker strings with listing objects is always empty |
| ScheduledProcessing.SelectTickers | src/app/routes/api.inngest/scheduled-processing.ts:25-27 | given an arrangement of the set (each member once), min(size, 50) tickers, all from the set; the whole arrangement when there are at most 50 |
| ScheduledProcessing.NothingSelected | src/app/routes/api.inngest/scheduled-processing.ts:19-27 | as written, no ticker is ever selected, whatever the order |
| ScheduledProcessing.SymbolsToProcess | src/app/routes/api.inngest/scheduled-processing.ts:22 | the provider's tickers that some directory lists, compared on symbols |
| ScheduledProcessing.SymbolSelection | src/app/routes/api.inngest/scheduled-processing.ts:24-27 | compared on symbols, each selected ticker is supported and listed, and all are selected when there are at most 50 |
| Filters.TextFilterMeaning | src/widgets/stock-table/model/filters.ts:4-16 | only string cells pass, and exactly those containing "[object Object]" |
| Filters.TextFilterRejectsPlainText | src/widgets/stock-table/model/filters.ts:15 | text without `[` never passes, whatever the filter says |
| Filters.NumberFilterFn | src/widgets/stock-table/model/filters.ts:18-54 | an error exactly for a number cell with a truthy operand, numeric or text, and a text operator |
| Filters.ZeroThresholdRejects | src/widgets/stock-table/model/filters.ts:25-27 | a missing operand, the empty string, 0 and NaN each fail every cell, whatever the operator |
| Filters.OperatorsAgree | src/widgets/stock-table/model/filters.ts:29-51 | for a numeric threshold: eq and ne are complementary, gte is gt or eq, lte is lt or eq |
| Filters.FiniteComparisons | src/widgets/stock-table/model/filters.ts:37-51 | on finite numbers the operators are the ordinary comparisons; a NaN cell passes only ne |
| Filters.TextOperatorOnNumber | src/widgets/stock-table/model/filters.ts:53 | contains and notContains on a number column throw "Unknown filter operator", for a numeric or a text operand |
| Filters.TextOperandOnNumber | src/widgets/stock-table/model/filters.ts:29-51 | a non-empty text operand: eq never passes and ne passes every number cell; the ordering operators compare with the converted string, so gte is gt or equality with the converted value |
| ProcessTicker.GrowthPercentageMeaning | src/app/routes/api.inngest/process-ticker.ts:92-96 | with a non-zero previous value, previous·(1 + growth/100) = current, and growth is positive exactly when the value grew |
| ProcessTicker.PercentageMeaning | src/app/routes/api.inngest/process-ticker.ts:101-114 | with a non-zero whole, whole·percentage/100 = part |
| ProcessTicker.CalculateMetricsMeaning | src/app/routes/api.inngest/process-ticker.ts:90-124 | with non-zero denominators, each of the six metrics recovers its defining quantity |
| ProcessTicker.PreviousReadOnlyForGrowth | src/app/routes/api.inngest/process-ticker.ts:92-96 | the previous period enters only through revenue and net income |
| ProcessTicker.UnguardedDenominators | src/app/routes/api.inngest/process-ticker.ts:92-111 | zero denominators are not guarded: zero revenue gives +∞ or NaN growth, and zero FCF gives +∞ net debt to FCF |
| ProcessTicker.InsertAdds | src/app/routes/api.inngest/process-ticker.ts:39-43 | inserting adds exactly the record |
| ProcessTicker.InsertOrdered | src/app/routes/api.inngest/process-ticker.ts:40-42 | inserting into a newest-first list keeps it newest first |
| ProcessTicker.SortNewestFirstMeaning | src/app/routes/api.inngest/process-ticker.ts:39-43 | the sort is a permutation ordered by report period, newest first |
| ProcessTicker.SelectPeriodsMeaning | src/app/routes/api.inngest/process-ticker.ts:45-49 | too few periods exactly when under two records; otherwise the current and previous periods are the two newest records |
| ProcessTicker.TickerOrder | src/app/routes/api.inngest/process-ticker.ts:29-34 | each ticker of the results appears once |
| ProcessTicker.Group | src/app/routes/api.inngest/process-ticker.ts:29-32 | a ticker's group holds exactly its records |
| ProcessTicker.ProcessTickers | src/app/routes/api.inngest/process-ticker.ts:34-52 | the loop stores, in ticker order, the row of each ticker that has two periods |
| ProcessTicker.RowForMeaning | src/app/routes/api.inngest/process-ticker.ts:39-51 | a ticker's row exists exactly with two records, holding its records newest first and the metrics of its two newest periods |
| ProcessTicker.RowsForTickers | src/app/routes/api.inngest/process-ticker.ts:34-49 | a ticker has a row exactly when it is among the tickers walked and has two records |
| ProcessTicker.RowsForOwnRows | src/app/routes/api.inngest/process-ticker.ts:53-58 | every stored row is its own ticker's row |
| ProcessTicker.ProcessedTickers | src/app/routes/api.inngest/process-ticker.ts:29-49 | after processing, a ticker has a row exactly when the records hold two periods for it |

## Left out

- Fetching and I/O are not modelled. This covers:
  - the data provider client, its caching and the date windows;
  - the symbol-directory downloads;
  - the Inngest events and database inserts;
  - the LLM stream.

  Fetched data are inputs.
- The random order of the selected tickers is an input (`shuffled`), because `Math.random` is not deterministic.
- Formatting is left out: `toFixed`, `toLocaleString`, the "$…" detail strings and the sentiment reasoning string. Fundamentals details are the list of the metric names included.
- Floating-point rounding error and negative zero are not modelled. Numbers are exact reals with explicit NaN and infinities, and `Math.sqrt` is abstract.
- Prices, volumes and line items are finite reals. Snapshot metrics may be undefined, null or a number.
- `normalizePandas` returns its argument, so it is not modelled.
- Combination.WeightedSignalCombination: signals are a datatype, so the older copy's `?? 0` for an unknown signal string cannot arise.
- ProcessTicker.SortNewestFirst: report periods are integer timestamps, so invalid dates are not modelled. The order of equal periods is not proved to match the stable `toSorted`.
- ProcessTicker.TickerOrder: `Object.entries` order is modelled as order of first appearance. JavaScript puts integer-like keys first, and that is not modelled.
- ScheduledProcessing.TickersToProcess: JavaScript `Set` membership of objects is by reference, but the model compares by value. The result is empty either way.
- How JavaScript converts a text operand for `<`, `>`, `<=` and `>=` is not modelled. It is the abstract `Filters.StringToNumber`, whose result the number filter only forwards to the comparison.
- React UI, table widgets, markdown rendering, configuration and the database schema are out of scope.

## Findings

| source | as written | input that shows it | evidently intended | confidence | as-written member | corrected member |
|---|---|---|---|---|---|---|
| src/app/routes/api.inngest/scheduled-processing.ts:19-27 | the provider's ticker strings are intersected with `{symbol, name}` objects, so no ticker is ever selected | any directories and any provider tickers, e.g. "AAPL" listed by NASDAQ and supported | intersect on the listings' symbols | high, not executed | ScheduledProcessing.NothingSelected | ScheduledProcessing.SymbolSelection |
| src/features/ai-analysis/fundamentals.ts:143-161 | the vote counts start as `{}`, so a signal that never occurs has an undefined count | four bullish scorers give neutral with NaN confidence | zero-initialised counts, as in src/features/stock-analysis/fundamentals.ts:196-214 | high, not executed | FundamentalsLegacy.FourBullishVotes | Fundamentals.ZeroVerdict |
