/** The live technical analyzer: four strategies read the price bars through
    the shared indicators, each yields a signal with a confidence, and the
    weighted combiner merges them.

    Each strategy is split into the series it computes (which is where the
    two versions of the analyzer differ) and a rule on the last values of
    those series (which both versions share). The live version reads last
    values with `?? 0`; `??` only replaces a missing element, never NaN. */
module Technicals {
  import opened JsNumber
  import opened Signals
  import opened Rolling
  import opened Variance
  import opened Indicators
  import opened Combination

  datatype TrendMetrics = TrendMetrics(adx: real, trendStrength: real)
  datatype MeanReversionMetrics = MeanReversionMetrics(zScore: Num, priceVsBb: Num, rsi14: Num, rsi28: Num)
  datatype MomentumMetrics = MomentumMetrics(momentum1m: Num, momentum3m: Num, momentum6m: Num, volumeMomentum: Num)
  datatype VolatilityMetrics =
    VolatilityMetrics(historicalVolatility: Num, volatilityRegime: Num, volatilityZScore: Num, atrRatio: Num)

  /** One strategy's result: a signal, a confidence and the metrics behind it. */
  datatype Strategy<M> = Strategy(signal: Signal, confidence: real, metrics: M)

  /** `Math.min(x, 1.0)` for the non-negative ratio a decisive rule reports. */
  function CapAtOne(x: Num): (r: real)
    requires Ge(x, Fin(0.0))
    ensures 0.0 <= r <= 1.0
    ensures Min(x, Fin(1.0)) == Fin(r)
  {
    if Lt(Fin(1.0), x) then 1.0 else x.v
  }

  /** `Math.abs(x) / k` and `Math.abs(x) * k` are non-negative for a number
      that is not NaN and a positive k. */
  lemma ScaledAbsNonNegative(x: Num, k: real)
    requires !x.NaN? && k > 0.0
    ensures Ge(Div(Abs(x), Fin(k)), Fin(0.0))
    ensures Ge(Mul(Abs(x), Fin(k)), Fin(0.0))
  {
  }

  // ---------------------------------------------------------------------
  // Trend following

  /** The trend rule on the last EMA(8), EMA(21), EMA(55) and ADX(14): bullish
      when the short EMA is above the middle one and the middle above the
      long one, bearish when neither holds, otherwise neutral with 0.5; a
      decisive signal carries the trend strength adx / 100. */
  function TrendRule(ema8: real, ema21: real, ema55: real, adx: real): (r: Strategy<TrendMetrics>)
    ensures r.signal == Bullish <==> ema8 > ema21 && ema21 > ema55
    ensures r.signal == Bearish <==> ema8 <= ema21 && ema21 <= ema55
    ensures r.signal == Neutral ==> r.confidence == 0.5
    ensures r.signal != Neutral ==> r.confidence == adx / 100.0
    ensures 0.0 <= adx <= 100.0 ==> 0.0 <= r.confidence <= 1.0
    ensures r.metrics == TrendMetrics(adx, adx / 100.0)
  {
    var shortTrend := ema8 > ema21;
    var mediumTrend := ema21 > ema55;
    var trendStrength := adx / 100.0;
    var metrics := TrendMetrics(adx, trendStrength);
    if shortTrend && mediumTrend then Strategy(Bullish, trendStrength, metrics)
    else if !(shortTrend || mediumTrend) then Strategy(Bearish, trendStrength, metrics)
    else Strategy(Neutral, 0.5, metrics)
  }

  function TrendSignalsOf(bars: seq<Bar>): Strategy<TrendMetrics> {
    var close := Closes(bars);
    TrendRule(LastOr(EmaOf(close, 8), 0.0), LastOr(EmaOf(close, 21), 0.0), LastOr(EmaOf(close, 55), 0.0),
              LastOr(AdxOf(bars, 14).adx, 0.0))
  }

  /** The trend confidence is always in [0, 1], since ADX(14) is in [0, 100]. */
  lemma TrendConfidenceRange(bars: seq<Bar>)
    ensures 0.0 <= TrendSignalsOf(bars).confidence <= 1.0
  {
    AdxBounds(bars, 14);
  }

  /** A close series that never moves has equal EMAs, which count as "not
      up": the trend is bearish. If every bar is the same single price, ADX
      is 0 as well and the bearish signal carries confidence 0. */
  lemma FlatSeriesTrend(bars: seq<Bar>)
    requires bars != []
    requires forall i :: 0 <= i < |bars| ==> bars[i].close == bars[0].close
    ensures TrendSignalsOf(bars).signal == Bearish
    ensures (forall i :: 0 <= i < |bars| ==> bars[i] == Bar(bars[0].open, bars[0].close, bars[0].close, bars[0].close, bars[0].volume)) ==>
              TrendSignalsOf(bars).confidence == 0.0
  {
    var close := Closes(bars);
    EmaConstant(close, 8, bars[0].close);
    EmaConstant(close, 21, bars[0].close);
    EmaConstant(close, 55, bars[0].close);
    if forall i :: 0 <= i < |bars| ==> bars[i] == Bar(bars[0].open, bars[0].close, bars[0].close, bars[0].close, bars[0].volume) {
      FlatAdx(bars);
    }
  }

  /** ADX of bars that all sit at one price is 0 everywhere. */
  lemma FlatAdx(bars: seq<Bar>)
    requires bars != []
    requires forall i :: 0 <= i < |bars| ==> bars[i] == Bar(bars[0].open, bars[0].close, bars[0].close, bars[0].close, bars[0].volume)
    ensures forall i :: 0 <= i < |bars| ==> AdxOf(bars, 14).adx[i] == 0.0
  {
    assert forall i :: 0 <= i < |bars| ==> TrueRangesOf(bars)[i] == 0.0;
    assert forall i :: 0 <= i < |bars| ==> PlusDmsOf(bars)[i] == 0.0;
    assert forall i :: 0 <= i < |bars| ==> MinusDmsOf(bars)[i] == 0.0;
    EmaConstant(TrueRangesOf(bars), 14, 0.0);
    EmaConstant(PlusDmsOf(bars), 14, 0.0);
    EmaConstant(MinusDmsOf(bars), 14, 0.0);
    var ds := DirectionalsOf(bars, 14);
    assert forall i :: 0 <= i < |bars| ==> Dxs(ds)[i] == 0.0;
    EmaConstant(Dxs(ds), 14, 0.0);
  }

  // ---------------------------------------------------------------------
  // Mean reversion

  /** The z-score at position i: 0 when the standard deviation is exactly 0,
      otherwise (price - mean) / std, which is NaN while std is NaN. */
  function ZScoreAt(close: seq<real>, mean: seq<Num>, std: seq<Num>, i: nat): Num
    requires |mean| == |close| && |std| == |close| && i < |close|
  {
    if StrictEq(std[i], Fin(0.0)) then Fin(0.0) else Div(Sub(Fin(close[i]), mean[i]), std[i])
  }

  function ZScoresOf(close: seq<real>, mean: seq<Num>, std: seq<Num>): (r: seq<Num>)
    requires |mean| == |close| && |std| == |close|
    ensures |r| == |close|
  {
    seq(|close|, i requires 0 <= i < |close| => ZScoreAt(close, mean, std, i))
  }

  /** The z-score loop of calculateMeanReversionSignals. */
  method ZScores(close: seq<real>, mean: seq<Num>, std: seq<Num>) returns (zScore: seq<Num>)
    requires |mean| == |close| && |std| == |close|
    ensures zScore == ZScoresOf(close, mean, std)
  {
    zScore := [];
    for i := 0 to |close|
      invariant zScore == ZScoresOf(close, mean, std)[..i]
    {
      PrefixGrows(ZScoresOf(close, mean, std), i);
      var standardDeviation := std[i];
      var score := if StrictEq(standardDeviation, Fin(0.0)) then Fin(0.0)
                   else Div(Sub(Fin(close[i]), mean[i]), standardDeviation);
      zScore := zScore + [score];
    }
  }

  /** A NaN deviation gives a NaN z-score, a zero deviation gives 0, and a
      finite non-zero deviation gives the z for which mean + z * std is the
      price. */
  lemma ZScoreMeaning(close: seq<real>, mean: seq<Num>, std: seq<Num>)
    requires |mean| == |close| && |std| == |close|
    ensures forall i :: 0 <= i < |close| && std[i].NaN? ==> ZScoresOf(close, mean, std)[i].NaN?
    ensures forall i :: 0 <= i < |close| && std[i] == Fin(0.0) ==> ZScoresOf(close, mean, std)[i] == Fin(0.0)
    ensures forall i :: 0 <= i < |close| && std[i].Fin? && std[i].v != 0.0 && mean[i].Fin? ==>
              ZScoresOf(close, mean, std)[i].Fin? &&
              mean[i].v + ZScoresOf(close, mean, std)[i].v * std[i].v == close[i]
  {
    forall i | 0 <= i < |close| && std[i].Fin? && std[i].v != 0.0 && mean[i].Fin?
      ensures ZScoresOf(close, mean, std)[i].Fin?
      ensures mean[i].v + ZScoresOf(close, mean, std)[i].v * std[i].v == close[i]
    {
      var z := (close[i] - mean[i].v) / std[i].v;
      assert ZScoresOf(close, mean, std)[i] == Fin(z);
      assert z * std[i].v == close[i] - mean[i].v;
    }
  }

  /** Where the last close sits between the bands: 0.5 when the band width
      is exactly 0, otherwise (close - lower) / (upper - lower), NaN while
      the bands are NaN. */
  function PriceVsBands(lastClose: Num, upper: Num, lower: Num): Num {
    var denom := Sub(upper, lower);
    if !StrictEq(denom, Fin(0.0)) then Div(Sub(lastClose, lower), denom) else Fin(0.5)
  }

  /** The mean-reversion rule: bullish when z < -2 and the close is in the
      bottom fifth of the bands, bearish when z > 2 and it is in the top
      fifth, with confidence min(|z| / 4, 1); otherwise neutral with 0.5. */
  function MeanReversionRule(z: Num, priceVsBb: Num, rsi14: Num, rsi28: Num): (r: Strategy<MeanReversionMetrics>)
    ensures r.signal == Bullish <==> Lt(z, Fin(-2.0)) && Lt(priceVsBb, Fin(0.2))
    ensures r.signal == Bearish <==> Gt(z, Fin(2.0)) && Gt(priceVsBb, Fin(0.8))
    ensures r.signal == Neutral ==> r.confidence == 0.5
    ensures r.signal != Neutral ==> Min(Div(Abs(z), Fin(4.0)), Fin(1.0)) == Fin(r.confidence)
    ensures 0.0 <= r.confidence <= 1.0
    ensures r.metrics == MeanReversionMetrics(z, priceVsBb, rsi14, rsi28)
  {
    var metrics := MeanReversionMetrics(z, priceVsBb, rsi14, rsi28);
    if Lt(z, Fin(-2.0)) && Lt(priceVsBb, Fin(0.2)) then
      ScaledAbsNonNegative(z, 4.0);
      Strategy(Bullish, CapAtOne(Div(Abs(z), Fin(4.0))), metrics)
    else if Gt(z, Fin(2.0)) && Gt(priceVsBb, Fin(0.8)) then
      ScaledAbsNonNegative(z, 4.0);
      Strategy(Bearish, CapAtOne(Div(Abs(z), Fin(4.0))), metrics)
    else Strategy(Neutral, 0.5, metrics)
  }

  function MeanReversionSignalsOf(bars: seq<Bar>): Strategy<MeanReversionMetrics> {
    var close := Closes(bars);
    var zScore := ZScoresOf(close, RollingMeanOf(Lift(close), 50), RollingStdOf(Lift(close), 50));
    var lastClose := Fin(LastOr(close, 0.0));
    var priceVsBb := PriceVsBands(lastClose, LastOr(UpperBandOf(close, 20), Fin(0.0)), LastOr(LowerBandOf(close, 20), Fin(0.0)));
    MeanReversionRule(LastOr(zScore, Fin(0.0)), priceVsBb, LastOr(RsiOf(close, 14), Fin(0.0)), LastOr(RsiOf(close, 28), Fin(0.0)))
  }

  /** With fewer than 50 bars the 50-day deviation is still NaN, so is the
      z-score, and mean reversion is neutral with 0.5. */
  lemma MeanReversionWarmup(bars: seq<Bar>)
    requires |bars| < 50
    ensures MeanReversionSignalsOf(bars).signal == Neutral
    ensures MeanReversionSignalsOf(bars).confidence == 0.5
  {
    var close := Closes(bars);
    if bars != [] {
      var std := RollingStdOf(Lift(close), 50);
      RollingStdNaN(Lift(close), 50);
      ZScoreMeaning(close, RollingMeanOf(Lift(close), 50), std);
      assert std[|bars| - 1].NaN?;
    }
  }

  // ---------------------------------------------------------------------
  // Momentum

  /** The momentum rule: the score 0.4 m1 + 0.3 m3 + 0.3 m6 is bullish above
      0.05 and bearish below -0.05, each only when volume momentum is above 1,
      with confidence min(5 |score|, 1); otherwise neutral with 0.5. */
  function MomentumRule(m1: Num, m3: Num, m6: Num, volumeMomentum: Num): (r: Strategy<MomentumMetrics>)
    ensures var score := MomentumScore(m1, m3, m6);
            (r.signal == Bullish <==> Gt(score, Fin(0.05)) && Gt(volumeMomentum, Fin(1.0))) &&
            (r.signal == Bearish <==> Lt(score, Fin(-0.05)) && Gt(volumeMomentum, Fin(1.0))) &&
            (r.signal != Neutral ==> Min(Mul(Abs(score), Fin(5.0)), Fin(1.0)) == Fin(r.confidence))
    ensures r.signal == Neutral ==> r.confidence == 0.5
    ensures 0.0 <= r.confidence <= 1.0
    ensures r.metrics == MomentumMetrics(m1, m3, m6, volumeMomentum)
  {
    var score := MomentumScore(m1, m3, m6);
    var volumeConfirmation := Gt(volumeMomentum, Fin(1.0));
    var metrics := MomentumMetrics(m1, m3, m6, volumeMomentum);
    if Gt(score, Fin(0.05)) && volumeConfirmation then
      ScaledAbsNonNegative(score, 5.0);
      Strategy(Bullish, CapAtOne(Mul(Abs(score), Fin(5.0))), metrics)
    else if Lt(score, Fin(-0.05)) && volumeConfirmation then
      ScaledAbsNonNegative(score, 5.0);
      Strategy(Bearish, CapAtOne(Mul(Abs(score), Fin(5.0))), metrics)
    else Strategy(Neutral, 0.5, metrics)
  }

  function MomentumScore(m1: Num, m3: Num, m6: Num): (r: Num)
    ensures m1.NaN? || m3.NaN? || m6.NaN? ==> r.NaN?
  {
    Add(Add(Mul(Fin(0.4), m1), Mul(Fin(0.3), m3)), Mul(Fin(0.3), m6))
  }

  /** Daily returns as numbers. */
  function ReturnsOf(bars: seq<Bar>): (r: seq<Num>)
    ensures |r| == if bars == [] then 1 else |bars|
  {
    Lift(PctChangeOf(Closes(bars)))
  }

  /** Live volume momentum: volume over its 21-day mean, NaN during warm-up
      (`?? 1` does not replace NaN). */
  function VolumeMomentumOf(bars: seq<Bar>): (r: seq<Num>)
    ensures |r| == |bars|
  {
    var volMa := RollingMeanOf(Lift(Volumes(bars)), 21);
    seq(|bars|, i requires 0 <= i < |bars| => Div(Fin(bars[i].volume), volMa[i]))
  }

  function MomentumSignalsOf(bars: seq<Bar>): Strategy<MomentumMetrics> {
    var dailyReturns := ReturnsOf(bars);
    MomentumRule(LastOr(RollingSumOf(dailyReturns, 21), Fin(0.0)), LastOr(RollingSumOf(dailyReturns, 63), Fin(0.0)),
                 LastOr(RollingSumOf(dailyReturns, 126), Fin(0.0)), LastOr(VolumeMomentumOf(bars), Fin(0.0)))
  }

  /** With fewer than 126 bars the six-month sum is still NaN, so is the
      score, and momentum is neutral with 0.5. */
  lemma MomentumWarmup(bars: seq<Bar>)
    requires |bars| < 126
    ensures MomentumSignalsOf(bars).signal == Neutral
    ensures MomentumSignalsOf(bars).confidence == 0.5
  {
    var dailyReturns := ReturnsOf(bars);
    RollingSumNaN(dailyReturns, 126);
    assert RollingSumOf(dailyReturns, 126)[|dailyReturns| - 1].NaN?;
  }

  // ---------------------------------------------------------------------
  // Volatility

  /** The volatility rule: bullish in a low regime (< 0.8) with z < -1,
      bearish in a high regime (> 1.2) with z > 1, with confidence
      min(|z| / 3, 1); otherwise neutral with 0.5. */
  function VolatilityRule(histVol: Num, regime: Num, z: Num, atrRatio: Num): (r: Strategy<VolatilityMetrics>)
    ensures r.signal == Bullish <==> Lt(regime, Fin(0.8)) && Lt(z, Fin(-1.0))
    ensures r.signal == Bearish <==> Gt(regime, Fin(1.2)) && Gt(z, Fin(1.0))
    ensures r.signal == Neutral ==> r.confidence == 0.5
    ensures r.signal != Neutral ==> Min(Div(Abs(z), Fin(3.0)), Fin(1.0)) == Fin(r.confidence)
    ensures 0.0 <= r.confidence <= 1.0
    ensures r.metrics == VolatilityMetrics(histVol, regime, z, atrRatio)
  {
    var metrics := VolatilityMetrics(histVol, regime, z, atrRatio);
    if Lt(regime, Fin(0.8)) && Lt(z, Fin(-1.0)) then
      ScaledAbsNonNegative(z, 3.0);
      Strategy(Bullish, CapAtOne(Div(Abs(z), Fin(3.0))), metrics)
    else if Gt(regime, Fin(1.2)) && Gt(z, Fin(1.0)) then
      ScaledAbsNonNegative(z, 3.0);
      Strategy(Bearish, CapAtOne(Div(Abs(z), Fin(3.0))), metrics)
    else Strategy(Neutral, 0.5, metrics)
  }

  /** Annualised historical volatility: the 21-day deviation of returns
      times sqrt(252). */
  function HistVolOf(bars: seq<Bar>): (r: seq<Num>)
    ensures |r| == |ReturnsOf(bars)|
  {
    var rollingStd21 := RollingStdOf(ReturnsOf(bars), 21);
    seq(|rollingStd21|, i requires 0 <= i < |rollingStd21| => Mul(rollingStd21[i], Fin(Sqrt(252.0))))
  }

  /** ATR over the close of the same bar. */
  function AtrRatioOf(bars: seq<Bar>): (r: seq<Num>)
    ensures |r| == |bars|
  {
    var atr := AtrOf(bars, 14);
    seq(|bars|, i requires 0 <= i < |bars| => Div(atr[i], Fin(bars[i].close)))
  }

  function VolatilitySignalsOf(bars: seq<Bar>): Strategy<VolatilityMetrics> {
    var histVol := HistVolOf(bars);
    var volMa63 := RollingMeanOf(histVol, 63);
    var stdVol63 := RollingStdOf(histVol, 63);
    var volRegime := seq(|histVol|, i requires 0 <= i < |histVol| => Div(histVol[i], volMa63[i]));
    var volZScore := seq(|histVol|, i requires 0 <= i < |histVol| => Div(Sub(histVol[i], volMa63[i]), stdVol63[i]));
    VolatilityRule(LastOr(histVol, Fin(0.0)), LastOr(volRegime, Fin(0.0)), LastOr(volZScore, Fin(0.0)),
                   LastOr(AtrRatioOf(bars), Fin(0.0)))
  }

  /** The first historical-volatility value is NaN (the 21-day window is not
      yet full), and a NaN never leaves a running sum: the 63-day mean of
      historical volatility is NaN at every position. */
  lemma VolatilityMeanAlwaysNaN(bars: seq<Bar>)
    ensures forall i :: 0 <= i < |HistVolOf(bars)| ==> RollingMeanOf(HistVolOf(bars), 63)[i].NaN?
  {
    var dailyReturns := ReturnsOf(bars);
    RollingStdNaN(dailyReturns, 21);
    assert HistVolOf(bars)[0].NaN?;
    RollingMeanNaN(HistVolOf(bars), 63);
  }

  /** So the live volatility strategy never fires: its regime is NaN and it
      is neutral with confidence 0.5 on every input. */
  lemma VolatilityAlwaysNeutral(bars: seq<Bar>)
    ensures VolatilitySignalsOf(bars).signal == Neutral
    ensures VolatilitySignalsOf(bars).confidence == 0.5
    ensures VolatilitySignalsOf(bars).metrics.volatilityRegime.NaN?
  {
    VolatilityMeanAlwaysNaN(bars);
  }

  // ---------------------------------------------------------------------
  // The analyzer

  datatype StrategyReport<M> = StrategyReport(signal: Signal, confidence: int, metrics: M)

  datatype TechnicalReport = TechnicalReport(
    signal: Signal,
    confidence: int,
    trendFollowing: StrategyReport<TrendMetrics>,
    meanReversion: StrategyReport<MeanReversionMetrics>,
    momentum: StrategyReport<MomentumMetrics>,
    volatility: StrategyReport<VolatilityMetrics>)

  function ReportOf<M>(s: Strategy<M>): StrategyReport<M> {
    StrategyReport(s.signal, Percent(s.confidence), s.metrics)
  }

  const TrendWeight: real := 0.25
  const MeanReversionWeight: real := 0.2
  const MomentumWeight: real := 0.25
  const VolatilityWeight: real := 0.15

  /** The four strategies in the order the combiner visits them, with their weights. */
  function WeightedStrategies(trend: Strategy<TrendMetrics>, meanReversion: Strategy<MeanReversionMetrics>,
                              momentum: Strategy<MomentumMetrics>, volatility: Strategy<VolatilityMetrics>): seq<Weighted>
  {
    [Weighted(trend.signal, TrendWeight, trend.confidence),
     Weighted(meanReversion.signal, MeanReversionWeight, meanReversion.confidence),
     Weighted(momentum.signal, MomentumWeight, momentum.confidence),
     Weighted(volatility.signal, VolatilityWeight, volatility.confidence)]
  }

  /** The report built from four strategy results. */
  function TechnicalReportOf(trend: Strategy<TrendMetrics>, meanReversion: Strategy<MeanReversionMetrics>,
                             momentum: Strategy<MomentumMetrics>, volatility: Strategy<VolatilityMetrics>): TechnicalReport
  {
    var combined := CombineOf(WeightedStrategies(trend, meanReversion, momentum, volatility));
    TechnicalReport(combined.signal, Percent(combined.confidence),
                    ReportOf(trend), ReportOf(meanReversion), ReportOf(momentum), ReportOf(volatility))
  }

  /** analyzeTechnicals after the fetch. */
  function AnalyzeTechnicalsOf(bars: seq<Bar>): Result<TechnicalReport> {
    if bars == [] then Error("No price data found")
    else Ok(TechnicalReportOf(TrendSignalsOf(bars), MeanReversionSignalsOf(bars), MomentumSignalsOf(bars),
                              VolatilitySignalsOf(bars)))
  }

  predicate PercentagesInRange(r: TechnicalReport) {
    0 <= r.confidence <= 100 &&
    0 <= r.trendFollowing.confidence <= 100 &&
    0 <= r.meanReversion.confidence <= 100 &&
    0 <= r.momentum.confidence <= 100 &&
    0 <= r.volatility.confidence <= 100
  }

  /** Strategy confidences in [0, 1] give a report whose percentages all lie
      in [0, 100]. */
  lemma ReportInRange(trend: Strategy<TrendMetrics>, meanReversion: Strategy<MeanReversionMetrics>,
                      momentum: Strategy<MomentumMetrics>, volatility: Strategy<VolatilityMetrics>)
    requires 0.0 <= trend.confidence <= 1.0 && 0.0 <= meanReversion.confidence <= 1.0
    requires 0.0 <= momentum.confidence <= 1.0 && 0.0 <= volatility.confidence <= 1.0
    ensures PercentagesInRange(TechnicalReportOf(trend, meanReversion, momentum, volatility))
  {
    var items := WeightedStrategies(trend, meanReversion, momentum, volatility);
    FinalScoreBounded(items);
    PercentRange(CombineOf(items).confidence);
    PercentRange(trend.confidence);
    PercentRange(meanReversion.confidence);
    PercentRange(momentum.confidence);
    PercentRange(volatility.confidence);
  }

  /** The analyzer fails exactly on an empty price list, with "No price data
      found"; otherwise every confidence it reports is a percentage in
      [0, 100], and the volatility strategy reports neutral at 50. */
  lemma AnalyzeTechnicalsMeaning(bars: seq<Bar>)
    ensures AnalyzeTechnicalsOf(bars).Error? <==> bars == []
    ensures bars == [] ==> AnalyzeTechnicalsOf(bars) == Error("No price data found")
    ensures AnalyzeTechnicalsOf(bars).Ok? ==> PercentagesInRange(AnalyzeTechnicalsOf(bars).value)
    ensures AnalyzeTechnicalsOf(bars).Ok? ==>
              AnalyzeTechnicalsOf(bars).value.volatility.signal == Neutral &&
              AnalyzeTechnicalsOf(bars).value.volatility.confidence == 50
  {
    if bars != [] {
      TrendConfidenceRange(bars);
      VolatilityAlwaysNeutral(bars);
      ReportInRange(TrendSignalsOf(bars), MeanReversionSignalsOf(bars), MomentumSignalsOf(bars), VolatilitySignalsOf(bars));
    }
  }
}
