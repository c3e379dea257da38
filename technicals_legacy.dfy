/** The earlier technical analyzer. It shares the indicators, the four rules
    and the combiner with the live one; it differs in how it reads the
    series:

    - last values are read without a fallback (the analyzer has already
      rejected an empty price list, so they always exist);
    - volume momentum divides by `volMa[i] || 1`, so a NaN or zero volume
      mean is replaced by 1;
    - the volatility regime and z-score replace a NaN or zero 63-day mean
      and deviation by 1, and the ATR ratio a zero close by 1.

    The consequence worth knowing: the 63-day mean of historical volatility
    is NaN everywhere (see Technicals.VolatilityMeanAlwaysNaN), so here the
    regime is the historical volatility itself and the z-score is that
    volatility minus 1. The earlier volatility strategy is therefore never
    bullish and is bearish exactly when historical volatility exceeds 2. */
module TechnicalsLegacy {
  import opened JsNumber
  import opened Signals
  import opened Rolling
  import opened Indicators
  import opened Combination
  import opened Technicals

  /** `s[s.length - 1]` on a list known to be non-empty. */
  function Last<T>(s: seq<T>): T
    requires s != []
  {
    s[|s| - 1]
  }

  /** Dividing by the number 1 leaves every number unchanged. */
  lemma DivByOne(a: Num)
    ensures Div(a, Fin(1.0)) == a
  {
  }

  // ---------------------------------------------------------------------
  // Trend following and mean reversion: the same series, read without `?? 0`

  function LegacyTrendSignalsOf(bars: seq<Bar>): Strategy<TrendMetrics>
    requires bars != []
  {
    var close := Closes(bars);
    TrendRule(Last(EmaOf(close, 8)), Last(EmaOf(close, 21)), Last(EmaOf(close, 55)), Last(AdxOf(bars, 14).adx))
  }

  function LegacyMeanReversionSignalsOf(bars: seq<Bar>): Strategy<MeanReversionMetrics>
    requires bars != []
  {
    var close := Closes(bars);
    var zScore := ZScoresOf(close, RollingMeanOf(Lift(close), 50), RollingStdOf(Lift(close), 50));
    var priceVsBb := PriceVsBands(Fin(Last(close)), Last(UpperBandOf(close, 20)), Last(LowerBandOf(close, 20)));
    MeanReversionRule(Last(zScore), priceVsBb, Last(RsiOf(close, 14)), Last(RsiOf(close, 28)))
  }

  /** On a non-empty price list the fallback is never used, so the earlier
      trend and mean-reversion strategies agree with the live ones. */
  lemma LegacyTrendAndMeanReversionAgree(bars: seq<Bar>)
    requires bars != []
    ensures LegacyTrendSignalsOf(bars) == TrendSignalsOf(bars)
    ensures LegacyMeanReversionSignalsOf(bars) == MeanReversionSignalsOf(bars)
  {
  }

  // ---------------------------------------------------------------------
  // Momentum

  /** Earlier volume momentum: volume over `volMa[i] || 1`. */
  function LegacyVolumeMomentumOf(bars: seq<Bar>): (r: seq<Num>)
    ensures |r| == |bars|
  {
    var volMa := RollingMeanOf(Lift(Volumes(bars)), 21);
    seq(|bars|, i requires 0 <= i < |bars| => Div(Fin(bars[i].volume), Or(volMa[i], Fin(1.0))))
  }

  /** Where the 21-day volume mean is a non-zero number both versions divide
      by it and agree; where it is NaN or 0 the earlier version reports the
      raw volume. During the first 20 bars the mean is NaN, so the earlier
      version reports the raw volume where the live one reports NaN. */
  lemma LegacyVolumeMomentumMeaning(bars: seq<Bar>)
    ensures forall i :: 0 <= i < |bars| && Truthy(RollingMeanOf(Lift(Volumes(bars)), 21)[i]) ==>
              LegacyVolumeMomentumOf(bars)[i] == VolumeMomentumOf(bars)[i]
    ensures forall i :: 0 <= i < |bars| && !Truthy(RollingMeanOf(Lift(Volumes(bars)), 21)[i]) ==>
              LegacyVolumeMomentumOf(bars)[i] == Fin(bars[i].volume)
    ensures forall i :: 0 <= i < |bars| && i < 20 ==>
              LegacyVolumeMomentumOf(bars)[i] == Fin(bars[i].volume) && VolumeMomentumOf(bars)[i].NaN?
  {
    RollingMeanNaN(Lift(Volumes(bars)), 21);
  }

  function LegacyMomentumSignalsOf(bars: seq<Bar>): Strategy<MomentumMetrics>
    requires bars != []
  {
    var dailyReturns := ReturnsOf(bars);
    MomentumRule(Last(RollingSumOf(dailyReturns, 21)), Last(RollingSumOf(dailyReturns, 63)),
                 Last(RollingSumOf(dailyReturns, 126)), Last(LegacyVolumeMomentumOf(bars)))
  }

  /** The earlier momentum strategy agrees with the live one whenever the
      last 21-day volume mean is a non-zero number, and like it stays neutral
      with 0.5 until the six-month window is full. */
  lemma LegacyMomentumMeaning(bars: seq<Bar>)
    requires bars != []
    ensures Truthy(Last(RollingMeanOf(Lift(Volumes(bars)), 21))) ==>
              LegacyMomentumSignalsOf(bars) == MomentumSignalsOf(bars)
    ensures |bars| < 126 ==>
              LegacyMomentumSignalsOf(bars).signal == Neutral && LegacyMomentumSignalsOf(bars).confidence == 0.5
  {
    LegacyVolumeMomentumMeaning(bars);
    var dailyReturns := ReturnsOf(bars);
    RollingSumNaN(dailyReturns, 126);
    if |bars| < 126 {
      assert RollingSumOf(dailyReturns, 126)[|dailyReturns| - 1].NaN?;
    }
  }

  // ---------------------------------------------------------------------
  // Volatility

  /** Earlier ATR ratio: ATR over `close || 1`. */
  function LegacyAtrRatioOf(bars: seq<Bar>): (r: seq<Num>)
    ensures |r| == |bars|
  {
    var atr := AtrOf(bars, 14);
    seq(|bars|, i requires 0 <= i < |bars| => Div(atr[i], Or(Fin(bars[i].close), Fin(1.0))))
  }

  /** The earlier ATR ratio agrees with the live one except at a zero close,
      where it is the ATR itself. */
  lemma LegacyAtrRatioMeaning(bars: seq<Bar>)
    ensures forall i :: 0 <= i < |bars| && bars[i].close != 0.0 ==> LegacyAtrRatioOf(bars)[i] == AtrRatioOf(bars)[i]
    ensures forall i :: 0 <= i < |bars| && bars[i].close == 0.0 ==> LegacyAtrRatioOf(bars)[i] == AtrOf(bars, 14)[i]
  {
    forall i | 0 <= i < |bars| && bars[i].close == 0.0
      ensures LegacyAtrRatioOf(bars)[i] == AtrOf(bars, 14)[i]
    {
      DivByOne(AtrOf(bars, 14)[i]);
    }
  }

  /** The earlier regime: historical volatility over `volMa63[i] || 1`. */
  function LegacyVolRegimeOf(histVol: seq<Num>): (r: seq<Num>)
    ensures |r| == |histVol|
  {
    var volMa63 := RollingMeanOf(histVol, 63);
    seq(|histVol|, i requires 0 <= i < |histVol| => Div(histVol[i], Or(volMa63[i], Fin(1.0))))
  }

  /** The earlier z-score: (histVol - (volMa63 || 1)) / (stdVol63 || 1). */
  function LegacyVolZScoreOf(histVol: seq<Num>): (r: seq<Num>)
    ensures |r| == |histVol|
  {
    var volMa63 := RollingMeanOf(histVol, 63);
    var stdVol63 := RollingStdOf(histVol, 63);
    seq(|histVol|, i requires 0 <= i < |histVol| =>
      Div(Sub(histVol[i], Or(volMa63[i], Fin(1.0))), Or(stdVol63[i], Fin(1.0))))
  }

  function LegacyVolatilitySignalsOf(bars: seq<Bar>): Strategy<VolatilityMetrics>
    requires bars != []
  {
    var histVol := HistVolOf(bars);
    VolatilityRule(Last(histVol), Last(LegacyVolRegimeOf(histVol)), Last(LegacyVolZScoreOf(histVol)),
                   Last(LegacyAtrRatioOf(bars)))
  }

  /** Scaling a number that is NaN or non-negative by sqrt(252) keeps it
      NaN or non-negative. */
  lemma AnnualisedNonNegative(x: Num)
    requires x.NaN? || Ge(x, Fin(0.0))
    ensures Mul(x, Fin(Sqrt(252.0))).NaN? || Ge(Mul(x, Fin(Sqrt(252.0))), Fin(0.0))
  {
    if x.Fin? {
      ProductNonNegative(x.v, Sqrt(252.0));
    }
  }

  /** Historical volatility is NaN at the first bar and never negative. */
  lemma HistVolNonNegative(bars: seq<Bar>)
    ensures HistVolOf(bars)[0].NaN?
    ensures forall i :: 0 <= i < |HistVolOf(bars)| ==> HistVolOf(bars)[i].NaN? || Ge(HistVolOf(bars)[i], Fin(0.0))
  {
    var rollingStd21 := RollingStdOf(ReturnsOf(bars), 21);
    RollingStdNaN(ReturnsOf(bars), 21);
    forall i | 0 <= i < |HistVolOf(bars)|
      ensures HistVolOf(bars)[i].NaN? || Ge(HistVolOf(bars)[i], Fin(0.0))
    {
      AnnualisedNonNegative(rollingStd21[i]);
    }
  }

  /** Because the 63-day mean of historical volatility is always NaN and its
      deviation is NaN or 0, the earlier regime is the historical volatility
      and the z-score is that volatility minus 1. */
  lemma LegacyVolatilitySeries(bars: seq<Bar>)
    ensures LegacyVolRegimeOf(HistVolOf(bars)) == HistVolOf(bars)
    ensures forall i :: 0 <= i < |HistVolOf(bars)| ==> LegacyVolZScoreOf(HistVolOf(bars))[i] == Sub(HistVolOf(bars)[i], Fin(1.0))
  {
    var histVol := HistVolOf(bars);
    VolatilityMeanAlwaysNaN(bars);
    HistVolNonNegative(bars);
    RollingStdNaN(histVol, 63);
    forall i | 0 <= i < |histVol|
      ensures LegacyVolRegimeOf(histVol)[i] == histVol[i]
      ensures LegacyVolZScoreOf(histVol)[i] == Sub(histVol[i], Fin(1.0))
    {
      DivByOne(histVol[i]);
      DivByOne(Sub(histVol[i], Fin(1.0)));
    }
  }

  /** The volatility rule fed a regime equal to a volatility that is NaN or
      non-negative, and a z-score equal to that volatility minus 1, is never
      bullish and is bearish exactly when the volatility exceeds 2. */
  lemma RuleOnVolatility(histVol: Num, atrRatio: Num)
    requires histVol.NaN? || Ge(histVol, Fin(0.0))
    ensures var s := VolatilityRule(histVol, histVol, Sub(histVol, Fin(1.0)), atrRatio);
            s.signal != Bullish && (s.signal == Bearish <==> Gt(histVol, Fin(2.0)))
  {
  }

  /** The earlier volatility strategy is never bullish; it is bearish exactly
      when the last historical volatility exceeds 2, with confidence
      min(|histVol - 1| / 3, 1). */
  lemma LegacyVolatilityDecision(bars: seq<Bar>)
    requires bars != []
    ensures var s := LegacyVolatilitySignalsOf(bars);
            var histVol := Last(HistVolOf(bars));
            s.signal != Bullish &&
            (s.signal == Bearish <==> Gt(histVol, Fin(2.0))) &&
            (s.signal == Bearish ==> Min(Div(Abs(Sub(histVol, Fin(1.0))), Fin(3.0)), Fin(1.0)) == Fin(s.confidence)) &&
            (s.signal == Neutral ==> s.confidence == 0.5) &&
            s.metrics.volatilityRegime == histVol &&
            s.metrics.volatilityZScore == Sub(histVol, Fin(1.0))
  {
    var histVol := HistVolOf(bars);
    LegacyVolatilitySeries(bars);
    HistVolNonNegative(bars);
    var last := |histVol| - 1;
    assert Last(LegacyVolRegimeOf(histVol)) == histVol[last];
    assert Last(LegacyVolZScoreOf(histVol)) == Sub(histVol[last], Fin(1.0));
    RuleOnVolatility(histVol[last], Last(LegacyAtrRatioOf(bars)));
  }

  // ---------------------------------------------------------------------
  // The analyzer

  /** The earlier analyzeTechnicals after the fetch. */
  function AnalyzeTechnicalsLegacyOf(bars: seq<Bar>): Result<TechnicalReport> {
    if bars == [] then Error("No price data found")
    else Ok(TechnicalReportOf(LegacyTrendSignalsOf(bars), LegacyMeanReversionSignalsOf(bars),
                              LegacyMomentumSignalsOf(bars), LegacyVolatilitySignalsOf(bars)))
  }

  /** The earlier analyzer fails exactly on an empty price list; otherwise
      its percentages lie in [0, 100], its trend and mean-reversion reports
      are the live ones, and its volatility report is never bullish and is
      bearish exactly when the last historical volatility exceeds 2. */
  lemma AnalyzeTechnicalsLegacyMeaning(bars: seq<Bar>)
    ensures AnalyzeTechnicalsLegacyOf(bars).Error? <==> bars == []
    ensures bars == [] ==> AnalyzeTechnicalsLegacyOf(bars) == Error("No price data found")
    ensures AnalyzeTechnicalsLegacyOf(bars).Ok? ==>
              var report := AnalyzeTechnicalsLegacyOf(bars).value;
              var live := AnalyzeTechnicalsOf(bars).value;
              PercentagesInRange(report) &&
              report.trendFollowing == live.trendFollowing &&
              report.meanReversion == live.meanReversion &&
              report.volatility.signal != Bullish &&
              (report.volatility.signal == Bearish <==> Gt(Last(HistVolOf(bars)), Fin(2.0)))
  {
    if bars != [] {
      LegacyTrendAndMeanReversionAgree(bars);
      TrendConfidenceRange(bars);
      LegacyVolatilityDecision(bars);
      ReportInRange(LegacyTrendSignalsOf(bars), LegacyMeanReversionSignalsOf(bars),
                    LegacyMomentumSignalsOf(bars), LegacyVolatilitySignalsOf(bars));
    }
  }
}
