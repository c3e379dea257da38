/** Price bars and the indicators computed from them: true range and
    directional movement, the Average Directional Index, the Average True
    Range, Bollinger Bands and the Relative Strength Index.

    Both versions of the technical analyzer share these loops unchanged;
    the `?? 0` fallbacks the newer version adds only apply to indexes that
    are out of range, which none of the loops reads. Every loop is a method
    proved equal to a specification function, and the indicator's
    properties are lemmas about that function. */
module Indicators {
  import opened JsNumber
  import opened Rolling
  import opened Variance

  /** One daily price record; pricesToDf splits a list of them into columns. */
  datatype Bar = Bar(open: real, high: real, low: real, close: real, volume: real)

  function Closes(bars: seq<Bar>): (r: seq<real>)
    ensures |r| == |bars|
    ensures forall i :: 0 <= i < |bars| ==> r[i] == bars[i].close
  {
    seq(|bars|, i requires 0 <= i < |bars| => bars[i].close)
  }

  function Volumes(bars: seq<Bar>): (r: seq<real>)
    ensures |r| == |bars|
    ensures forall i :: 0 <= i < |bars| ==> r[i] == bars[i].volume
  {
    seq(|bars|, i requires 0 <= i < |bars| => bars[i].volume)
  }

  function AbsReal(x: real): real {
    if x < 0.0 then -x else x
  }

  /** `Math.max(a, b, c)` on finite numbers. */
  function Max3(a: real, b: real, c: real): real {
    if a >= b && a >= c then a else if b >= c then b else c
  }

  // ---------------------------------------------------------------------
  // True range and directional movement

  /** The true range of bar i: 0 for the first bar, otherwise the largest of
      the bar's own range and its distances from the previous close. */
  function TrueRangeAt(bars: seq<Bar>, i: nat): real
    requires i < |bars|
  {
    if i == 0 then 0.0
    else
      var previousClose := bars[i - 1].close;
      Max3(bars[i].high - bars[i].low, AbsReal(bars[i].high - previousClose), AbsReal(bars[i].low - previousClose))
  }

  function UpMove(bars: seq<Bar>, i: nat): real
    requires 0 < i < |bars|
  {
    bars[i].high - bars[i - 1].high
  }

  function DownMove(bars: seq<Bar>, i: nat): real
    requires 0 < i < |bars|
  {
    bars[i - 1].low - bars[i].low
  }

  /** +DM: the up-move when it is positive and beats the down-move, else 0. */
  function PlusDmAt(bars: seq<Bar>, i: nat): real
    requires i < |bars|
  {
    if i == 0 then 0.0
    else if UpMove(bars, i) > DownMove(bars, i) && UpMove(bars, i) > 0.0 then UpMove(bars, i)
    else 0.0
  }

  /** -DM: the down-move when it is positive and beats the up-move, else 0. */
  function MinusDmAt(bars: seq<Bar>, i: nat): real
    requires i < |bars|
  {
    if i == 0 then 0.0
    else if DownMove(bars, i) > UpMove(bars, i) && DownMove(bars, i) > 0.0 then DownMove(bars, i)
    else 0.0
  }

  function TrueRangesOf(bars: seq<Bar>): (r: seq<real>)
    ensures |r| == |bars|
  {
    seq(|bars|, i requires 0 <= i < |bars| => TrueRangeAt(bars, i))
  }

  function PlusDmsOf(bars: seq<Bar>): (r: seq<real>)
    ensures |r| == |bars|
  {
    seq(|bars|, i requires 0 <= i < |bars| => PlusDmAt(bars, i))
  }

  function MinusDmsOf(bars: seq<Bar>): (r: seq<real>)
    ensures |r| == |bars|
  {
    seq(|bars|, i requires 0 <= i < |bars| => MinusDmAt(bars, i))
  }

  /** The true range is 0 on the first bar; on every later bar it is at
      least each of the three candidate ranges and equal to one of them, so
      it is never negative. */
  lemma TrueRangeIsLargestRange(bars: seq<Bar>)
    ensures bars != [] ==> TrueRangesOf(bars)[0] == 0.0
    ensures forall i :: 0 <= i < |bars| ==> TrueRangesOf(bars)[i] >= 0.0
    ensures forall i :: 0 < i < |bars| ==>
              var tr := TrueRangesOf(bars)[i];
              var pc := bars[i - 1].close;
              tr >= bars[i].high - bars[i].low && tr >= AbsReal(bars[i].high - pc) && tr >= AbsReal(bars[i].low - pc) &&
              (tr == bars[i].high - bars[i].low || tr == AbsReal(bars[i].high - pc) || tr == AbsReal(bars[i].low - pc))
  {
  }

  /** Directional movement is never negative, +DM and -DM are never both
      positive, and each is positive exactly when its move is positive and
      the larger of the two. */
  lemma DirectionalMovementExclusive(bars: seq<Bar>)
    ensures forall i :: 0 <= i < |bars| ==> PlusDmsOf(bars)[i] >= 0.0 && MinusDmsOf(bars)[i] >= 0.0
    ensures forall i :: 0 <= i < |bars| ==> !(PlusDmsOf(bars)[i] > 0.0 && MinusDmsOf(bars)[i] > 0.0)
    ensures forall i :: 0 < i < |bars| ==>
              (PlusDmsOf(bars)[i] > 0.0 <==> UpMove(bars, i) > DownMove(bars, i) && UpMove(bars, i) > 0.0)
    ensures forall i :: 0 < i < |bars| ==>
              (MinusDmsOf(bars)[i] > 0.0 <==> DownMove(bars, i) > UpMove(bars, i) && DownMove(bars, i) > 0.0)
  {
  }

  // ---------------------------------------------------------------------
  // calculateAdx

  datatype Directional = Directional(plusDi: real, minusDi: real, dx: real)

  /** DI+, DI- and DX at one position, from the smoothed true range and the
      smoothed directional movements; a zero true range gives all zeros. */
  function DirectionalAt(trueRange: real, plusDm: real, minusDm: real): Directional {
    if trueRange == 0.0 then Directional(0.0, 0.0, 0.0)
    else
      var pdi := plusDm / trueRange * 100.0;
      var mdi := minusDm / trueRange * 100.0;
      var sum := pdi + mdi;
      Directional(pdi, mdi, if sum == 0.0 then 0.0 else AbsReal(pdi - mdi) / sum * 100.0)
  }

  /** DI+, DI- and DX at every position of three equally long smoothed series. */
  function DirectionalsFrom(trueRangeEma: seq<real>, plusDmEma: seq<real>, minusDmEma: seq<real>): (r: seq<Directional>)
    requires |plusDmEma| == |trueRangeEma| && |minusDmEma| == |trueRangeEma|
    ensures |r| == |trueRangeEma|
  {
    seq(|trueRangeEma|, i requires 0 <= i < |trueRangeEma| => DirectionalAt(trueRangeEma[i], plusDmEma[i], minusDmEma[i]))
  }

  function DirectionalsOf(bars: seq<Bar>, period: nat): (r: seq<Directional>)
    ensures |r| == |bars|
  {
    DirectionalsFrom(EmaOf(TrueRangesOf(bars), period), EmaOf(PlusDmsOf(bars), period), EmaOf(MinusDmsOf(bars), period))
  }

  function PlusDis(ds: seq<Directional>): (r: seq<real>)
    ensures |r| == |ds|
    ensures forall i :: 0 <= i < |ds| ==> r[i] == ds[i].plusDi
  {
    seq(|ds|, i requires 0 <= i < |ds| => ds[i].plusDi)
  }

  function MinusDis(ds: seq<Directional>): (r: seq<real>)
    ensures |r| == |ds|
    ensures forall i :: 0 <= i < |ds| ==> r[i] == ds[i].minusDi
  {
    seq(|ds|, i requires 0 <= i < |ds| => ds[i].minusDi)
  }

  function Dxs(ds: seq<Directional>): (r: seq<real>)
    ensures |r| == |ds|
    ensures forall i :: 0 <= i < |ds| ==> r[i] == ds[i].dx
  {
    seq(|ds|, i requires 0 <= i < |ds| => ds[i].dx)
  }

  datatype Adx = Adx(adx: seq<real>, plusDi: seq<real>, minusDi: seq<real>)

  /** The output of calculateAdx: ADX is the EMA of DX with the same period. */
  function AdxOf(bars: seq<Bar>, period: nat): Adx {
    var ds := DirectionalsOf(bars, period);
    Adx(EmaOf(Dxs(ds), period), PlusDis(ds), MinusDis(ds))
  }

  /** The first loop of calculateAdx: true range, +DM and -DM of every bar. */
  method DirectionalMovement(bars: seq<Bar>) returns (trueRange: seq<real>, plusDm: seq<real>, minusDm: seq<real>)
    ensures trueRange == TrueRangesOf(bars)
    ensures plusDm == PlusDmsOf(bars)
    ensures minusDm == MinusDmsOf(bars)
  {
    trueRange := [];
    plusDm := [];
    minusDm := [];
    for i := 0 to |bars|
      invariant trueRange == TrueRangesOf(bars)[..i]
      invariant plusDm == PlusDmsOf(bars)[..i]
      invariant minusDm == MinusDmsOf(bars)[..i]
    {
      PrefixGrows(TrueRangesOf(bars), i);
      PrefixGrows(PlusDmsOf(bars), i);
      PrefixGrows(MinusDmsOf(bars), i);
      if i == 0 {
        trueRange := trueRange + [0.0];
        plusDm := plusDm + [0.0];
        minusDm := minusDm + [0.0];
      } else {
        var currentHigh := bars[i].high;
        var currentLow := bars[i].low;
        var previousClose := bars[i - 1].close;
        var highLow := currentHigh - currentLow;
        var highClose := AbsReal(currentHigh - previousClose);
        var lowClose := AbsReal(currentLow - previousClose);
        trueRange := trueRange + [Max3(highLow, highClose, lowClose)];
        var upMove := currentHigh - bars[i - 1].high;
        var downMove := bars[i - 1].low - currentLow;
        if upMove > downMove && upMove > 0.0 {
          plusDm := plusDm + [upMove];
        } else {
          plusDm := plusDm + [0.0];
        }
        if downMove > upMove && downMove > 0.0 {
          minusDm := minusDm + [downMove];
        } else {
          minusDm := minusDm + [0.0];
        }
      }
    }
  }

  /** The second loop of calculateAdx: DI+, DI- and DX from the smoothed series. */
  method DirectionalIndicators(trueRangeEma: seq<real>, plusDmEma: seq<real>, minusDmEma: seq<real>)
    returns (plusDi: seq<real>, minusDi: seq<real>, dx: seq<real>)
    requires |plusDmEma| == |trueRangeEma| && |minusDmEma| == |trueRangeEma|
    ensures plusDi == PlusDis(DirectionalsFrom(trueRangeEma, plusDmEma, minusDmEma))
    ensures minusDi == MinusDis(DirectionalsFrom(trueRangeEma, plusDmEma, minusDmEma))
    ensures dx == Dxs(DirectionalsFrom(trueRangeEma, plusDmEma, minusDmEma))
  {
    ghost var ds := DirectionalsFrom(trueRangeEma, plusDmEma, minusDmEma);
    plusDi := [];
    minusDi := [];
    dx := [];
    for i := 0 to |trueRangeEma|
      invariant plusDi == PlusDis(ds)[..i]
      invariant minusDi == MinusDis(ds)[..i]
      invariant dx == Dxs(ds)[..i]
    {
      PrefixGrows(PlusDis(ds), i);
      PrefixGrows(MinusDis(ds), i);
      PrefixGrows(Dxs(ds), i);
      if trueRangeEma[i] == 0.0 {
        plusDi := plusDi + [0.0];
        minusDi := minusDi + [0.0];
        dx := dx + [0.0];
      } else {
        var pdi := plusDmEma[i] / trueRangeEma[i] * 100.0;
        var mdi := minusDmEma[i] / trueRangeEma[i] * 100.0;
        plusDi := plusDi + [pdi];
        minusDi := minusDi + [mdi];
        var diff := AbsReal(pdi - mdi);
        var sum := pdi + mdi;
        dx := dx + [if sum == 0.0 then 0.0 else diff / sum * 100.0];
      }
    }
  }

  method CalculateAdx(bars: seq<Bar>, period: nat) returns (result: Adx)
    ensures result == AdxOf(bars, period)
  {
    var trueRange, plusDm, minusDm := DirectionalMovement(bars);
    var trueRangeEma := CalculateEma(trueRange, period);
    var plusDmEma := CalculateEma(plusDm, period);
    var minusDmEma := CalculateEma(minusDm, period);
    var plusDi, minusDi, dx := DirectionalIndicators(trueRangeEma, plusDmEma, minusDmEma);
    var adx := CalculateEma(dx, period);
    result := Adx(adx, plusDi, minusDi);
  }

  /** With non-negative smoothed inputs, DI+ and DI- are non-negative and DX
      lies in [0, 100]; DX is 0 exactly when the two indicators agree. */
  lemma DirectionalBounds(trueRange: real, plusDm: real, minusDm: real)
    requires trueRange >= 0.0 && plusDm >= 0.0 && minusDm >= 0.0
    ensures DirectionalAt(trueRange, plusDm, minusDm).plusDi >= 0.0
    ensures DirectionalAt(trueRange, plusDm, minusDm).minusDi >= 0.0
    ensures 0.0 <= DirectionalAt(trueRange, plusDm, minusDm).dx <= 100.0
    ensures DirectionalAt(trueRange, plusDm, minusDm).dx == 0.0 <==>
              DirectionalAt(trueRange, plusDm, minusDm).plusDi == DirectionalAt(trueRange, plusDm, minusDm).minusDi
  {
    if trueRange != 0.0 {
      var pdi := plusDm / trueRange * 100.0;
      var mdi := minusDm / trueRange * 100.0;
      assert pdi >= 0.0 && mdi >= 0.0;
      var sum := pdi + mdi;
      if sum != 0.0 {
        var q := AbsReal(pdi - mdi) / sum;
        assert AbsReal(pdi - mdi) <= sum;
        assert 0.0 <= q <= 1.0 by {
          assert q * sum == AbsReal(pdi - mdi);
        }
        assert q == 0.0 <==> pdi == mdi by {
          assert q * sum == AbsReal(pdi - mdi);
        }
      }
    }
  }

  /** For a period of at least 1, every ADX value lies in [0, 100]. */
  lemma AdxBounds(bars: seq<Bar>, period: nat)
    requires period >= 1
    ensures |AdxOf(bars, period).adx| == |bars|
    ensures forall i :: 0 <= i < |bars| ==> 0.0 <= AdxOf(bars, period).adx[i] <= 100.0
  {
    TrueRangeIsLargestRange(bars);
    DirectionalMovementExclusive(bars);
    EmaNonNegative(TrueRangesOf(bars), period);
    EmaNonNegative(PlusDmsOf(bars), period);
    EmaNonNegative(MinusDmsOf(bars), period);
    var ds := DirectionalsOf(bars, period);
    forall k | 0 <= k < |bars|
      ensures 0.0 <= Dxs(ds)[k] <= 100.0
    {
      DirectionalBounds(EmaOf(TrueRangesOf(bars), period)[k], EmaOf(PlusDmsOf(bars), period)[k],
                        EmaOf(MinusDmsOf(bars), period)[k]);
    }
    EmaWithin(Dxs(ds), period, 0.0, 100.0);
  }

  // ---------------------------------------------------------------------
  // calculateAtr

  /** The output of calculateAtr: a simple rolling mean of the true range. */
  function AtrOf(bars: seq<Bar>, period: nat): (r: seq<Num>)
    ensures |r| == |bars|
  {
    RollingMeanOf(Lift(TrueRangesOf(bars)), period)
  }

  method CalculateAtr(bars: seq<Bar>, period: nat) returns (atr: seq<Num>)
    ensures atr == AtrOf(bars, period)
  {
    var trueRange: seq<real> := [];
    for i := 0 to |bars|
      invariant trueRange == TrueRangesOf(bars)[..i]
    {
      PrefixGrows(TrueRangesOf(bars), i);
      if i == 0 {
        trueRange := trueRange + [0.0];
      } else {
        var currentHigh := bars[i].high;
        var currentLow := bars[i].low;
        var previousClose := bars[i - 1].close;
        var highLow := currentHigh - currentLow;
        var highClose := AbsReal(currentHigh - previousClose);
        var lowClose := AbsReal(currentLow - previousClose);
        trueRange := trueRange + [Max3(highLow, highClose, lowClose)];
      }
    }
    assert trueRange == TrueRangesOf(bars);
    atr := RollingMean(Lift(trueRange), period);
  }

  /** ATR is NaN for the first `period - 1` bars and afterwards the mean true
      range of the last `period` bars, which is never negative. */
  lemma AtrMeaning(bars: seq<Bar>, period: nat)
    requires period > 0
    ensures forall i :: 0 <= i < |bars| && i < period - 1 ==> AtrOf(bars, period)[i].NaN?
    ensures forall i :: 0 <= i < |bars| && period - 1 <= i ==>
              AtrOf(bars, period)[i] == Fin(Sum(TrueRangesOf(bars)[i + 1 - period..i + 1]) / period as real)
    ensures forall i :: 0 <= i < |bars| && period - 1 <= i ==> AtrOf(bars, period)[i].v >= 0.0
  {
    var tr := TrueRangesOf(bars);
    TrueRangeIsLargestRange(bars);
    assert Values(Lift(tr)) == tr;
    RollingMeanFinite(Lift(tr), period);
    RollingMeanNaN(Lift(tr), period);
    forall i | 0 <= i < |bars| && period - 1 <= i
      ensures AtrOf(bars, period)[i].v >= 0.0
    {
      var window := tr[i + 1 - period..i + 1];
      SumNonNegative(window);
      assert Sum(window) / period as real >= 0.0;
    }
  }

  // ---------------------------------------------------------------------
  // calculateBollingerBands

  /** The upper band at position i: NaN when the rolling mean or standard
      deviation is NaN, otherwise mean + 2 std. */
  function UpperBandOf(values: seq<real>, window: nat): (r: seq<Num>)
    ensures |r| == |values|
  {
    var sma := RollingMeanOf(Lift(values), window);
    var std := RollingStdOf(Lift(values), window);
    seq(|values|, i requires 0 <= i < |values| =>
      if sma[i].NaN? || std[i].NaN? then NaN else Add(sma[i], Mul(Fin(2.0), std[i])))
  }

  /** The lower band: mean - 2 std, with the same NaN rule. */
  function LowerBandOf(values: seq<real>, window: nat): (r: seq<Num>)
    ensures |r| == |values|
  {
    var sma := RollingMeanOf(Lift(values), window);
    var std := RollingStdOf(Lift(values), window);
    seq(|values|, i requires 0 <= i < |values| =>
      if sma[i].NaN? || std[i].NaN? then NaN else Sub(sma[i], Mul(Fin(2.0), std[i])))
  }

  method CalculateBollingerBands(values: seq<real>, window: nat) returns (upperBand: seq<Num>, lowerBand: seq<Num>)
    ensures upperBand == UpperBandOf(values, window)
    ensures lowerBand == LowerBandOf(values, window)
  {
    var sma := RollingMean(Lift(values), window);
    var standardDeviation := RollingStd(Lift(values), window);
    upperBand := [];
    lowerBand := [];
    for i := 0 to |values|
      invariant upperBand == UpperBandOf(values, window)[..i]
      invariant lowerBand == LowerBandOf(values, window)[..i]
    {
      PrefixGrows(UpperBandOf(values, window), i);
      PrefixGrows(LowerBandOf(values, window), i);
      var mean := sma[i];
      var std := standardDeviation[i];
      if mean.NaN? || std.NaN? {
        upperBand := upperBand + [NaN];
        lowerBand := lowerBand + [NaN];
      } else {
        upperBand := upperBand + [Add(mean, Mul(Fin(2.0), std))];
        lowerBand := lowerBand + [Sub(mean, Mul(Fin(2.0), std))];
      }
    }
  }

  /** The bands at one position after warm-up, for finite inputs. */
  lemma BandsAt(values: seq<real>, window: nat, i: nat)
    requires window > 0 && window - 1 <= i < |values|
    ensures var slice := values[i + 1 - window..i + 1];
            var mean := Sum(slice) / window as real;
            var std := Sqrt(PopulationVariance(slice));
            UpperBandOf(values, window)[i] == Fin(mean + 2.0 * std) &&
            LowerBandOf(values, window)[i] == Fin(mean - 2.0 * std)
  {
    assert Values(Lift(values)) == values;
    RollingMeanFinite(Lift(values), window);
    RollingStdFinite(Lift(values), window);
  }

  /** The bands are NaN during warm-up; afterwards they lie two population
      standard deviations above and below the window mean, so the upper band
      is never below the lower one. */
  lemma BollingerBandsMeaning(values: seq<real>, window: nat)
    requires window > 0
    ensures forall i :: 0 <= i < |values| && i < window - 1 ==>
              UpperBandOf(values, window)[i].NaN? && LowerBandOf(values, window)[i].NaN?
    ensures forall i :: 0 <= i < |values| && window - 1 <= i ==>
              var slice := values[i + 1 - window..i + 1];
              var mean := Sum(slice) / window as real;
              var std := Sqrt(PopulationVariance(slice));
              UpperBandOf(values, window)[i] == Fin(mean + 2.0 * std) &&
              LowerBandOf(values, window)[i] == Fin(mean - 2.0 * std) &&
              std >= 0.0 &&
              UpperBandOf(values, window)[i].v >= LowerBandOf(values, window)[i].v
  {
    RollingMeanNaN(Lift(values), window);
    forall i | 0 <= i < |values| && window - 1 <= i
      ensures var slice := values[i + 1 - window..i + 1];
              var mean := Sum(slice) / window as real;
              var std := Sqrt(PopulationVariance(slice));
              UpperBandOf(values, window)[i] == Fin(mean + 2.0 * std) &&
              LowerBandOf(values, window)[i] == Fin(mean - 2.0 * std)
    {
      BandsAt(values, window, i);
    }
  }

  // ---------------------------------------------------------------------
  // calculateRsi

  /** The gain of the move from close[j] to close[j + 1] (0 on a fall). */
  function GainAt(close: seq<real>, j: nat): real
    requires j + 1 < |close|
  {
    var delta := close[j + 1] - close[j];
    if delta > 0.0 then delta else 0.0
  }

  /** The loss of the move from close[j] to close[j + 1] (0 on a rise). */
  function LossAt(close: seq<real>, j: nat): real
    requires j + 1 < |close|
  {
    var delta := close[j + 1] - close[j];
    if delta < 0.0 then -delta else 0.0
  }

  function Moves(close: seq<real>): nat {
    if close == [] then 0 else |close| - 1
  }

  function GainsOf(close: seq<real>): (r: seq<real>)
    ensures |r| == Moves(close)
  {
    seq(Moves(close), j requires 0 <= j < Moves(close) => GainAt(close, j))
  }

  function LossesOf(close: seq<real>): (r: seq<real>)
    ensures |r| == Moves(close)
  {
    seq(Moves(close), j requires 0 <= j < Moves(close) => LossAt(close, j))
  }

  /** RSI at position i: NaN at 0; otherwise from the mean gain and mean loss
      of the last `period` moves up to i, and 100 when the mean loss is 0. */
  function RsiAt(close: seq<real>, period: nat, i: nat): Num
    requires i < |close|
  {
    if i == 0 then NaN
    else
      RsiFromMeans(MeanOf(GainsOf(close)[Lo(i, period)..i]), MeanOf(LossesOf(close)[Lo(i, period)..i]))
  }

  /** 100 - 100 / (1 + RS) with RS the ratio of the mean gain to the mean
      loss, and 100 when the mean loss is 0. */
  function RsiFromMeans(averageGain: real, averageLoss: real): Num {
    if averageLoss == 0.0 then Fin(100.0)
    else Sub(Fin(100.0), Div(Fin(100.0), Fin(1.0 + averageGain / averageLoss)))
  }

  function RsiOf(close: seq<real>, period: nat): (r: seq<Num>)
    ensures |r| == |close|
  {
    seq(|close|, i requires 0 <= i < |close| => RsiAt(close, period, i))
  }

  /** Pushing the next value onto the window of the last `period` values,
      then dropping the oldest when there are too many, gives the next window. */
  lemma QueueStep<T>(values: seq<T>, period: nat, k: nat, queue: seq<T>)
    requires k < |values| && queue == values[Lo(k, period)..k]
    ensures |queue + [values[k]]| > period ==> (queue + [values[k]])[1..] == values[Lo(k + 1, period)..k + 1]
    ensures |queue + [values[k]]| <= period ==> queue + [values[k]] == values[Lo(k + 1, period)..k + 1]
    ensures |queue + [values[k]]| == k + 1 - Lo(k, period)
  {
    WindowAdvances(values, period, k);
  }

  method CalculateRsi(close: seq<real>, period: nat) returns (rsi: seq<Num>)
    ensures rsi == RsiOf(close, period)
  {
    rsi := [];
    var gainsQueue: seq<real> := [];
    var lossesQueue: seq<real> := [];
    for i := 0 to |close|
      invariant rsi == RsiOf(close, period)[..i]
      invariant i == 0 ==> gainsQueue == [] && lossesQueue == []
      invariant i > 0 ==> gainsQueue == GainsOf(close)[Lo(i - 1, period)..i - 1]
      invariant i > 0 ==> lossesQueue == LossesOf(close)[Lo(i - 1, period)..i - 1]
      invariant |gainsQueue| <= period && |lossesQueue| <= period
    {
      PrefixGrows(RsiOf(close, period), i);
      if i == 0 {
        rsi := rsi + [NaN];
      } else {
        var next;
        next, gainsQueue, lossesQueue := RsiStep(close, period, i, gainsQueue, lossesQueue);
        rsi := rsi + [next];
      }
    }
  }

  /** One step of the RSI loop after the first close: push today's gain and
      loss, drop the oldest move once more than `period` are held, and
      compute the RSI from the two queues' means. */
  method RsiStep(close: seq<real>, period: nat, i: nat, gainsQueue: seq<real>, lossesQueue: seq<real>)
    returns (next: Num, gains: seq<real>, losses: seq<real>)
    requires 0 < i < |close|
    requires gainsQueue == GainsOf(close)[Lo(i - 1, period)..i - 1]
    requires lossesQueue == LossesOf(close)[Lo(i - 1, period)..i - 1]
    ensures gains == GainsOf(close)[Lo(i, period)..i]
    ensures losses == LossesOf(close)[Lo(i, period)..i]
    ensures next == RsiAt(close, period, i)
  {
    QueueStep(GainsOf(close), period, i - 1, gainsQueue);
    QueueStep(LossesOf(close), period, i - 1, lossesQueue);
    var delta := close[i] - close[i - 1];
    var gain := if delta > 0.0 then delta else 0.0;
    var loss := if delta < 0.0 then -delta else 0.0;
    assert gain == GainsOf(close)[i - 1] && loss == LossesOf(close)[i - 1];
    gains := gainsQueue + [gain];
    losses := lossesQueue + [loss];
    if |gains| > period {
      gains := gains[1..];
      losses := losses[1..];
    }
    next := RsiFromQueues(gains, losses);
  }

  /** The RSI of the moves held in the two queues. */
  method RsiFromQueues(gains: seq<real>, losses: seq<real>) returns (next: Num)
    ensures next == RsiFromMeans(MeanOf(gains), MeanOf(losses))
  {
    var averageGain := ArrayMean(gains);
    var averageLoss := ArrayMean(losses);
    if averageLoss == 0.0 {
      next := Fin(100.0);
    } else {
      var relativeStrength := averageGain / averageLoss;
      next := Sub(Fin(100.0), Div(Fin(100.0), Fin(1.0 + relativeStrength)));
    }
  }

  /** The RSI formula on a non-negative mean gain and a positive mean loss
      gives a value in [0, 100). */
  lemma RsiFormulaRange(averageGain: real, averageLoss: real)
    requires averageGain >= 0.0 && averageLoss > 0.0
    ensures var r := Sub(Fin(100.0), Div(Fin(100.0), Fin(1.0 + averageGain / averageLoss)));
            r.Fin? && 0.0 <= r.v < 100.0
  {
    var d := 1.0 + averageGain / averageLoss;
    assert averageGain / averageLoss >= 0.0;
    assert d >= 1.0;
    var q := 100.0 / d;
    assert 0.0 < q <= 100.0 by {
      assert q * d == 100.0;
    }
  }

  /** A stretch of moves has no loss exactly when no close in it fell. */
  lemma NoLossMeansNoFall(close: seq<real>, lo: nat, hi: nat)
    requires lo <= hi <= Moves(close)
    ensures (forall k :: 0 <= k < hi - lo ==> LossesOf(close)[lo..hi][k] == 0.0) <==>
            (forall j :: lo <= j < hi ==> close[j + 1] >= close[j])
  {
    var losses := LossesOf(close)[lo..hi];
    if forall k :: 0 <= k < hi - lo ==> losses[k] == 0.0 {
      forall j | lo <= j < hi
        ensures close[j + 1] >= close[j]
      {
        assert losses[j - lo] == LossAt(close, j);
      }
    }
    if forall j :: lo <= j < hi ==> close[j + 1] >= close[j] {
      forall k | 0 <= k < hi - lo
        ensures losses[k] == 0.0
      {
        assert losses[k] == LossAt(close, lo + k);
      }
    }
  }

  /** Position i of the RSI, for i >= 1: a number in [0, 100] that is 100
      exactly when none of the last `period` moves up to i was a fall. */
  lemma RsiAtRange(close: seq<real>, period: nat, i: nat)
    requires 1 <= i < |close|
    ensures RsiAt(close, period, i).Fin?
    ensures 0.0 <= RsiAt(close, period, i).v <= 100.0
    ensures RsiAt(close, period, i) == Fin(100.0) <==>
              forall j :: Lo(i, period) <= j < i ==> close[j + 1] >= close[j]
  {
    var gains := GainsOf(close)[Lo(i, period)..i];
    var losses := LossesOf(close)[Lo(i, period)..i];
    assert forall k :: 0 <= k < |gains| ==> gains[k] >= 0.0;
    assert forall k :: 0 <= k < |losses| ==> losses[k] >= 0.0;
    MeanNonNegative(gains);
    MeanNonNegative(losses);
    MeanZero(losses);
    NoLossMeansNoFall(close, Lo(i, period), i);
    if MeanOf(losses) != 0.0 {
      RsiFormulaRange(MeanOf(gains), MeanOf(losses));
    }
  }

  /** The RSI is NaN at the first close and afterwards a number in [0, 100]
      that is 100 exactly when the window has no falling move. */
  lemma RsiRange(close: seq<real>, period: nat)
    ensures close != [] ==> RsiOf(close, period)[0].NaN?
    ensures forall i :: 1 <= i < |close| ==>
              RsiOf(close, period)[i].Fin? && 0.0 <= RsiOf(close, period)[i].v <= 100.0
    ensures forall i :: 1 <= i < |close| ==>
              (RsiOf(close, period)[i] == Fin(100.0) <==>
               forall j :: Lo(i, period) <= j < i ==> close[j + 1] >= close[j])
  {
    forall i | 1 <= i < |close|
      ensures RsiOf(close, period)[i].Fin? && 0.0 <= RsiOf(close, period)[i].v <= 100.0
      ensures RsiOf(close, period)[i] == Fin(100.0) <==>
              forall j :: Lo(i, period) <= j < i ==> close[j + 1] >= close[j]
    {
      RsiAtRange(close, period, i);
    }
  }
}
