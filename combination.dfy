/** weightedSignalCombination, as both versions of the technical analyzer
    define it: each strategy contributes value * weight * confidence to a
    weighted sum and weight * confidence to a total, and the final score is
    their ratio. The older version looks the signal value up with `?? 0`;
    with the three-valued `Signal` every lookup succeeds, so the two agree. */
module Combination {
  import opened JsNumber
  import opened Signals

  /** One strategy's entry: its signal, its weight and its confidence. */
  datatype Weighted = Weighted(signal: Signal, weight: real, confidence: real)

  datatype Combined = Combined(signal: Signal, confidence: real)

  /** The weighted sum after the first |items| strategies. */
  function WeightedSumOf(items: seq<Weighted>): real {
    if items == [] then 0.0
    else
      var last := items[|items| - 1];
      WeightedSumOf(items[..|items| - 1]) + SignalValue(last.signal) * last.weight * last.confidence
  }

  /** The total confidence after the first |items| strategies. */
  function TotalConfidenceOf(items: seq<Weighted>): real {
    if items == [] then 0.0
    else
      var last := items[|items| - 1];
      TotalConfidenceOf(items[..|items| - 1]) + last.weight * last.confidence
  }

  /** The weighted sum over the total, or 0 unless the total is positive. */
  function FinalScore(items: seq<Weighted>): real {
    var total := TotalConfidenceOf(items);
    if total > 0.0 then WeightedSumOf(items) / total else 0.0
  }

  function ScoreSignal(score: real): Signal {
    if score > 0.2 then Bullish else if score < -0.2 then Bearish else Neutral
  }

  function CombineOf(items: seq<Weighted>): Combined {
    var score := FinalScore(items);
    Combined(ScoreSignal(score), if score < 0.0 then -score else score)
  }

  method WeightedSignalCombination(items: seq<Weighted>) returns (combined: Combined)
    ensures combined == CombineOf(items)
  {
    var weightedSum := 0.0;
    var totalConfidence := 0.0;
    for i := 0 to |items|
      invariant weightedSum == WeightedSumOf(items[..i])
      invariant totalConfidence == TotalConfidenceOf(items[..i])
    {
      assert items[..i + 1][..i] == items[..i];
      var numericSignal := SignalValue(items[i].signal);
      var weight := items[i].weight;
      var confidence := items[i].confidence;
      weightedSum := weightedSum + numericSignal * weight * confidence;
      totalConfidence := totalConfidence + weight * confidence;
    }
    assert items[..|items|] == items;
    var finalScore := 0.0;
    if totalConfidence > 0.0 {
      finalScore := weightedSum / totalConfidence;
    }
    var signal := Neutral;
    if finalScore > 0.2 {
      signal := Bullish;
    } else if finalScore < -0.2 {
      signal := Bearish;
    }
    combined := Combined(signal, if finalScore < 0.0 then -finalScore else finalScore);
  }

  predicate NonNegative(items: seq<Weighted>) {
    forall k :: 0 <= k < |items| ==> items[k].weight >= 0.0 && items[k].confidence >= 0.0
  }

  lemma ContributionBounded(value: real, weight: real, confidence: real)
    requires -1.0 <= value <= 1.0 && weight >= 0.0 && confidence >= 0.0
    ensures -(weight * confidence) <= value * weight * confidence <= weight * confidence
  {
    var wc := weight * confidence;
    assert wc >= 0.0;
    assert value * weight * confidence == value * wc;
    assert wc - value * wc == (1.0 - value) * wc;
    assert wc + value * wc == (1.0 + value) * wc;
  }

  /** With non-negative weights and confidences, the weighted sum never
      exceeds the total confidence in size. */
  lemma {:induction false} WeightedSumBounded(items: seq<Weighted>)
    requires NonNegative(items)
    ensures -TotalConfidenceOf(items) <= WeightedSumOf(items) <= TotalConfidenceOf(items)
  {
    if items != [] {
      var last := items[|items| - 1];
      WeightedSumBounded(items[..|items| - 1]);
      ContributionBounded(SignalValue(last.signal), last.weight, last.confidence);
    }
  }

  /** With non-negative weights and confidences the final score lies in
      [-1, 1], so the combined confidence lies in [0, 1]. */
  lemma FinalScoreBounded(items: seq<Weighted>)
    requires NonNegative(items)
    ensures -1.0 <= FinalScore(items) <= 1.0
    ensures 0.0 <= CombineOf(items).confidence <= 1.0
  {
    var total := TotalConfidenceOf(items);
    WeightedSumBounded(items);
    if total > 0.0 {
      RatioWithin(WeightedSumOf(items), total);
    }
  }

  /** The combined signal read off the sums: bullish exactly when the total
      is positive and the weighted sum exceeds a fifth of it, bearish
      exactly when it is below minus a fifth, and the confidence is the size
      of their ratio. With no positive total the result is neutral with
      confidence 0. */
  lemma CombinedThresholds(items: seq<Weighted>)
    ensures var total := TotalConfidenceOf(items);
            var sum := WeightedSumOf(items);
            (CombineOf(items).signal == Bullish <==> total > 0.0 && sum > 0.2 * total) &&
            (CombineOf(items).signal == Bearish <==> total > 0.0 && sum < -0.2 * total) &&
            (total <= 0.0 ==> CombineOf(items) == Combined(Neutral, 0.0))
  {
    var total := TotalConfidenceOf(items);
    var sum := WeightedSumOf(items);
    if total > 0.0 {
      var q := sum / total;
      assert q * total == sum;
      assert q > 0.2 <==> sum > 0.2 * total by {
        if q > 0.2 {
          assert q * total > 0.2 * total;
        } else {
          assert q * total <= 0.2 * total;
        }
      }
      assert q < -0.2 <==> sum < -0.2 * total by {
        if q < -0.2 {
          assert q * total < -0.2 * total;
        } else {
          assert q * total >= -0.2 * total;
        }
      }
    }
  }

  /** When every strategy with a positive weight and confidence says the same
      decisive thing, the final score is that signal's value: unanimous
      bullish strategies give a bullish signal with confidence 1. */
  lemma {:induction false} UnanimousSums(items: seq<Weighted>, s: Signal)
    requires forall k :: 0 <= k < |items| ==> items[k].signal == s
    ensures WeightedSumOf(items) == SignalValue(s) * TotalConfidenceOf(items)
  {
    if items != [] {
      UnanimousSums(items[..|items| - 1], s);
      var last := items[|items| - 1];
      assert SignalValue(s) * last.weight * last.confidence == SignalValue(s) * (last.weight * last.confidence);
    }
  }

  lemma Unanimous(items: seq<Weighted>, s: Signal)
    requires forall k :: 0 <= k < |items| ==> items[k].signal == s
    requires TotalConfidenceOf(items) > 0.0
    ensures CombineOf(items) == Combined(s, if s == Neutral then 0.0 else 1.0)
  {
    UnanimousSums(items, s);
    var total := TotalConfidenceOf(items);
    assert WeightedSumOf(items) / total == SignalValue(s) by {
      assert SignalValue(s) * total / total == SignalValue(s);
    }
  }
}
