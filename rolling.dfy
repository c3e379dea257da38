/** Numeric primitives over ordered series, shared by both versions of the
    technical analyzer: percent change, rolling sum/mean/standard deviation
    over a queue-based window, exponential moving average and array mean.

    Each primitive is a loop in the source; here each is a method proved
    equal to a specification function, and the properties of that function
    (window contents, warm-up prefix, NaN behaviour, bounds) are lemmas. */
module Rolling {
  import opened JsNumber
  import opened Variance

  // ---------------------------------------------------------------------
  // pctChange

  /** Relative change at position i; position 0 and a zero predecessor give 0. */
  function ChangeAt(values: seq<real>, i: nat): real
    requires i < |values|
  {
    if i == 0 || values[i - 1] == 0.0 then 0.0
    else (values[i] - values[i - 1]) / values[i - 1]
  }

  /** The output of pctChange: it starts from `[0]`, so an empty input still
      yields one element. */
  function PctChangeOf(values: seq<real>): (r: seq<real>)
    ensures |r| == if values == [] then 1 else |values|
    ensures r[0] == 0.0
  {
    if values == [] then [0.0]
    else seq(|values|, i requires 0 <= i < |values| => ChangeAt(values, i))
  }

  /** pctChange starts at 0, gives 0 after a zero value, and otherwise gives
      the relative change that carries each value to the next one. */
  lemma PctChangeMeaning(values: seq<real>)
    ensures forall i :: 1 <= i < |values| && values[i - 1] == 0.0 ==> PctChangeOf(values)[i] == 0.0
    ensures forall i :: 1 <= i < |values| && values[i - 1] != 0.0 ==>
              values[i] == values[i - 1] * (1.0 + PctChangeOf(values)[i])
  {
    forall k | 1 <= k < |values| && values[k - 1] != 0.0
      ensures values[k] == values[k - 1] * (1.0 + PctChangeOf(values)[k])
    {
      ChangeInverts(values[k - 1], values[k]);
    }
  }

  method PctChange(values: seq<real>) returns (changes: seq<real>)
    ensures changes == PctChangeOf(values)
  {
    changes := [0.0];
    var i := 1;
    while i < |values|
      invariant 1 <= i <= if values == [] then 1 else |values|
      invariant |changes| == i
      invariant changes[0] == 0.0
      invariant forall k :: 1 <= k < i ==> changes[k] == ChangeAt(values, k)
    {
      var previous := values[i - 1];
      changes := changes + [if previous != 0.0 then (values[i] - previous) / previous else 0.0];
      i := i + 1;
    }
  }

  lemma ChangeInverts(previous: real, current: real)
    requires previous != 0.0
    ensures current == previous * (1.0 + (current - previous) / previous)
  {
    calc {
      previous * (1.0 + (current - previous) / previous);
      previous + previous * ((current - previous) / previous);
      previous + (current - previous);
    }
  }

  // ---------------------------------------------------------------------
  // rollingSum / rollingMean / rollingStd

  /** First index of the window after k values have been pushed. */
  function Lo(k: nat, window: nat): nat {
    if k > window then k - window else 0
  }

  /** The running `sum` after the loop has processed the first k values:
      each value is added, and once the queue is longer than `window` its
      oldest value is subtracted. */
  function RunningSum(values: seq<Num>, window: nat, k: nat): Num
    requires k <= |values|
  {
    if k == 0 then Fin(0.0)
    else
      var s := Add(RunningSum(values, window, k - 1), values[k - 1]);
      if k > window then Sub(s, values[k - 1 - window]) else s
  }

  /** How the sum of the queue's values changes when one more value is pushed. */
  lemma WindowSumStep(xs: seq<real>, window: nat, k: nat)
    requires 0 < k <= |xs|
    ensures Sum(xs[Lo(k, window)..k]) ==
              if k > window then Sum(xs[Lo(k - 1, window)..k - 1]) + xs[k - 1] - xs[k - 1 - window]
              else Sum(xs[Lo(k - 1, window)..k - 1]) + xs[k - 1]
  {
    if k > window {
      SumShift(xs, k - window, k);
    } else {
      SumGrow(xs, 0, k - 1);
    }
  }

  /** With finite inputs the running sum is exactly the sum of the values in
      the queue, i.e. of the last `window` values. */
  lemma {:induction false} RunningSumWindow(values: seq<Num>, window: nat, k: nat)
    requires AllFinite(values)
    requires k <= |values|
    ensures RunningSum(values, window, k) == Fin(Sum(Values(values)[Lo(k, window)..k]))
  {
    if k > 0 {
      var xs := Values(values);
      RunningSumWindow(values, window, k - 1);
      RunningSumStep(values, window, k - 1);
      WindowSumStep(xs, window, k);
      assert values[k - 1] == Fin(xs[k - 1]);
      if k > window {
        assert values[k - 1 - window] == Fin(xs[k - 1 - window]);
      }
    }
  }

  /** A NaN that has entered the running sum never leaves it. */
  lemma {:induction false} RunningSumNaN(values: seq<Num>, window: nat, j: nat, k: nat)
    requires j < k <= |values| && values[j].NaN?
    ensures RunningSum(values, window, k).NaN?
  {
    if k - 1 > j {
      RunningSumNaN(values, window, j, k - 1);
    }
  }

  /** The running sum after one more value, as the loop updates it. */
  lemma RunningSumStep(values: seq<Num>, window: nat, i: nat)
    requires i < |values|
    ensures RunningSum(values, window, i + 1)
            == if i + 1 > window then Sub(Add(RunningSum(values, window, i), values[i]), values[i - window])
               else Add(RunningSum(values, window, i), values[i])
  {
  }

  /** One step of the loop: push values[i]; if the queue then holds more
      than `window` values, its oldest one is values[i - window]. */
  lemma WindowAdvances<T>(values: seq<T>, window: nat, i: nat)
    requires i < |values|
    ensures |values[Lo(i, window)..i] + [values[i]]| > window <==> i + 1 > window
    ensures i + 1 > window ==> (values[Lo(i, window)..i] + [values[i]])[0] == values[i - window]
    ensures i + 1 > window ==> (values[Lo(i, window)..i] + [values[i]])[1..] == values[Lo(i + 1, window)..i + 1]
    ensures i + 1 <= window ==> values[Lo(i, window)..i] + [values[i]] == values[Lo(i + 1, window)..i + 1]
  {
    assert values[Lo(i, window)..i] + [values[i]] == values[Lo(i, window)..i + 1];
  }

  /** The output of rollingSum: NaN while `i < window - 1`, then the running sum. */
  function RollingSumOf(values: seq<Num>, window: nat): (r: seq<Num>)
    ensures |r| == |values|
  {
    seq(|values|, i requires 0 <= i < |values| =>
      if i < window - 1 then NaN else RunningSum(values, window, i + 1))
  }

  /** With finite inputs, rollingSum emits the sum of the last `window`
      values once the window is full. */
  lemma RollingSumFinite(values: seq<Num>, window: nat)
    requires AllFinite(values)
    ensures forall i :: 0 <= i < |values| && window - 1 <= i ==>
              RollingSumOf(values, window)[i] == Fin(Sum(Values(values)[i + 1 - window..i + 1]))
  {
    forall i | 0 <= i < |values| && window - 1 <= i
      ensures RollingSumOf(values, window)[i] == Fin(Sum(Values(values)[i + 1 - window..i + 1]))
    {
      RunningSumWindow(values, window, i + 1);
    }
  }

  /** rollingSum emits NaN during warm-up, and a NaN input makes every later
      output NaN. */
  lemma RollingSumNaN(values: seq<Num>, window: nat)
    ensures forall i :: 0 <= i < |values| && i < window - 1 ==> RollingSumOf(values, window)[i].NaN?
    ensures forall i, j :: 0 <= j <= i < |values| && values[j].NaN? ==> RollingSumOf(values, window)[i].NaN?
  {
    forall i, j | 0 <= j <= i < |values| && values[j].NaN?
      ensures RollingSumOf(values, window)[i].NaN?
    {
      RunningSumNaN(values, window, j, i + 1);
    }
  }

  method RollingSum(values: seq<Num>, window: nat) returns (sums: seq<Num>)
    ensures sums == RollingSumOf(values, window)
  {
    sums := [];
    var sum := Fin(0.0);
    var queue: seq<Num> := [];
    for i := 0 to |values|
      invariant sums == RollingSumOf(values, window)[..i]
      invariant queue == values[Lo(i, window)..i]
      invariant sum == RunningSum(values, window, i)
    {
      WindowAdvances(values, window, i);
      RunningSumStep(values, window, i);
      PrefixGrows(RollingSumOf(values, window), i);
      var value := values[i];
      queue := queue + [value];
      sum := Add(sum, value);
      if |queue| > window {
        sum := Sub(sum, queue[0]);
        queue := queue[1..];
      }
      if i < window - 1 {
        sums := sums + [NaN];
      } else {
        sums := sums + [sum];
      }
    }
  }

  /** The output of rollingMean: NaN during warm-up, then running sum / window. */
  function RollingMeanOf(values: seq<Num>, window: nat): (r: seq<Num>)
    ensures |r| == |values|
  {
    seq(|values|, i requires 0 <= i < |values| => RollingMeanAt(values, window, i))
  }

  function RollingMeanAt(values: seq<Num>, window: nat, i: nat): Num
    requires i < |values|
  {
    if i < window - 1 then NaN else Div(RunningSum(values, window, i + 1), Fin(window as real))
  }

  /** With finite inputs and a positive window, rollingMean emits the mean
      of the last `window` values once the window is full. */
  lemma RollingMeanFinite(values: seq<Num>, window: nat)
    requires AllFinite(values) && window > 0
    ensures forall i :: 0 <= i < |values| && window - 1 <= i ==>
              RollingMeanOf(values, window)[i] == Fin(Sum(Values(values)[i + 1 - window..i + 1]) / window as real)
  {
    forall i | 0 <= i < |values| && window - 1 <= i
      ensures RollingMeanOf(values, window)[i] == Fin(Sum(Values(values)[i + 1 - window..i + 1]) / window as real)
    {
      RunningSumWindow(values, window, i + 1);
    }
  }

  /** rollingMean emits NaN during warm-up, and a NaN input makes every later
      output NaN. */
  lemma RollingMeanNaN(values: seq<Num>, window: nat)
    ensures forall i :: 0 <= i < |values| && i < window - 1 ==> RollingMeanOf(values, window)[i].NaN?
    ensures forall i, j :: 0 <= j <= i < |values| && values[j].NaN? ==> RollingMeanOf(values, window)[i].NaN?
  {
    forall i, j | 0 <= j <= i < |values| && values[j].NaN?
      ensures RollingMeanOf(values, window)[i].NaN?
    {
      RunningSumNaN(values, window, j, i + 1);
    }
  }

  method RollingMean(values: seq<Num>, window: nat) returns (means: seq<Num>)
    ensures means == RollingMeanOf(values, window)
  {
    means := [];
    var sum := Fin(0.0);
    var queue: seq<Num> := [];
    for i := 0 to |values|
      invariant means == RollingMeanOf(values, window)[..i]
      invariant queue == values[Lo(i, window)..i]
      invariant sum == RunningSum(values, window, i)
    {
      WindowAdvances(values, window, i);
      RunningSumStep(values, window, i);
      PrefixGrows(RollingMeanOf(values, window), i);
      var value := values[i];
      queue := queue + [value];
      sum := Add(sum, value);
      if |queue| > window {
        sum := Sub(sum, queue[0]);
        queue := queue[1..];
      }
      if i < window - 1 {
        means := means + [NaN];
      } else {
        means := means + [Div(sum, Fin(window as real))];
      }
    }
  }

  /** Each value times itself, as the loop's `sumSquared` accumulates them. */
  function SquaresOf(values: seq<Num>): (r: seq<Num>)
    ensures |r| == |values|
    ensures forall i :: 0 <= i < |values| ==> r[i] == Mul(values[i], values[i])
  {
    seq(|values|, i requires 0 <= i < |values| => Mul(values[i], values[i]))
  }

  /** rollingStd's value for one window: clamp the shortcut variance at 0,
      then take the square root. */
  function StdFromSums(sum: Num, sumSquared: Num, window: nat): (r: Num)
    ensures !r.NaN? && Ge(r, Fin(0.0))
    ensures sum.NaN? ==> r == Fin(0.0)
  {
    var mean := Div(sum, Fin(window as real));
    var variance := Sub(Div(sumSquared, Fin(window as real)), Mul(mean, mean));
    NumSqrt(if Ge(variance, Fin(0.0)) then variance else Fin(0.0))
  }

  function RollingStdAt(values: seq<Num>, window: nat, i: nat): Num
    requires i < |values|
  {
    if i < window - 1 then NaN
    else StdFromSums(RunningSum(values, window, i + 1), RunningSum(SquaresOf(values), window, i + 1), window)
  }

  /** The output of rollingStd. */
  function RollingStdOf(values: seq<Num>, window: nat): (r: seq<Num>)
    ensures |r| == |values|
  {
    seq(|values|, i requires 0 <= i < |values| => RollingStdAt(values, window, i))
  }

  /** With finite inputs and a positive window, rollingStd emits the
      population standard deviation of the last `window` values. */
  lemma RollingStdFinite(values: seq<Num>, window: nat)
    requires AllFinite(values) && window > 0
    ensures forall i :: 0 <= i < |values| && window - 1 <= i ==>
              RollingStdOf(values, window)[i] == Fin(Sqrt(PopulationVariance(Values(values)[i + 1 - window..i + 1])))
  {
    forall i | 0 <= i < |values| && window - 1 <= i
      ensures RollingStdOf(values, window)[i] == Fin(Sqrt(PopulationVariance(Values(values)[i + 1 - window..i + 1])))
    {
      FiniteWindowStd(values, window, i);
    }
  }

  /** rollingStd emits NaN during warm-up and afterwards a value that is
      never NaN and never negative; once a NaN input has been seen, that value
      is 0 (the NaN variance fails the `>= 0` test and is replaced by 0). */
  lemma RollingStdNaN(values: seq<Num>, window: nat)
    ensures forall i :: 0 <= i < |values| && i < window - 1 ==> RollingStdOf(values, window)[i].NaN?
    ensures forall i :: 0 <= i < |values| && window - 1 <= i ==>
              !RollingStdOf(values, window)[i].NaN? && Ge(RollingStdOf(values, window)[i], Fin(0.0))
    ensures forall i, j :: 0 <= j <= i < |values| && window - 1 <= i && values[j].NaN? ==>
              RollingStdOf(values, window)[i] == Fin(0.0)
  {
    forall i | 0 <= i < |values| && window - 1 <= i
      ensures RollingStdOf(values, window)[i]
              == StdFromSums(RunningSum(values, window, i + 1), RunningSum(SquaresOf(values), window, i + 1), window)
    {
    }
    forall i, j | 0 <= j <= i < |values| && window - 1 <= i && values[j].NaN?
      ensures RollingStdOf(values, window)[i] == Fin(0.0)
    {
      RunningSumNaN(values, window, j, i + 1);
    }
  }

  lemma SquaresValues(values: seq<Num>)
    requires AllFinite(values)
    ensures AllFinite(SquaresOf(values))
    ensures Values(SquaresOf(values)) == Squares(Values(values))
  {
    var sq, xs := SquaresOf(values), Values(values);
    assert forall k :: 0 <= k < |xs| ==> sq[k] == Fin(xs[k] * xs[k]);
    assert forall k :: 0 <= k < |xs| ==> Values(sq)[k] == Squares(xs)[k];
  }

  /** With finite sums and a non-negative shortcut variance, rollingStd's
      value is the root of that variance. */
  lemma StdOfFiniteSums(s: real, q: real, window: nat)
    requires window > 0
    requires ShortcutOf(s, q, window as real) >= 0.0
    ensures StdFromSums(Fin(s), Fin(q), window) == Fin(Sqrt(ShortcutOf(s, q, window as real)))
  {
    var n := window as real;
    var m := s / n;
    assert Div(Fin(s), Fin(n)) == Fin(m);
    assert Div(Fin(q), Fin(n)) == Fin(q / n);
    assert Mul(Fin(m), Fin(m)) == Fin(m * m);
    assert Sub(Fin(q / n), Fin(m * m)) == Fin(q / n - m * m);
    assert Ge(Fin(q / n - m * m), Fin(0.0));
    assert StdFromSums(Fin(s), Fin(q), window) == NumSqrt(Fin(q / n - m * m));
    assert NumSqrt(Fin(q / n - m * m)) == Fin(Sqrt(q / n - m * m));
    assert ShortcutOf(s, q, n) == q / n - m * m;
  }

  lemma WindowSumIs(values: seq<Num>, window: nat, i: nat)
    requires AllFinite(values) && window > 0 && window - 1 <= i < |values|
    ensures RunningSum(values, window, i + 1) == Fin(Sum(Values(values)[i + 1 - window..i + 1]))
  {
    RunningSumWindow(values, window, i + 1);
    assert Lo(i + 1, window) == i + 1 - window;
  }

  lemma WindowSquaresSumIs(values: seq<Num>, window: nat, i: nat)
    requires AllFinite(values) && window > 0 && window - 1 <= i < |values|
    ensures RunningSum(SquaresOf(values), window, i + 1)
            == Fin(Sum(Squares(Values(values)[i + 1 - window..i + 1])))
  {
    SquaresValues(values);
    WindowSumIs(SquaresOf(values), window, i);
    SquaresSlice(Values(values), i + 1 - window, i + 1);
  }

  lemma FiniteWindowStd(values: seq<Num>, window: nat, i: nat)
    requires AllFinite(values) && window > 0 && window - 1 <= i < |values|
    ensures RollingStdAt(values, window, i) == Fin(Sqrt(PopulationVariance(Values(values)[i + 1 - window..i + 1])))
  {
    var w := Values(values)[i + 1 - window..i + 1];
    WindowSumIs(values, window, i);
    WindowSquaresSumIs(values, window, i);
    ShortcutVariance(w);
    StdOfFiniteSums(Sum(w), Sum(Squares(w)), window);
  }

  method RollingStd(values: seq<Num>, window: nat) returns (deviations: seq<Num>)
    ensures deviations == RollingStdOf(values, window)
  {
    deviations := [];
    var queue: seq<Num> := [];
    var sum := Fin(0.0);
    var sumSquared := Fin(0.0);
    for i := 0 to |values|
      invariant deviations == RollingStdOf(values, window)[..i]
      invariant queue == values[Lo(i, window)..i]
      invariant sum == RunningSum(values, window, i)
      invariant sumSquared == RunningSum(SquaresOf(values), window, i)
    {
      WindowAdvances(values, window, i);
      RunningSumStep(values, window, i);
      PrefixGrows(RollingStdOf(values, window), i);
      RunningSumStep(SquaresOf(values), window, i);
      var value := values[i];
      queue := queue + [value];
      sum := Add(sum, value);
      sumSquared := Add(sumSquared, Mul(value, value));
      if |queue| > window {
        var removed := queue[0];
        sum := Sub(sum, removed);
        sumSquared := Sub(sumSquared, Mul(removed, removed));
        queue := queue[1..];
      }
      if i < window - 1 {
        deviations := deviations + [NaN];
      } else {
        var mean := Div(sum, Fin(window as real));
        var variance := Sub(Div(sumSquared, Fin(window as real)), Mul(mean, mean));
        var deviation := NumSqrt(if Ge(variance, Fin(0.0)) then variance else Fin(0.0));
        assert deviation == StdFromSums(sum, sumSquared, window);
        deviations := deviations + [deviation];
      }
    }
  }

  // ---------------------------------------------------------------------
  // calculateEma

  /** The smoothing factor 2 / (span + 1). */
  function EmaAlpha(span: nat): real {
    2.0 / (span as real + 1.0)
  }

  /** The EMA after position i: the first value itself, then each step mixes
      the new value into the previous EMA. */
  function EmaAt(values: seq<real>, alpha: real, i: nat): real
    requires i < |values|
  {
    if i == 0 then values[0] else alpha * values[i] + (1.0 - alpha) * EmaAt(values, alpha, i - 1)
  }

  /** The output of calculateEma. */
  function EmaOf(values: seq<real>, span: nat): (r: seq<real>)
    ensures |r| == |values|
  {
    seq(|values|, i requires 0 <= i < |values| => EmaAt(values, EmaAlpha(span), i))
  }

  method CalculateEma(values: seq<real>, span: nat) returns (emas: seq<real>)
    ensures emas == EmaOf(values, span)
  {
    emas := [];
    var previousEma := 0.0;
    var alpha := 2.0 / (span as real + 1.0);
    for i := 0 to |values|
      invariant emas == EmaOf(values, span)[..i]
      invariant i > 0 ==> previousEma == EmaAt(values, alpha, i - 1)
    {
      PrefixGrows(EmaOf(values, span), i);
      assert EmaOf(values, span)[i] == EmaAt(values, alpha, i);
      var value := values[i];
      if i == 0 {
        previousEma := value;
      } else {
        previousEma := alpha * value + (1.0 - alpha) * previousEma;
      }
      assert previousEma == EmaAt(values, alpha, i);
      emas := emas + [previousEma];
    }
  }

  /** For a span of at least 1 the smoothing factor lies in (0, 1]. */
  lemma EmaAlphaRange(span: nat)
    requires span >= 1
    ensures 0.0 < EmaAlpha(span) <= 1.0
  {
    var d := span as real + 1.0;
    var x := 2.0 / d;
    assert x * d == 2.0;
    assert x > 0.0;
    assert x * d >= x * 2.0;
  }

  /** A convex combination of two points of [lo, hi] stays in [lo, hi]. */
  lemma ConvexWithin(alpha: real, x: real, y: real, lo: real, hi: real)
    requires 0.0 <= alpha <= 1.0
    requires lo <= x <= hi && lo <= y <= hi
    ensures lo <= alpha * x + (1.0 - alpha) * y <= hi
  {
    ProductNonNegative(alpha, x - lo);
    ProductNonNegative(1.0 - alpha, y - lo);
    ProductNonNegative(alpha, hi - x);
    ProductNonNegative(1.0 - alpha, hi - y);
    assert alpha * x + (1.0 - alpha) * y - lo == alpha * (x - lo) + (1.0 - alpha) * (y - lo);
    assert hi - (alpha * x + (1.0 - alpha) * y) == alpha * (hi - x) + (1.0 - alpha) * (hi - y);
  }

  lemma {:induction false} EmaAtWithin(values: seq<real>, alpha: real, i: nat, lo: real, hi: real)
    requires i < |values|
    requires 0.0 <= alpha <= 1.0
    requires forall k :: 0 <= k < |values| ==> lo <= values[k] <= hi
    ensures lo <= EmaAt(values, alpha, i) <= hi
  {
    if i > 0 {
      EmaAtWithin(values, alpha, i - 1, lo, hi);
      ConvexWithin(alpha, values[i], EmaAt(values, alpha, i - 1), lo, hi);
    }
  }

  /** With a span of at least 1 every EMA value lies between the smallest and
      the largest input: any bounds of the inputs bound the output. */
  lemma EmaWithin(values: seq<real>, span: nat, lo: real, hi: real)
    requires span >= 1
    requires forall k :: 0 <= k < |values| ==> lo <= values[k] <= hi
    ensures forall i :: 0 <= i < |values| ==> lo <= EmaOf(values, span)[i] <= hi
  {
    EmaAlphaRange(span);
    forall i | 0 <= i < |values|
      ensures lo <= EmaOf(values, span)[i] <= hi
    {
      EmaAtWithin(values, EmaAlpha(span), i, lo, hi);
    }
  }

  lemma {:induction false} EmaAtNonNegative(values: seq<real>, alpha: real, i: nat)
    requires i < |values|
    requires 0.0 <= alpha <= 1.0
    requires forall k :: 0 <= k < |values| ==> values[k] >= 0.0
    ensures EmaAt(values, alpha, i) >= 0.0
  {
    if i > 0 {
      EmaAtNonNegative(values, alpha, i - 1);
      ProductNonNegative(alpha, values[i]);
      ProductNonNegative(1.0 - alpha, EmaAt(values, alpha, i - 1));
    }
  }

  /** With a span of at least 1 the EMA of non-negative values is non-negative. */
  lemma EmaNonNegative(values: seq<real>, span: nat)
    requires span >= 1
    requires forall k :: 0 <= k < |values| ==> values[k] >= 0.0
    ensures forall i :: 0 <= i < |values| ==> EmaOf(values, span)[i] >= 0.0
  {
    EmaAlphaRange(span);
    forall i | 0 <= i < |values|
      ensures EmaOf(values, span)[i] >= 0.0
    {
      EmaAtNonNegative(values, EmaAlpha(span), i);
    }
  }

  /** The EMA starts at the first value, and a constant series has a constant
      EMA. */
  lemma EmaConstant(values: seq<real>, span: nat, c: real)
    requires span >= 1
    requires forall k :: 0 <= k < |values| ==> values[k] == c
    ensures forall i :: 0 <= i < |values| ==> EmaOf(values, span)[i] == c
  {
    EmaWithin(values, span, c, c);
  }

  // ---------------------------------------------------------------------
  // arrayMean

  /** The mean of a list, 0 for an empty one. */
  function MeanOf(xs: seq<real>): real {
    if |xs| == 0 then 0.0 else Sum(xs) / |xs| as real
  }

  method ArrayMean(xs: seq<real>) returns (mean: real)
    ensures mean == MeanOf(xs)
  {
    if |xs| == 0 {
      return 0.0;
    }
    var sum := 0.0;
    for k := 0 to |xs|
      invariant sum == Sum(xs[..k])
    {
      assert xs[..k + 1] == xs[..k] + [xs[k]];
      SumAppend(xs[..k], xs[k]);
      sum := sum + xs[k];
    }
    assert xs[..|xs|] == xs;
    mean := sum / |xs| as real;
  }

  lemma {:induction false} SumNonNegative(xs: seq<real>)
    requires forall k :: 0 <= k < |xs| ==> xs[k] >= 0.0
    ensures Sum(xs) >= 0.0
  {
    if xs != [] {
      SumNonNegative(xs[1..]);
    }
  }

  /** The mean of a list of non-negative values is non-negative. */
  lemma MeanNonNegative(xs: seq<real>)
    requires forall k :: 0 <= k < |xs| ==> xs[k] >= 0.0
    ensures MeanOf(xs) >= 0.0
  {
    SumNonNegative(xs);
  }

  lemma {:induction false} SumZero(xs: seq<real>)
    requires forall k :: 0 <= k < |xs| ==> xs[k] >= 0.0
    ensures Sum(xs) == 0.0 <==> forall k :: 0 <= k < |xs| ==> xs[k] == 0.0
  {
    if xs != [] {
      SumZero(xs[1..]);
      SumNonNegative(xs[1..]);
      if Sum(xs) == 0.0 {
        forall k | 0 <= k < |xs|
          ensures xs[k] == 0.0
        {
          if k > 0 {
            assert xs[k] == xs[1..][k - 1];
          }
        }
      } else {
        assert xs[0] != 0.0 || Sum(xs[1..]) != 0.0;
        if xs[0] == 0.0 {
          var k :| 0 <= k < |xs[1..]| && xs[1..][k] != 0.0;
          assert xs[k + 1] != 0.0;
        }
      }
    }
  }

  /** The mean of non-negative values is 0 exactly when every value is 0
      (which includes the empty list). */
  lemma MeanZero(xs: seq<real>)
    requires forall k :: 0 <= k < |xs| ==> xs[k] >= 0.0
    ensures MeanOf(xs) == 0.0 <==> forall k :: 0 <= k < |xs| ==> xs[k] == 0.0
  {
    SumZero(xs);
  }
}
