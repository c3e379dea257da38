/** Population variance of a window of reals, and the identity that lets
    rollingStd compute it from a running sum and a running sum of squares. */
module Variance {
  import opened JsNumber

  function Squares(xs: seq<real>): (r: seq<real>)
    ensures |r| == |xs|
    ensures forall i :: 0 <= i < |xs| ==> r[i] == xs[i] * xs[i]
  {
    seq(|xs|, i requires 0 <= i < |xs| => xs[i] * xs[i])
  }

  /** Sum of squared deviations of xs from m. */
  function SquaredDeviation(xs: seq<real>, m: real): real {
    if xs == [] then 0.0 else (xs[0] - m) * (xs[0] - m) + SquaredDeviation(xs[1..], m)
  }

  /** Population variance: mean squared deviation from the mean. */
  function PopulationVariance(xs: seq<real>): real
    requires xs != []
  {
    SquaredDeviation(xs, Sum(xs) / |xs| as real) / |xs| as real
  }

  /** The shortcut variance from a window's sum s and sum of squares q over n values. */
  function ShortcutOf(s: real, q: real, n: real): real
    requires n > 0.0
  {
    q / n - (s / n) * (s / n)
  }

  /** The squared deviation from m of n values with sum s and sum of squares q,
      multiplied out. */
  function Expanded(q: real, s: real, n: real, m: real): real {
    q - 2.0 * m * s + n * m * m
  }

  lemma {:induction false} SquaredDeviationNonNegative(xs: seq<real>, m: real)
    ensures SquaredDeviation(xs, m) >= 0.0
  {
    if xs != [] {
      SquaredDeviationNonNegative(xs[1..], m);
      assert (xs[0] - m) * (xs[0] - m) >= 0.0;
    }
  }

  lemma SquaresSlice(xs: seq<real>, lo: nat, hi: nat)
    requires lo <= hi <= |xs|
    ensures Squares(xs)[lo..hi] == Squares(xs[lo..hi])
  {
    assert forall k :: 0 <= k < hi - lo ==> Squares(xs)[lo..hi][k] == Squares(xs[lo..hi])[k];
  }

  lemma SquaresTail(xs: seq<real>)
    requires xs != []
    ensures Sum(Squares(xs)) == xs[0] * xs[0] + Sum(Squares(xs[1..]))
  {
    var sq := Squares(xs);
    assert sq[1..] == Squares(xs[1..]) by {
      assert forall k :: 0 <= k < |xs| - 1 ==> sq[1..][k] == Squares(xs[1..])[k];
    }
  }

  lemma {:induction false} SquaredDeviationExpand(xs: seq<real>, m: real)
    ensures SquaredDeviation(xs, m) == Expanded(Sum(Squares(xs)), Sum(xs), |xs| as real, m)
  {
    if xs != [] {
      SquaredDeviationExpand(xs[1..], m);
      SquaresTail(xs);
      ExpandCombine(SquaredDeviation(xs, m), SquaredDeviation(xs[1..], m), xs[0], m,
                    Sum(Squares(xs)), Sum(Squares(xs[1..])), Sum(xs), Sum(xs[1..]),
                    |xs| as real, |xs[1..]| as real);
    }
  }

  /** One more value x in front: the expanded form absorbs its squared deviation. */
  lemma ExpandCombine(sd: real, sd1: real, x: real, m: real, q: real, q1: real, s: real, s1: real, n: real, n1: real)
    requires sd == (x - m) * (x - m) + sd1
    requires sd1 == Expanded(q1, s1, n1, m)
    requires q == x * x + q1 && s == x + s1 && n == n1 + 1.0
    ensures sd == Expanded(q, s, n, m)
  {
    ExpandStep(x, m, q1, s1, n1);
  }

  lemma ExpandStep(x: real, m: real, q: real, s: real, n: real)
    ensures (x - m) * (x - m) + Expanded(q, s, n, m) == Expanded(x * x + q, x + s, n + 1.0, m)
  {
    assert (x - m) * (x - m) == x * x - 2.0 * m * x + m * m;
    assert (n + 1.0) * m * m == n * m * m + m * m;
  }

  /** The shortcut equals the expanded squared deviation from the mean s/n, over n. */
  lemma ShortcutAlgebra(q: real, s: real, n: real)
    requires n > 0.0
    ensures ShortcutOf(s, q, n) == Expanded(q, s, n, s / n) / n
  {
    var m := s / n;
    var d := Expanded(q, s, n, m);
    assert n * m == s;
    assert n * m * m == s * m;
    assert d == q - s * m;
    assert d / n == q / n - (s * m) / n;
    assert (s * m) / n == m * m;
  }

  /** The textbook shortcut used by rollingStd, E[x^2] - E[x]^2, equals the
      population variance; in exact arithmetic it is never negative, so the
      clamp to 0 only guards against rounding. */
  lemma ShortcutVariance(xs: seq<real>)
    requires xs != []
    ensures ShortcutOf(Sum(xs), Sum(Squares(xs)), |xs| as real) == PopulationVariance(xs)
    ensures PopulationVariance(xs) >= 0.0
  {
    var n, s := |xs| as real, Sum(xs);
    SquaredDeviationExpand(xs, s / n);
    SquaredDeviationNonNegative(xs, s / n);
    ShortcutAlgebra(Sum(Squares(xs)), s, n);
  }
}
