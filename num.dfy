/** JavaScript's `number` as the analysis engine uses it: exact reals plus the
    IEEE special values NaN, +Infinity and -Infinity, with the rules JavaScript
    applies to them. Rounding error and the sign of zero are not modelled. */
module JsNumber {

  datatype Num = NaN | Fin(v: real) | PosInf | NegInf

  /** The infinity of the given sign. */
  function Inf(positive: bool): Num {
    if positive then PosInf else NegInf
  }

  function Neg(a: Num): Num {
    match a
    case NaN => NaN
    case Fin(x) => Fin(-x)
    case PosInf => NegInf
    case NegInf => PosInf
  }

  /** `a + b` */
  function Add(a: Num, b: Num): (r: Num)
    ensures r.Fin? <==> a.Fin? && b.Fin?
    ensures a.NaN? || b.NaN? ==> r.NaN?
  {
    if a.NaN? || b.NaN? then NaN
    else if a.Fin? && b.Fin? then Fin(a.v + b.v)
    else if a.Fin? then b
    else if b.Fin? then a
    else if a == b then a
    else NaN
  }

  /** `a - b` */
  function Sub(a: Num, b: Num): (r: Num)
    ensures r.Fin? <==> a.Fin? && b.Fin?
    ensures a.NaN? || b.NaN? ==> r.NaN?
  {
    Add(a, Neg(b))
  }

  /** `a * b`; infinity times zero is NaN. */
  function Mul(a: Num, b: Num): (r: Num)
    ensures a.NaN? || b.NaN? ==> r.NaN?
    ensures a.Fin? && b.Fin? ==> r.Fin?
  {
    if a.NaN? || b.NaN? then NaN
    else if a.Fin? && b.Fin? then Fin(a.v * b.v)
    else if a.Fin? then (if a.v == 0.0 then NaN else Inf((a.v > 0.0) == b.PosInf?))
    else if b.Fin? then (if b.v == 0.0 then NaN else Inf((b.v > 0.0) == a.PosInf?))
    else Inf(a == b)
  }

  /** `a / b`; a non-zero number over zero is an infinity, zero over zero NaN. */
  function Div(a: Num, b: Num): (r: Num)
    ensures a.NaN? || b.NaN? ==> r.NaN?
    ensures a.Fin? && b.Fin? && b.v != 0.0 ==> r == Fin(a.v / b.v)
  {
    if a.NaN? || b.NaN? then NaN
    else if a.Fin? && b.Fin? then
      (if b.v != 0.0 then Fin(a.v / b.v)
       else if a.v > 0.0 then PosInf
       else if a.v < 0.0 then NegInf
       else NaN)
    else if a.Fin? then Fin(0.0)
    else if b.Fin? then (if b.v >= 0.0 then a else Neg(a))
    else NaN
  }

  /** Position in the order -Infinity < finite < +Infinity. */
  function Rank(a: Num): int {
    match a
    case NegInf => 0
    case Fin(_) => 1
    case PosInf => 2
    case NaN => 3
  }

  /** `a < b`: false whenever NaN is involved. */
  predicate Lt(a: Num, b: Num) {
    !a.NaN? && !b.NaN? &&
    (if a.Fin? && b.Fin? then a.v < b.v else Rank(a) < Rank(b))
  }

  /** `a > b` */
  predicate Gt(a: Num, b: Num) {
    Lt(b, a)
  }

  /** `a <= b`: false whenever NaN is involved. */
  predicate Le(a: Num, b: Num) {
    !a.NaN? && !b.NaN? && !Lt(b, a)
  }

  /** `a >= b` */
  predicate Ge(a: Num, b: Num) {
    Le(b, a)
  }

  /** `a === b`: NaN equals nothing, not even itself. */
  predicate StrictEq(a: Num, b: Num) {
    !a.NaN? && a == b
  }

  /** JavaScript truthiness of a number: everything except 0 and NaN. */
  predicate Truthy(a: Num) {
    !a.NaN? && a != Fin(0.0)
  }

  /** `a || b` on numbers. */
  function Or(a: Num, b: Num): (r: Num)
    ensures Truthy(a) ==> r == a
    ensures !Truthy(a) ==> r == b
  {
    if Truthy(a) then a else b
  }

  /** `Math.abs(a)` */
  function Abs(a: Num): (r: Num)
    ensures a.NaN? <==> r.NaN?
    ensures r.Fin? ==> r.v >= 0.0
  {
    match a
    case NaN => NaN
    case Fin(x) => Fin(if x < 0.0 then -x else x)
    case _ => PosInf
  }

  /** `Math.min(a, b)` */
  function Min(a: Num, b: Num): (r: Num)
    ensures a.NaN? || b.NaN? ==> r.NaN?
    ensures !a.NaN? && !b.NaN? ==> Le(r, a) && Le(r, b) && (r == a || r == b)
  {
    if a.NaN? || b.NaN? then NaN else if Lt(b, a) then b else a
  }

  /** `Math.max(a, b)` */
  function Max(a: Num, b: Num): (r: Num)
    ensures a.NaN? || b.NaN? ==> r.NaN?
    ensures !a.NaN? && !b.NaN? ==> Ge(r, a) && Ge(r, b) && (r == a || r == b)
  {
    if a.NaN? || b.NaN? then NaN else if Lt(a, b) then b else a
  }

  /** `Math.round(a)`: the nearest integer, halves rounded up. */
  function Round(a: Num): Num {
    match a
    case Fin(x) => Fin(RoundReal(x) as real)
    case _ => a
  }

  function RoundReal(x: real): int {
    (x + 0.5).Floor
  }

  /** `x ** n` for a natural exponent, on exact reals. */
  function Pow(x: real, n: nat): (r: real)
    ensures x > 0.0 ==> r > 0.0
  {
    if n == 0 then 1.0 else Pow(x, n - 1) * x
  }

  /** The square root is kept abstract: all the engine relies on is that it is
      never negative and that the root of 0 is 0. */
  type SqrtFn = f: real -> real | forall x: real :: f(x) >= 0.0 && (x == 0.0 ==> f(x) == 0.0)
    witness (x: real) => 0.0

  const Sqrt: SqrtFn

  /** `Math.sqrt(a)`: NaN for negative arguments. */
  function NumSqrt(a: Num): (r: Num)
    ensures Ge(a, Fin(0.0)) ==> !r.NaN? && Ge(r, Fin(0.0))
  {
    match a
    case Fin(x) => if x >= 0.0 then Fin(Sqrt(x)) else NaN
    case PosInf => PosInf
    case _ => NaN
  }

  predicate AllFinite(s: seq<Num>) {
    forall i :: 0 <= i < |s| ==> s[i].Fin?
  }

  /** Reals as JavaScript numbers. */
  function Lift(s: seq<real>): (r: seq<Num>)
    ensures |r| == |s| && AllFinite(r)
    ensures forall i :: 0 <= i < |s| ==> r[i] == Fin(s[i])
  {
    seq(|s|, i requires 0 <= i < |s| => Fin(s[i]))
  }

  /** The sum of a sequence of reals, first element first. */
  function Sum(s: seq<real>): real {
    if s == [] then 0.0 else s[0] + Sum(s[1..])
  }

  /** The finite values of a sequence of numbers. */
  function Values(s: seq<Num>): (r: seq<real>)
    requires AllFinite(s)
    ensures |r| == |s|
    ensures forall i :: 0 <= i < |s| ==> r[i] == s[i].v
  {
    seq(|s|, i requires 0 <= i < |s| => s[i].v)
  }

  /** Appending the next element of a sequence to its prefix gives the longer prefix. */
  lemma PrefixGrows<T>(whole: seq<T>, i: nat)
    requires i < |whole|
    ensures whole[..i] + [whole[i]] == whole[..i + 1]
  {
  }

  lemma {:induction false} SumAppend(s: seq<real>, x: real)
    ensures Sum(s + [x]) == Sum(s) + x
  {
    if s != [] {
      assert (s + [x])[1..] == s[1..] + [x];
      SumAppend(s[1..], x);
    }
  }

  /** Adding one value on the right and dropping one on the left of a window
      moves its sum by exactly those two values. */
  lemma SumSlide(s: seq<real>, lo: nat, hi: nat)
    requires lo < hi < |s|
    ensures Sum(s[lo + 1..hi + 1]) == Sum(s[lo..hi]) + s[hi] - s[lo]
  {
    assert s[lo..hi + 1] == s[lo..hi] + [s[hi]];
    SumAppend(s[lo..hi], s[hi]);
    assert s[lo..hi + 1][1..] == s[lo + 1..hi + 1];
  }

  /** The window [lo, hi) sums to the window [lo - 1, hi - 1) plus the value
      that entered on the right minus the one that left on the left. */
  lemma SumShift(s: seq<real>, lo: nat, hi: nat)
    requires 0 < lo <= hi <= |s|
    ensures Sum(s[lo..hi]) == Sum(s[lo - 1..hi - 1]) + s[hi - 1] - s[lo - 1]
  {
    if lo < hi {
      SumSlide(s, lo - 1, hi - 1);
    } else {
      assert s[lo..hi] == [] && s[lo - 1..hi - 1] == [];
    }
  }

  lemma SumGrow(s: seq<real>, lo: nat, hi: nat)
    requires lo <= hi < |s|
    ensures Sum(s[lo..hi + 1]) == Sum(s[lo..hi]) + s[hi]
  {
    assert s[lo..hi + 1] == s[lo..hi] + [s[hi]];
    SumAppend(s[lo..hi], s[hi]);
  }

  /** A non-empty sum of positive reals is positive. */
  lemma {:induction false} SumPositive(s: seq<real>)
    requires s != [] && forall i :: 0 <= i < |s| ==> s[i] > 0.0
    ensures Sum(s) > 0.0
  {
    if |s| > 1 {
      SumPositive(s[1..]);
    }
  }

  /** Scaling every term scales the sum. */
  lemma {:induction false} SumScale(s: seq<real>, k: real, scaled: seq<real>)
    requires |scaled| == |s| && forall i :: 0 <= i < |s| ==> scaled[i] == k * s[i]
    ensures Sum(scaled) == k * Sum(s)
  {
    if s != [] {
      SumScale(s[1..], k, scaled[1..]);
    }
  }

  lemma ProductNonNegative(a: real, b: real)
    requires a >= 0.0 && b >= 0.0
    ensures a * b >= 0.0
  {
  }

  /** A ratio whose numerator is no larger in size than its positive
      denominator lies in [-1, 1]. */
  lemma RatioWithin(s: real, t: real)
    requires t > 0.0 && -t <= s <= t
    ensures -1.0 <= s / t <= 1.0
  {
    var inverse := 1.0 / t;
    assert inverse * t == 1.0;
    ProductNonNegative(t - s, inverse);
    ProductNonNegative(s + t, inverse);
    assert (t - s) * inverse == 1.0 - s / t;
    assert (s + t) * inverse == s / t + 1.0;
  }
}
