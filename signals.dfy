/** The vocabulary every analyzer shares: the three-way signal, the
    percentage a confidence is reported as, and the error result an
    analyzer returns instead of a report. */
module Signals {
  import opened JsNumber

  datatype Signal = Bullish | Bearish | Neutral

  /** An analyzer's answer: a value, or the error message it returns or throws. */
  datatype Result<T> = Ok(value: T) | Error(message: string)

  /** The numeric value of a signal in the technical combiner. */
  function SignalValue(s: Signal): real {
    match s
    case Bullish => 1.0
    case Neutral => 0.0
    case Bearish => -1.0
  }

  /** `Math.round(confidence * 100)` for a confidence given as a real. */
  function Percent(confidence: real): int {
    RoundReal(confidence * 100.0)
  }

  /** A confidence in [0, 1] is reported as a whole percentage in [0, 100],
      and the ends map to 0 and 100. */
  lemma PercentRange(confidence: real)
    requires 0.0 <= confidence <= 1.0
    ensures 0 <= Percent(confidence) <= 100
    ensures confidence == 0.0 ==> Percent(confidence) == 0
    ensures confidence == 1.0 ==> Percent(confidence) == 100
  {
  }

  /** A larger confidence is never reported as a smaller percentage. */
  lemma PercentMonotone(lower: real, higher: real)
    requires lower <= higher
    ensures Percent(lower) <= Percent(higher)
  {
  }

  /** `s[s.length - 1] ?? fallback`: the last element, or the fallback for an
      empty list. */
  function LastOr<T>(s: seq<T>, fallback: T): (r: T)
    ensures s != [] ==> r == s[|s| - 1]
    ensures s == [] ==> r == fallback
  {
    if s == [] then fallback else s[|s| - 1]
  }

  /** A value occurs in a list at most as often as the list is long. */
  lemma {:induction false} OccurrencesBounded(signals: seq<Signal>, s: Signal)
    ensures multiset(signals)[s] <= |signals|
  {
    if signals != [] {
      OccurrencesBounded(signals[1..], s);
      assert signals == [signals[0]] + signals[1..];
      assert multiset(signals) == multiset{signals[0]} + multiset(signals[1..]);
    }
  }
}
