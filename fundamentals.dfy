/** The fundamental analyzer: four scorers each test three metrics of the
    latest snapshot against fixed thresholds and vote bullish (two or more
    pass), bearish (none passes) or neutral (exactly one); the overall signal
    is the majority of bullish against bearish votes.

    Both versions of the analyzer share the scorers and the tally. They
    differ only in the record the tally starts from: the live version starts
    from zero counts for every signal, the earlier one from an empty record,
    where a signal that never occurs has no count at all. */
module Fundamentals {
  import opened JsNumber
  import opened Signals
  import opened FinancialData

  /** One scorer's verdict and the labels of the metrics its details mention
      (the formatted numbers themselves are not modelled). */
  datatype Analysis = Analysis(signal: Signal, details: seq<string>)

  // ---------------------------------------------------------------------
  // Votes

  /** `[...].filter(Boolean).length`: how many criteria hold. */
  function CountTrue(criteria: seq<bool>): (n: nat)
    ensures n <= |criteria|
    ensures n == 0 <==> forall i :: 0 <= i < |criteria| ==> !criteria[i]
  {
    if criteria == [] then 0 else (if criteria[0] then 1 else 0) + CountTrue(criteria[1..])
  }

  /** A score of two or more is bullish, zero bearish, anything else neutral. */
  function Vote(score: nat): Signal {
    if score >= 2 then Bullish else if score == 0 then Bearish else Neutral
  }

  predicate TwoOf(a: bool, b: bool, c: bool) {
    (a && b) || (a && c) || (b && c)
  }

  /** The vote on three criteria is bullish exactly when at least two hold,
      bearish exactly when none holds, and neutral exactly when one holds. */
  lemma VoteOfThree(a: bool, b: bool, c: bool)
    ensures Vote(CountTrue([a, b, c])) == Bullish <==> TwoOf(a, b, c)
    ensures Vote(CountTrue([a, b, c])) == Bearish <==> !a && !b && !c
    ensures Vote(CountTrue([a, b, c])) == Neutral <==> !TwoOf(a, b, c) && (a || b || c)
  {
    assert [a, b, c][1..] == [b, c];
    assert [b, c][1..] == [c];
    assert [c][1..] == [];
    assert CountTrue([c]) == (if c then 1 else 0) + CountTrue([]);
    assert CountTrue([b, c]) == (if b then 1 else 0) + CountTrue([c]);
    assert CountTrue([a, b, c]) == (if a then 1 else 0) + CountTrue([b, c]);
  }

  // ---------------------------------------------------------------------
  // Details

  /** `[field && name, ...].filter(Boolean)`: the labels of the fields that
      are truthy, in order. */
  function Mentioned(entries: seq<(Field, string)>): (r: seq<string>)
    ensures |r| <= |entries|
    ensures forall name :: name in r <==>
              exists i :: 0 <= i < |entries| && entries[i].1 == name && Truthy(ToNumber(entries[i].0))
  {
    if entries == [] then []
    else
      var rest := Mentioned(entries[1..]);
      assert forall j :: 0 <= j < |entries| - 1 ==> entries[1..][j] == entries[j + 1];
      if Truthy(ToNumber(entries[0].0)) then [entries[0].1] + rest else rest
  }

  /** `field && name`, kept by `.filter(Boolean)` exactly when truthy. */
  function Label(field: Field, name: string): seq<string> {
    if Truthy(ToNumber(field)) then [name] else []
  }

  /** The filter keeps the array's order: the labels of a concatenation are
      the labels of each part, one after the other. */
  lemma {:induction false} MentionedAppend(a: seq<(Field, string)>, b: seq<(Field, string)>)
    ensures Mentioned(a + b) == Mentioned(a) + Mentioned(b)
    decreases |a|
  {
    if a == [] {
      assert a + b == b;
    } else {
      assert (a + b)[1..] == a[1..] + b;
      MentionedAppend(a[1..], b);
    }
  }

  /** The labels of a single entry. */
  lemma MentionedOne(field: Field, name: string)
    ensures Mentioned([(field, name)]) == Label(field, name)
  {
    assert [(field, name)][1..] == [];
  }

  /** The labels of two and three entries, in their order. */
  lemma MentionedThree(e0: (Field, string), e1: (Field, string), e2: (Field, string))
    ensures Mentioned([e0, e1]) == Label(e0.0, e0.1) + Label(e1.0, e1.1)
    ensures Mentioned([e0, e1, e2]) == Label(e0.0, e0.1) + Label(e1.0, e1.1) + Label(e2.0, e2.1)
  {
    MentionedOne(e0.0, e0.1);
    MentionedOne(e1.0, e1.1);
    MentionedOne(e2.0, e2.1);
    assert [e0, e1] == [e0] + [e1];
    MentionedAppend([e0], [e1]);
    assert [e0, e1, e2] == [e0, e1] + [e2];
    MentionedAppend([e0, e1], [e2]);
  }

  // ---------------------------------------------------------------------
  // The four scorers

  /** Profitability: ROE above 15%, net margin above 20%, operating margin
      above 15%. */
  function AnalyzeProfitability(m: Snapshot): (r: Analysis)
    ensures var roe := Gt(ToNumber(m.returnOnEquity), Fin(0.15));
            var net := Gt(ToNumber(m.netMargin), Fin(0.2));
            var op := Gt(ToNumber(m.operatingMargin), Fin(0.15));
            (r.signal == Bullish <==> TwoOf(roe, net, op)) && (r.signal == Bearish <==> !roe && !net && !op)
    ensures "ROE" in r.details <==> Truthy(ToNumber(m.returnOnEquity))
    ensures "Net Margin" in r.details <==> Truthy(ToNumber(m.netMargin))
    ensures "Op Margin" in r.details <==> Truthy(ToNumber(m.operatingMargin))
    ensures forall name :: name in r.details ==> name in ["ROE", "Net Margin", "Op Margin"]
    ensures r.details == Label(m.returnOnEquity, "ROE") + Label(m.netMargin, "Net Margin") +
                         Label(m.operatingMargin, "Op Margin")
  {
    var roe := Gt(ToNumber(m.returnOnEquity), Fin(0.15));
    var net := Gt(ToNumber(m.netMargin), Fin(0.2));
    var op := Gt(ToNumber(m.operatingMargin), Fin(0.15));
    VoteOfThree(roe, net, op);
    var entries := [(m.returnOnEquity, "ROE"), (m.netMargin, "Net Margin"), (m.operatingMargin, "Op Margin")];
    var details := Mentioned(entries);
    MentionedThree(entries[0], entries[1], entries[2]);
    assert entries[0].1 == "ROE" && entries[1].1 == "Net Margin" && entries[2].1 == "Op Margin";
    Analysis(Vote(CountTrue([roe, net, op])), details)
  }

  /** Growth: revenue, earnings and book value each grew more than 10%.
      Book-value growth counts towards the vote but is never mentioned. */
  function AnalyzeGrowth(m: Snapshot): (r: Analysis)
    ensures var revenue := Gt(ToNumber(m.revenueGrowth), Fin(0.1));
            var earnings := Gt(ToNumber(m.earningsGrowth), Fin(0.1));
            var bookValue := Gt(ToNumber(m.bookValueGrowth), Fin(0.1));
            (r.signal == Bullish <==> TwoOf(revenue, earnings, bookValue)) &&
            (r.signal == Bearish <==> !revenue && !earnings && !bookValue)
    ensures "Revenue Growth" in r.details <==> Truthy(ToNumber(m.revenueGrowth))
    ensures "Earnings Growth" in r.details <==> Truthy(ToNumber(m.earningsGrowth))
    ensures forall name :: name in r.details ==> name in ["Revenue Growth", "Earnings Growth"]
    ensures r.details == Label(m.revenueGrowth, "Revenue Growth") + Label(m.earningsGrowth, "Earnings Growth")
  {
    var revenue := Gt(ToNumber(m.revenueGrowth), Fin(0.1));
    var earnings := Gt(ToNumber(m.earningsGrowth), Fin(0.1));
    var bookValue := Gt(ToNumber(m.bookValueGrowth), Fin(0.1));
    VoteOfThree(revenue, earnings, bookValue);
    var entries := [(m.revenueGrowth, "Revenue Growth"), (m.earningsGrowth, "Earnings Growth")];
    var details := Mentioned(entries);
    MentionedThree(entries[0], entries[1], entries[1]);
    assert entries[0].1 == "Revenue Growth" && entries[1].1 == "Earnings Growth";
    Analysis(Vote(CountTrue([revenue, earnings, bookValue])), details)
  }

  /** `fcf && eps && fcf > eps * 0.8` as a criterion: it holds only when both
      per-share figures are truthy. */
  predicate CashFlowCovers(m: Snapshot) {
    var fcf := ToNumber(m.freeCashFlowPerShare);
    var eps := ToNumber(m.earningsPerShare);
    Truthy(fcf) && Truthy(eps) && Gt(fcf, Mul(eps, Fin(0.8)))
  }

  /** The cash-flow criterion holds exactly when both per-share figures are
      non-zero numbers and free cash flow exceeds 80% of earnings. */
  lemma CashFlowCoversMeaning(m: Snapshot)
    ensures CashFlowCovers(m) <==>
              m.freeCashFlowPerShare.Number? && m.earningsPerShare.Number? &&
              m.freeCashFlowPerShare.x != 0.0 && m.earningsPerShare.x != 0.0 &&
              m.freeCashFlowPerShare.x > m.earningsPerShare.x * 0.8
  {
  }

  /** Financial health: current ratio above 1.5, debt to equity below 0.5,
      and free cash flow covering 80% of earnings. The cash-flow criterion
      counts towards the vote but is never mentioned. */
  function AnalyzeFinancialHealth(m: Snapshot): (r: Analysis)
    ensures var liquid := Gt(ToNumber(m.currentRatio), Fin(1.5));
            var lowDebt := Lt(ToNumber(m.debtToEquity), Fin(0.5));
            var cash := CashFlowCovers(m);
            (r.signal == Bullish <==> TwoOf(liquid, lowDebt, cash)) && (r.signal == Bearish <==> !liquid && !lowDebt && !cash)
    ensures "Current Ratio" in r.details <==> Truthy(ToNumber(m.currentRatio))
    ensures "D/E" in r.details <==> Truthy(ToNumber(m.debtToEquity))
    ensures forall name :: name in r.details ==> name in ["Current Ratio", "D/E"]
    ensures r.details == Label(m.currentRatio, "Current Ratio") + Label(m.debtToEquity, "D/E")
  {
    var liquid := Gt(ToNumber(m.currentRatio), Fin(1.5));
    var lowDebt := Lt(ToNumber(m.debtToEquity), Fin(0.5));
    var cash := CashFlowCovers(m);
    VoteOfThree(liquid, lowDebt, cash);
    var entries := [(m.currentRatio, "Current Ratio"), (m.debtToEquity, "D/E")];
    var details := Mentioned(entries);
    MentionedThree(entries[0], entries[1], entries[1]);
    assert entries[0].1 == "Current Ratio" && entries[1].1 == "D/E";
    Analysis(Vote(CountTrue([liquid, lowDebt, cash])), details)
  }

  /** Price ratios: P/E above 25, P/B above 3, P/S above 5. High multiples
      count towards a bullish vote. */
  function AnalyzeValuation(m: Snapshot): (r: Analysis)
    ensures var pe := Gt(ToNumber(m.priceToEarningsRatio), Fin(25.0));
            var pb := Gt(ToNumber(m.priceToBookRatio), Fin(3.0));
            var ps := Gt(ToNumber(m.priceToSalesRatio), Fin(5.0));
            (r.signal == Bullish <==> TwoOf(pe, pb, ps)) && (r.signal == Bearish <==> !pe && !pb && !ps)
    ensures "P/E" in r.details <==> Truthy(ToNumber(m.priceToEarningsRatio))
    ensures "P/B" in r.details <==> Truthy(ToNumber(m.priceToBookRatio))
    ensures "P/S" in r.details <==> Truthy(ToNumber(m.priceToSalesRatio))
    ensures forall name :: name in r.details ==> name in ["P/E", "P/B", "P/S"]
    ensures r.details == Label(m.priceToEarningsRatio, "P/E") + Label(m.priceToBookRatio, "P/B") +
                         Label(m.priceToSalesRatio, "P/S")
  {
    var pe := Gt(ToNumber(m.priceToEarningsRatio), Fin(25.0));
    var pb := Gt(ToNumber(m.priceToBookRatio), Fin(3.0));
    var ps := Gt(ToNumber(m.priceToSalesRatio), Fin(5.0));
    VoteOfThree(pe, pb, ps);
    var entries := [(m.priceToEarningsRatio, "P/E"), (m.priceToBookRatio, "P/B"), (m.priceToSalesRatio, "P/S")];
    var details := Mentioned(entries);
    MentionedThree(entries[0], entries[1], entries[2]);
    assert entries[0].1 == "P/E" && entries[1].1 == "P/B" && entries[2].1 == "P/S";
    Analysis(Vote(CountTrue([pe, pb, ps])), details)
  }

  /** The four votes in the order the analyzer lists them. */
  function ScorerSignals(m: Snapshot): (r: seq<Signal>)
    ensures |r| == 4
  {
    [AnalyzeProfitability(m).signal, AnalyzeGrowth(m).signal, AnalyzeFinancialHealth(m).signal, AnalyzeValuation(m).signal]
  }

  // ---------------------------------------------------------------------
  // The tally

  /** `signals.reduce((acc, s) => { acc[s] = (acc[s] || 0) + 1 }, init)`. */
  function Tally(signals: seq<Signal>, init: map<Signal, nat>): map<Signal, nat> {
    if signals == [] then init
    else
      var counts := Tally(signals[..|signals| - 1], init);
      var s := signals[|signals| - 1];
      counts[s := (if s in counts then counts[s] else 0) + 1]
  }

  /** A signal has a count after the tally exactly when it had one before or
      occurs in the list, and the count is the initial one plus the number of
      occurrences. */
  lemma {:induction false} TallyCounts(signals: seq<Signal>, init: map<Signal, nat>)
    ensures forall s :: s in Tally(signals, init) <==> s in init || s in signals
    ensures forall s :: s in Tally(signals, init) ==>
              Tally(signals, init)[s] == (if s in init then init[s] else 0) + multiset(signals)[s]
  {
    if signals != [] {
      var prefix := signals[..|signals| - 1];
      TallyCounts(prefix, init);
      assert signals == prefix + [signals[|signals| - 1]];
      assert multiset(signals) == multiset(prefix) + multiset{signals[|signals| - 1]};
    }
  }

  /** `counts[s]` as a number: a missing count reads as `undefined`, which
      fails every comparison and turns `Math.max` into NaN, exactly as NaN does. */
  function CountValue(counts: map<Signal, nat>, s: Signal): (r: Num)
    ensures r.NaN? <==> s !in counts
  {
    if s in counts then Fin(counts[s] as real) else NaN
  }

  /** More bullish than bearish votes is bullish, more bearish is bearish,
      anything else (including a missing count) is neutral. */
  function Majority(bullish: Num, bearish: Num): (r: Signal)
    ensures r == Bullish <==> Gt(bullish, bearish)
    ensures r == Bearish <==> Gt(bearish, bullish)
  {
    if Gt(bullish, bearish) then Bullish else if Gt(bearish, bullish) then Bearish else Neutral
  }

  /** `Math.round(Math.max(bullish, bearish) / n * 100)`. */
  function VoteConfidence(bullish: Num, bearish: Num, n: nat): Num {
    Round(Mul(Div(Max(bullish, bearish), Fin(n as real)), Fin(100.0)))
  }

  datatype FundamentalReport = FundamentalReport(signal: Signal, confidence: Num, reasoning: map<string, Analysis>)

  /** The reasoning object: one entry per scorer under `<name>_signal`. */
  function ReasoningFrom(profitability: Analysis, growth: Analysis, health: Analysis, priceRatios: Analysis): map<string, Analysis> {
    map["profitability_signal" := profitability,
        "growth_signal" := growth,
        "financial_health_signal" := health,
        "price_ratios_signal" := priceRatios]
  }

  function ReasoningOf(m: Snapshot): map<string, Analysis> {
    ReasoningFrom(AnalyzeProfitability(m), AnalyzeGrowth(m), AnalyzeFinancialHealth(m), AnalyzeValuation(m))
  }

  /** The overall signal and confidence of a list of votes tallied from `init`. */
  datatype Verdict = Verdict(signal: Signal, confidence: Num)

  function VerdictOf(signals: seq<Signal>, init: map<Signal, nat>): Verdict {
    var counts := Tally(signals, init);
    var bullish := CountValue(counts, Bullish);
    var bearish := CountValue(counts, Bearish);
    Verdict(Majority(bullish, bearish), VoteConfidence(bullish, bearish, |signals|))
  }

  /** The reasoning has exactly the four scorer keys, each holding the
      analysis given for it. */
  lemma ReasoningEntries(profitability: Analysis, growth: Analysis, health: Analysis, priceRatios: Analysis)
    ensures var reasoning := ReasoningFrom(profitability, growth, health, priceRatios);
            reasoning.Keys == {"profitability_signal", "growth_signal", "financial_health_signal", "price_ratios_signal"} &&
            reasoning["profitability_signal"] == profitability &&
            reasoning["growth_signal"] == growth &&
            reasoning["financial_health_signal"] == health &&
            reasoning["price_ratios_signal"] == priceRatios
  {
  }

  /** The report built from the four votes, tallied from `init`. */
  function ReportFrom(m: Snapshot, init: map<Signal, nat>): FundamentalReport {
    var verdict := VerdictOf(ScorerSignals(m), init);
    FundamentalReport(verdict.signal, verdict.confidence, ReasoningOf(m))
  }

  // ---------------------------------------------------------------------
  // The live analyzer

  /** The live tally starts from zero counts for every signal. */
  const ZeroCounts: map<Signal, nat> := map[Bullish := 0, Bearish := 0, Neutral := 0]

  /** analyzeFundamentals after the fetch: the first snapshot, if any. */
  function AnalyzeFundamentalsOf(financialMetrics: seq<Snapshot>): Result<FundamentalReport> {
    if financialMetrics == [] then Error("No financial metrics found")
    else Ok(ReportFrom(financialMetrics[0], ZeroCounts))
  }

  /** Tallied from zero, both the bullish and the bearish count are the
      number of occurrences. */
  lemma ZeroCountsAreOccurrences(signals: seq<Signal>)
    ensures CountValue(Tally(signals, ZeroCounts), Bullish) == Fin(multiset(signals)[Bullish] as real)
    ensures CountValue(Tally(signals, ZeroCounts), Bearish) == Fin(multiset(signals)[Bearish] as real)
  {
    TallyCounts(signals, ZeroCounts);
  }

  /** The decision on two numeric counts out of four votes. */
  lemma MajorityOfFour(bullish: nat, bearish: nat)
    requires bullish <= 4 && bearish <= 4
    ensures var b := Fin(bullish as real);
            var d := Fin(bearish as real);
            var most := if bullish > bearish then bullish else bearish;
            (Majority(b, d) == Bullish <==> bullish > bearish) &&
            (Majority(b, d) == Bearish <==> bearish > bullish) &&
            VoteConfidence(b, d, 4) == Fin(25.0 * most as real) &&
            VoteConfidence(b, d, 4) in {Fin(0.0), Fin(25.0), Fin(50.0), Fin(75.0), Fin(100.0)}
  {
    var most := if bullish > bearish then bullish else bearish;
    assert (most as real) / 4.0 * 100.0 == 25.0 * most as real;
    assert RoundReal(25.0 * most as real) == 25 * most;
  }

  /** Four votes tallied from zero: the majority decides, the confidence is
      25 times the larger count, so one of 0, 25, 50, 75 and 100, and a 2-2
      tie is neutral at 50. */
  lemma ZeroVerdict(signals: seq<Signal>)
    requires |signals| == 4
    ensures var bullish := multiset(signals)[Bullish];
            var bearish := multiset(signals)[Bearish];
            var v := VerdictOf(signals, ZeroCounts);
            (v.signal == Bullish <==> bullish > bearish) &&
            (v.signal == Bearish <==> bearish > bullish) &&
            v.confidence == Fin(25.0 * (if bullish > bearish then bullish else bearish) as real) &&
            v.confidence in {Fin(0.0), Fin(25.0), Fin(50.0), Fin(75.0), Fin(100.0)} &&
            (bullish == 2 && bearish == 2 ==> v.signal == Neutral && v.confidence == Fin(50.0))
  {
    ZeroCountsAreOccurrences(signals);
    OccurrencesBounded(signals, Bullish);
    OccurrencesBounded(signals, Bearish);
    MajorityOfFour(multiset(signals)[Bullish], multiset(signals)[Bearish]);
  }

  /** The live analyzer fails exactly when there is no snapshot. Otherwise
      the reasoning holds exactly the four scorer entries, the overall
      signal is the majority of bullish against bearish votes, and the
      confidence is one of 0, 25, 50, 75 and 100; a 2-2 tie is neutral at 50. */
  lemma AnalyzeFundamentalsMeaning(financialMetrics: seq<Snapshot>)
    ensures AnalyzeFundamentalsOf(financialMetrics).Error? <==> financialMetrics == []
    ensures financialMetrics == [] ==> AnalyzeFundamentalsOf(financialMetrics) == Error("No financial metrics found")
    ensures financialMetrics != [] ==>
              var m := financialMetrics[0];
              var r := AnalyzeFundamentalsOf(financialMetrics).value;
              var bullish := multiset(ScorerSignals(m))[Bullish];
              var bearish := multiset(ScorerSignals(m))[Bearish];
              r.reasoning.Keys == {"profitability_signal", "growth_signal", "financial_health_signal", "price_ratios_signal"} &&
              r.reasoning["profitability_signal"].signal == ScorerSignals(m)[0] &&
              r.reasoning["growth_signal"].signal == ScorerSignals(m)[1] &&
              r.reasoning["financial_health_signal"].signal == ScorerSignals(m)[2] &&
              r.reasoning["price_ratios_signal"].signal == ScorerSignals(m)[3] &&
              (r.signal == Bullish <==> bullish > bearish) &&
              (r.signal == Bearish <==> bearish > bullish) &&
              r.confidence in {Fin(0.0), Fin(25.0), Fin(50.0), Fin(75.0), Fin(100.0)} &&
              (bullish == 2 && bearish == 2 ==> r.signal == Neutral && r.confidence == Fin(50.0))
  {
    if financialMetrics != [] {
      var m := financialMetrics[0];
      ReasoningEntries(AnalyzeProfitability(m), AnalyzeGrowth(m), AnalyzeFinancialHealth(m), AnalyzeValuation(m));
      ZeroVerdict(ScorerSignals(m));
      assert AnalyzeFundamentalsOf(financialMetrics).value == ReportFrom(m, ZeroCounts);
    }
  }
}
