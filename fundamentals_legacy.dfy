/** The earlier fundamental analyzer. It applies the same four scorers, but
    builds its result step by step: each vote is pushed onto a list, each
    reasoning entry is written from the vote just pushed, and the votes are
    tallied from an empty record. A signal that never occurs therefore has
    no count, which fails every comparison and makes the confidence NaN. */
module FundamentalsLegacy {
  import opened JsNumber
  import opened Signals
  import opened FinancialData
  import opened Fundamentals

  /** The earlier analyzer's bookkeeping: each scorer's vote is pushed in
      turn, and its reasoning entry takes the vote from the list just pushed. */
  method RecordVotes(profitability: Analysis, growth: Analysis, health: Analysis, priceRatios: Analysis)
    returns (signals: seq<Signal>, reasoning: map<string, Analysis>)
    ensures signals == [profitability.signal, growth.signal, health.signal, priceRatios.signal]
    ensures reasoning == ReasoningFrom(profitability, growth, health, priceRatios)
  {
    signals := [];
    reasoning := map[];

    signals := signals + [profitability.signal];
    reasoning := reasoning["profitability_signal" := Analysis(signals[0], profitability.details)];

    signals := signals + [growth.signal];
    reasoning := reasoning["growth_signal" := Analysis(signals[1], growth.details)];

    signals := signals + [health.signal];
    reasoning := reasoning["financial_health_signal" := Analysis(signals[2], health.details)];

    signals := signals + [priceRatios.signal];
    reasoning := reasoning["price_ratios_signal" := Analysis(signals[3], priceRatios.details)];
  }

  /** The earlier analyzeFundamentals after the fetch. */
  method AnalyzeFundamentalsLegacy(financialMetrics: seq<Snapshot>) returns (r: Result<FundamentalReport>)
    ensures financialMetrics == [] ==> r == Error("No financial metrics found")
    ensures financialMetrics != [] ==> r == Ok(ReportFrom(financialMetrics[0], map[]))
  {
    if financialMetrics == [] {
      return Error("No financial metrics found");
    }
    var metrics := financialMetrics[0];
    var signals, reasoning := RecordVotes(AnalyzeProfitability(metrics), AnalyzeGrowth(metrics),
                                          AnalyzeFinancialHealth(metrics), AnalyzeValuation(metrics));
    var counts := Tally(signals, map[]);
    var bullish := CountValue(counts, Bullish);
    var bearish := CountValue(counts, Bearish);
    r := Ok(FundamentalReport(Majority(bullish, bearish), VoteConfidence(bullish, bearish, |signals|), reasoning));
  }

  /** Tallied from an empty record, a vote list missing either bullish or
      bearish votes is neutral with a NaN confidence; one that holds both
      gets the same verdict as a tally from zero counts. */
  lemma EmptyRecordVerdict(signals: seq<Signal>)
    ensures Bullish !in signals || Bearish !in signals ==>
              VerdictOf(signals, map[]).signal == Neutral && VerdictOf(signals, map[]).confidence.NaN?
    ensures Bullish in signals && Bearish in signals ==> VerdictOf(signals, map[]) == VerdictOf(signals, ZeroCounts)
  {
    TallyCounts(signals, map[]);
    TallyCounts(signals, ZeroCounts);
  }

  /** The earlier analyzer fails exactly when there is no snapshot; its
      reasoning is the live one; its verdict is the live one when the votes
      hold both a bullish and a bearish vote, and otherwise neutral with a
      NaN confidence. */
  lemma AnalyzeFundamentalsLegacyMeaning(financialMetrics: seq<Snapshot>)
    ensures financialMetrics != [] ==>
              var m := financialMetrics[0];
              var legacy := ReportFrom(m, map[]);
              var live := AnalyzeFundamentalsOf(financialMetrics).value;
              legacy.reasoning == live.reasoning &&
              (Bullish in ScorerSignals(m) && Bearish in ScorerSignals(m) ==> legacy == live) &&
              (Bullish !in ScorerSignals(m) || Bearish !in ScorerSignals(m) ==>
                 legacy.signal == Neutral && legacy.confidence.NaN?)
  {
    if financialMetrics != [] {
      EmptyRecordVerdict(ScorerSignals(financialMetrics[0]));
    }
  }

  /** Four bullish votes: the live tally reports bullish at 100, the earlier
      one, which never counted a bearish vote, neutral with NaN. */
  lemma FourBullishVotes()
    ensures VerdictOf([Bullish, Bullish, Bullish, Bullish], ZeroCounts) == Verdict(Bullish, Fin(100.0))
    ensures VerdictOf([Bullish, Bullish, Bullish, Bullish], map[]) == Verdict(Neutral, NaN)
  {
    var votes := [Bullish, Bullish, Bullish, Bullish];
    ZeroVerdict(votes);
    EmptyRecordVerdict(votes);
    assert multiset(votes)[Bullish] == 4;
  }
}
