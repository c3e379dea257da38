/** The earlier valuation analyzer: the same two methods, gaps and
    thresholds, but no check for a missing snapshot. The line-item count is
    checked first, and a missing snapshot is then read all the same, which
    the runtime rejects with a type error. */
module ValuationLegacy {
  import opened Signals
  import opened FinancialData
  import opened Valuation

  /** The runtime's message for reading a metric of a missing snapshot. */
  const MissingSnapshotTypeError: string := "Cannot read properties of undefined (reading 'earnings_growth')"

  /** The earlier analyzeValuation after the fetches. */
  function AnalyzeValuationLegacyOf(financialMetrics: seq<Snapshot>, lineItems: seq<LineItems>): (r: Result<ValuationReport>)
    ensures r.Error? <==> financialMetrics == [] || |lineItems| < 2
    ensures |lineItems| < 2 ==> r == Error("Not enough financial data")
    ensures |lineItems| >= 2 && financialMetrics == [] ==> r == Error(MissingSnapshotTypeError)
  {
    if |lineItems| < 2 then Error("Not enough financial data")
    else if financialMetrics == [] then Error(MissingSnapshotTypeError)
    else Ok(ValuationFrom(financialMetrics[0], lineItems[0], lineItems[1]))
  }

  /** The two analyzers fail on the same inputs and agree on every success;
      they differ only in the message when the snapshot is missing, and when
      the line items are short as well each reports a different cause. */
  lemma AnalyzeValuationLegacyMeaning(financialMetrics: seq<Snapshot>, lineItems: seq<LineItems>)
    ensures var legacy := AnalyzeValuationLegacyOf(financialMetrics, lineItems);
            var live := AnalyzeValuationOf(financialMetrics, lineItems);
            (legacy.Ok? <==> live.Ok?) &&
            (financialMetrics != [] ==> legacy == live) &&
            (financialMetrics == [] && |lineItems| < 2 ==>
               legacy == Error("Not enough financial data") && live == Error("No financial metrics found"))
  {
  }
}
