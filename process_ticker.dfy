/** Processing a ticker: the provider's annual records are grouped by ticker,
    each group is ordered newest first, and the two newest periods give the
    screener metrics stored for the ticker, next to the ordered records. The
    fetch and the database inserts are the inputs and outputs here. */
module ProcessTicker {
  import opened JsNumber

  /** One annual line-item record, restricted to what the processing reads.
      The report period is the report date as a time stamp. */
  datatype PeriodRecord = PeriodRecord(
    ticker: string,
    reportPeriod: int,
    revenue: real,
    netIncome: real,
    netCashFlowFromOperations: real,
    capitalExpenditure: real,
    ebit: real,
    incomeTaxExpense: real,
    totalDebt: real,
    cashAndEquivalents: real,
    shareholdersEquity: real)

  // ---------------------------------------------------------------------
  // Metrics

  /** The metrics stored for a ticker. */
  datatype ScreenerMetrics = ScreenerMetrics(
    revenueGrowthPercentage: Num,
    earningsGrowthPercentage: Num,
    fcfEarningsRatio: Num,
    roic: Num,
    netDebtToFcff: Num,
    debtToEquity: Num)

  /** `(current / previous - 1) * 100` */
  function GrowthPercentage(current: real, previous: real): Num {
    Mul(Sub(Div(Fin(current), Fin(previous)), Fin(1.0)), Fin(100.0))
  }

  /** `part / whole * 100` */
  function Percentage(part: real, whole: real): Num {
    Mul(Div(Fin(part), Fin(whole)), Fin(100.0))
  }

  /** Free cash flow: operating cash flow less capital expenditure. */
  function FreeCashFlow(r: PeriodRecord): real {
    r.netCashFlowFromOperations - r.capitalExpenditure
  }

  /** calculateMetrics: growth of revenue and net income against the previous
      period, and free cash flow to earnings, return on invested capital, net
      debt to free cash flow and debt to equity of the current one. No
      denominator is checked. */
  function CalculateMetrics(current: PeriodRecord, previous: PeriodRecord): ScreenerMetrics {
    var fcf := FreeCashFlow(current);
    ScreenerMetrics(
      GrowthPercentage(current.revenue, previous.revenue),
      GrowthPercentage(current.netIncome, previous.netIncome),
      Percentage(fcf, current.netIncome),
      Percentage(current.ebit - current.incomeTaxExpense, current.totalDebt + current.shareholdersEquity),
      Div(Fin(current.totalDebt - current.cashAndEquivalents), Fin(fcf)),
      Percentage(current.totalDebt, current.shareholdersEquity))
  }

  /** A growth percentage over a non-zero base is finite and grows the base
      back into the current value; over a positive base it is positive
      exactly when the value grew. */
  lemma GrowthPercentageMeaning(current: real, previous: real)
    requires previous != 0.0
    ensures GrowthPercentage(current, previous).Fin?
    ensures previous * (1.0 + GrowthPercentage(current, previous).v / 100.0) == current
    ensures previous > 0.0 ==> (GrowthPercentage(current, previous).v > 0.0 <==> current > previous)
  {
    var g := (current / previous - 1.0) * 100.0;
    assert previous * (1.0 + g / 100.0) == previous * (current / previous);
    if previous > 0.0 {
      assert current / previous > 1.0 <==> current > previous;
    }
  }

  /** A percentage over a non-zero whole is finite and gives the part back. */
  lemma PercentageMeaning(part: real, whole: real)
    requires whole != 0.0
    ensures Percentage(part, whole).Fin?
    ensures whole * Percentage(part, whole).v / 100.0 == part
  {
  }

  /** Every metric inverts back to its inputs when its denominator is not
      zero. */
  lemma CalculateMetricsMeaning(current: PeriodRecord, previous: PeriodRecord)
    requires previous.revenue != 0.0 && previous.netIncome != 0.0 && current.netIncome != 0.0
    requires current.totalDebt + current.shareholdersEquity != 0.0 && current.shareholdersEquity != 0.0
    requires FreeCashFlow(current) != 0.0
    ensures var m := CalculateMetrics(current, previous);
            previous.revenue * (1.0 + m.revenueGrowthPercentage.v / 100.0) == current.revenue &&
            previous.netIncome * (1.0 + m.earningsGrowthPercentage.v / 100.0) == current.netIncome &&
            current.netIncome * m.fcfEarningsRatio.v / 100.0 == FreeCashFlow(current) &&
            (current.totalDebt + current.shareholdersEquity) * m.roic.v / 100.0 == current.ebit - current.incomeTaxExpense &&
            m.netDebtToFcff.v * FreeCashFlow(current) == current.totalDebt - current.cashAndEquivalents &&
            current.shareholdersEquity * m.debtToEquity.v / 100.0 == current.totalDebt
  {
    GrowthPercentageMeaning(current.revenue, previous.revenue);
    GrowthPercentageMeaning(current.netIncome, previous.netIncome);
    PercentageMeaning(FreeCashFlow(current), current.netIncome);
    PercentageMeaning(current.ebit - current.incomeTaxExpense, current.totalDebt + current.shareholdersEquity);
    PercentageMeaning(current.totalDebt, current.shareholdersEquity);
  }

  /** The previous period is read only through its revenue and net income. */
  lemma PreviousReadOnlyForGrowth(current: PeriodRecord, previous: PeriodRecord, other: PeriodRecord)
    requires other.revenue == previous.revenue && other.netIncome == previous.netIncome
    ensures CalculateMetrics(current, other) == CalculateMetrics(current, previous)
  {
  }

  /** Without guards, a zero base makes a growth infinite or NaN, and zero
      free cash flow does the same to net debt over free cash flow. */
  lemma UnguardedDenominators(current: PeriodRecord, previous: PeriodRecord)
    ensures previous.revenue == 0.0 && current.revenue > 0.0 ==> CalculateMetrics(current, previous).revenueGrowthPercentage == PosInf
    ensures previous.revenue == 0.0 && current.revenue == 0.0 ==> CalculateMetrics(current, previous).revenueGrowthPercentage.NaN?
    ensures FreeCashFlow(current) == 0.0 && current.totalDebt > current.cashAndEquivalents ==>
              CalculateMetrics(current, previous).netDebtToFcff == PosInf
  {
  }

  // ---------------------------------------------------------------------
  // Newest first

  /** Ordered by report period, newest first. */
  predicate NewestFirst(records: seq<PeriodRecord>) {
    forall i, j :: 0 <= i < j < |records| ==> records[i].reportPeriod >= records[j].reportPeriod
  }

  /** Places a record before the first one that is not newer, so that of two
      records of the same period the earlier one stays first. */
  function Insert(record: PeriodRecord, sorted: seq<PeriodRecord>): (r: seq<PeriodRecord>)
    ensures |r| == |sorted| + 1
  {
    if sorted == [] || sorted[0].reportPeriod <= record.reportPeriod then [record] + sorted
    else [sorted[0]] + Insert(record, sorted[1..])
  }

  /** Inserting adds the record and nothing else. */
  lemma {:induction false} InsertAdds(record: PeriodRecord, sorted: seq<PeriodRecord>)
    ensures multiset(Insert(record, sorted)) == multiset(sorted) + multiset{record}
  {
    if sorted != [] && sorted[0].reportPeriod > record.reportPeriod {
      InsertAdds(record, sorted[1..]);
      assert sorted == [sorted[0]] + sorted[1..];
    }
  }

  /** Inserting into a list ordered newest first keeps it so. */
  lemma {:induction false} InsertOrdered(record: PeriodRecord, sorted: seq<PeriodRecord>)
    requires NewestFirst(sorted)
    ensures NewestFirst(Insert(record, sorted))
  {
    if sorted != [] && sorted[0].reportPeriod > record.reportPeriod {
      var tail := Insert(record, sorted[1..]);
      InsertOrdered(record, sorted[1..]);
      InsertAdds(record, sorted[1..]);
      forall j | 0 <= j < |tail|
        ensures tail[j].reportPeriod <= sorted[0].reportPeriod
      {
        assert tail[j] in multiset(tail);
        if tail[j] != record {
          assert tail[j] in multiset(sorted[1..]);
          var k :| 0 <= k < |sorted[1..]| && sorted[1..][k] == tail[j];
          assert sorted[k + 1] == tail[j];
        }
      }
    }
  }

  /** `toSorted` by descending report date, stable. */
  function SortNewestFirst(records: seq<PeriodRecord>): (r: seq<PeriodRecord>)
    ensures |r| == |records|
  {
    if records == [] then [] else Insert(records[0], SortNewestFirst(records[1..]))
  }

  /** The sorted records are the records, newest first. */
  lemma {:induction false} SortNewestFirstMeaning(records: seq<PeriodRecord>)
    ensures multiset(SortNewestFirst(records)) == multiset(records)
    ensures NewestFirst(SortNewestFirst(records))
  {
    if records != [] {
      SortNewestFirstMeaning(records[1..]);
      InsertAdds(records[0], SortNewestFirst(records[1..]));
      InsertOrdered(records[0], SortNewestFirst(records[1..]));
      assert records == [records[0]] + records[1..];
    }
  }

  /** The newest and the second newest periods of a group. */
  datatype Periods = TooFewPeriods | Periods(current: PeriodRecord, previous: PeriodRecord)

  /** `const [current, previous] = sortedData`, skipping a group without
      both. */
  function SelectPeriods(records: seq<PeriodRecord>): (p: Periods) {
    var sorted := SortNewestFirst(records);
    if |sorted| < 2 then TooFewPeriods else Periods(sorted[0], sorted[1])
  }

  /** A group of fewer than two records is skipped; otherwise the current
      period is a newest record, and the previous one is newest among the
      rest. */
  lemma SelectPeriodsMeaning(records: seq<PeriodRecord>)
    ensures SelectPeriods(records).TooFewPeriods? <==> |records| < 2
    ensures SelectPeriods(records).Periods? ==>
              var p := SelectPeriods(records);
              var rest := multiset(records) - multiset{p.current, p.previous};
              multiset{p.current, p.previous} <= multiset(records) &&
              p.current.reportPeriod >= p.previous.reportPeriod &&
              forall r :: r in rest ==> r.reportPeriod <= p.previous.reportPeriod
  {
    var sorted := SortNewestFirst(records);
    SortNewestFirstMeaning(records);
    if |sorted| >= 2 {
      assert sorted == [sorted[0], sorted[1]] + sorted[2..];
      assert multiset(sorted) == multiset{sorted[0], sorted[1]} + multiset(sorted[2..]);
      forall r | r in multiset(sorted[2..])
        ensures r.reportPeriod <= sorted[1].reportPeriod
      {
        var k :| 0 <= k < |sorted[2..]| && sorted[2..][k] == r;
        assert sorted[k + 2] == r;
      }
    }
  }

  // ---------------------------------------------------------------------
  // Grouping and the loop over tickers

  /** The tickers of the records, each once, in order of first appearance
      (the key order of `Object.groupBy`). */
  function TickerOrder(results: seq<PeriodRecord>): (r: seq<string>)
    ensures forall t :: t in r <==> exists i :: 0 <= i < |results| && results[i].ticker == t
    ensures forall i, j :: 0 <= i < j < |r| ==> r[i] != r[j]
  {
    if results == [] then []
    else
      var earlier := TickerOrder(results[..|results| - 1]);
      var t := results[|results| - 1].ticker;
      assert forall i :: 0 <= i < |results| - 1 ==> results[..|results| - 1][i] == results[i];
      if t in earlier then earlier else earlier + [t]
  }

  /** The records of one ticker, in their order. */
  function Group(results: seq<PeriodRecord>, ticker: string): (r: seq<PeriodRecord>)
    ensures forall x :: x in r <==> x in results && x.ticker == ticker
  {
    if results == [] then []
    else (if results[0].ticker == ticker then [results[0]] else []) + Group(results[1..], ticker)
  }

  /** What is stored for a ticker: its metrics and its records, newest first. */
  datatype TickerRow = TickerRow(symbol: string, metrics: ScreenerMetrics, history: seq<PeriodRecord>)

  /** The row stored for one ticker, if its group has two periods. */
  function RowFor(results: seq<PeriodRecord>, ticker: string): seq<TickerRow> {
    var sortedData := SortNewestFirst(Group(results, ticker));
    if |sortedData| < 2 then []
    else [TickerRow(ticker, CalculateMetrics(sortedData[0], sortedData[1]), sortedData)]
  }

  /** The rows stored for the given tickers, in their order. */
  function RowsFor(results: seq<PeriodRecord>, tickers: seq<string>): seq<TickerRow> {
    if tickers == [] then []
    else RowsFor(results, tickers[..|tickers| - 1]) + RowFor(results, tickers[|tickers| - 1])
  }

  /** The processing step after the fetch: one pass over the groups, storing
      the metrics and records of every ticker with two periods. */
  method ProcessTickers(results: seq<PeriodRecord>) returns (rows: seq<TickerRow>)
    ensures rows == RowsFor(results, TickerOrder(results))
  {
    var tickers := TickerOrder(results);
    rows := [];
    var i := 0;
    while i < |tickers|
      invariant 0 <= i <= |tickers|
      invariant rows == RowsFor(results, tickers[..i])
    {
      var ticker := tickers[i];
      assert tickers[..i + 1][..i] == tickers[..i];
      assert RowsFor(results, tickers[..i + 1]) == rows + RowFor(results, ticker);
      var sortedData := SortNewestFirst(Group(results, ticker));
      if |sortedData| >= 2 {
        var metrics := CalculateMetrics(sortedData[0], sortedData[1]);
        rows := rows + [TickerRow(ticker, metrics, sortedData)];
      }
      i := i + 1;
    }
    assert tickers[..|tickers|] == tickers;
  }

  /** A ticker's row exists exactly when it has at least two records; it
      holds them newest first, and the metrics of the current and previous
      periods selected from them. */
  lemma RowForMeaning(results: seq<PeriodRecord>, ticker: string)
    ensures RowFor(results, ticker) != [] <==> |Group(results, ticker)| >= 2
    ensures RowFor(results, ticker) != [] ==>
              var row := RowFor(results, ticker)[0];
              var p := SelectPeriods(Group(results, ticker));
              RowFor(results, ticker) == [row] && row.symbol == ticker &&
              row.history == SortNewestFirst(Group(results, ticker)) &&
              p.Periods? && row.metrics == CalculateMetrics(p.current, p.previous)
  {
  }

  /** A ticker's row, when there is one, is its only row and carries its
      symbol. */
  lemma RowForShape(results: seq<PeriodRecord>, ticker: string)
    ensures |RowFor(results, ticker)| <= 1
    ensures RowFor(results, ticker) != [] <==> |Group(results, ticker)| >= 2
    ensures RowFor(results, ticker) != [] ==> RowFor(results, ticker)[0].symbol == ticker
  {
  }

  /** The symbols of some rows, in order. */
  function Symbols(rows: seq<TickerRow>): (r: seq<string>)
    ensures |r| == |rows| && forall k :: 0 <= k < |rows| ==> r[k] == rows[k].symbol
  {
    seq(|rows|, k requires 0 <= k < |rows| => rows[k].symbol)
  }

  /** A ticker has a row exactly when it is among the given tickers and has
      two records. */
  lemma {:induction false} RowsForTickers(results: seq<PeriodRecord>, tickers: seq<string>, ticker: string)
    ensures ticker in Symbols(RowsFor(results, tickers)) <==> ticker in tickers && |Group(results, ticker)| >= 2
  {
    if tickers != [] {
      var front := tickers[..|tickers| - 1];
      var last := tickers[|tickers| - 1];
      RowsForTickers(results, front, ticker);
      RowForShape(results, ticker);
      RowForShape(results, last);
      var before := RowsFor(results, front);
      var added := RowFor(results, last);
      assert Symbols(before + added) == Symbols(before) + Symbols(added);
      assert ticker in tickers <==> ticker in front || ticker == last;
    }
  }

  /** Each row is its own ticker's row. */
  lemma {:induction false} RowsForOwnRows(results: seq<PeriodRecord>, tickers: seq<string>)
    ensures forall row :: row in RowsFor(results, tickers) ==> RowFor(results, row.symbol) == [row]
  {
    if tickers != [] {
      var last := tickers[|tickers| - 1];
      RowsForOwnRows(results, tickers[..|tickers| - 1]);
      RowForShape(results, last);
    }
  }

  /** After processing, a ticker has a stored row exactly when the fetched
      records hold at least two periods for it. */
  lemma ProcessedTickers(results: seq<PeriodRecord>, ticker: string)
    ensures ticker in Symbols(RowsFor(results, TickerOrder(results))) <==> |Group(results, ticker)| >= 2
  {
    RowsForTickers(results, TickerOrder(results), ticker);
    if |Group(results, ticker)| >= 2 {
      var x := Group(results, ticker)[0];
      assert x in Group(results, ticker);
    }
  }
}
