/** The records the analyzers receive from the financial data provider. The
    provider's JSON may leave a metric out or send `null`, and the analyzers
    treat the two differently from a number, so a metric is a `Field`. */
module FinancialData {
  import opened JsNumber

  /** A metric as it arrives: missing, `null`, or a number. */
  datatype Field = Undefined | Null | Number(x: real)

  /** The number JavaScript uses when a field meets an operator: a missing
      field becomes NaN and `null` becomes 0. */
  function ToNumber(f: Field): (r: Num)
    ensures r.NaN? <==> f.Undefined?
    ensures Truthy(r) <==> f.Number? && f.x != 0.0
  {
    match f
    case Undefined => NaN
    case Null => Fin(0.0)
    case Number(x) => Fin(x)
  }

  /** One financial-metrics snapshot, restricted to the metrics the analyzers read. */
  datatype Snapshot = Snapshot(
    marketCap: Field,
    priceToEarningsRatio: Field,
    priceToBookRatio: Field,
    priceToSalesRatio: Field,
    operatingMargin: Field,
    netMargin: Field,
    returnOnEquity: Field,
    currentRatio: Field,
    debtToEquity: Field,
    revenueGrowth: Field,
    earningsGrowth: Field,
    bookValueGrowth: Field,
    earningsPerShare: Field,
    freeCashFlowPerShare: Field)

  /** One line-item record of a reporting period, restricted to the items the
      valuation reads. */
  datatype LineItems = LineItems(
    freeCashFlow: real,
    netIncome: real,
    depreciationAndAmortization: real,
    capitalExpenditure: real,
    workingCapital: real)
}
