/** The valuation analyzer: an owner-earnings value and a discounted cash flow
    value are each compared with the market capitalisation, and the mean of
    the two relative gaps decides the signal. */
module Valuation {
  import opened JsNumber
  import opened Signals
  import opened FinancialData

  // ---------------------------------------------------------------------
  // Owner earnings (the Buffett method)

  const RequiredReturn: real := 0.15
  const MarginOfSafety: real := 0.25
  const ProjectionYears: nat := 5
  /** The growth rate the owner-earnings method assumes when none is given. */
  const DefaultGrowth: real := 0.05
  const TerminalGrowthCap: real := 0.03

  /** Net income plus depreciation, less capital expenditure and the growth
      of working capital since the previous period. */
  function OwnerEarnings(current: LineItems, previous: LineItems): real {
    current.netIncome + current.depreciationAndAmortization - current.capitalExpenditure
      - (current.workingCapital - previous.workingCapital)
  }

  /** The growth rate the owner-earnings method receives: the default applies
      only to a missing value, and `null` acts as 0. */
  function OwnerEarningsGrowth(earningsGrowth: Field): (g: real)
    ensures earningsGrowth.Undefined? ==> g == DefaultGrowth
    ensures !earningsGrowth.Undefined? ==> Fin(g) == ToNumber(earningsGrowth)
  {
    match earningsGrowth
    case Undefined => DefaultGrowth
    case Null => 0.0
    case Number(x) => x
  }

  /** Year `year + 1`'s owner earnings grown at `growth` and discounted at the
      required return, for the projected years. */
  function ProjectedEarnings(ownerEarnings: real, growth: real): (r: seq<real>)
    ensures |r| == ProjectionYears
  {
    seq(ProjectionYears, year requires 0 <= year < ProjectionYears =>
      ownerEarnings * Pow(1.0 + growth, year + 1) / Pow(1.0 + RequiredReturn, year + 1))
  }

  /** `Math.min(growth, 0.03)` */
  function TerminalGrowth(growth: real): (t: real)
    ensures t <= TerminalGrowthCap && t <= growth && (t == growth || t == TerminalGrowthCap)
  {
    if growth < TerminalGrowthCap then growth else TerminalGrowthCap
  }

  /** calculateOwnerEarningsValue with its default required return, margin of
      safety and horizon. Non-positive owner earnings are worth 0; otherwise
      the terminal value grows the last discounted year at the capped rate,
      and is discounted once more over the whole horizon. */
  function OwnerEarningsValue(ownerEarnings: real, growth: real): real {
    if ownerEarnings <= 0.0 then 0.0
    else
      var futureValues := ProjectedEarnings(ownerEarnings, growth);
      var terminalGrowth := TerminalGrowth(growth);
      var terminalValue := futureValues[ProjectionYears - 1] * (1.0 + terminalGrowth) / (RequiredReturn - terminalGrowth);
      var terminalValueDiscounted := terminalValue / Pow(1.0 + RequiredReturn, ProjectionYears);
      (Sum(futureValues) + terminalValueDiscounted) * (1.0 - MarginOfSafety)
  }

  /** Positive owner earnings with a growth rate above -100% have a positive
      value: every projected year is positive, and the terminal rate leaves
      the required return at least 12 points above it. */
  lemma OwnerEarningsValuePositive(ownerEarnings: real, growth: real)
    requires ownerEarnings > 0.0 && growth > -1.0
    ensures OwnerEarningsValue(ownerEarnings, growth) > 0.0
  {
    var futureValues := ProjectedEarnings(ownerEarnings, growth);
    forall year | 0 <= year < ProjectionYears
      ensures futureValues[year] > 0.0
    {
      ProjectedYearPositive(ownerEarnings, growth, year);
    }
    SumPositive(futureValues);
    var terminalGrowth := TerminalGrowth(growth);
    var last := futureValues[ProjectionYears - 1];
    assert 1.0 + terminalGrowth > 0.0 && RequiredReturn - terminalGrowth > 0.0;
    var grown := last * (1.0 + terminalGrowth);
    assert grown > 0.0;
    PositiveRatio(grown, RequiredReturn - terminalGrowth);
    var terminalValue := grown / (RequiredReturn - terminalGrowth);
    PositiveRatio(terminalValue, Pow(1.0 + RequiredReturn, ProjectionYears));
  }

  /** One projected year of positive owner earnings is positive. */
  lemma ProjectedYearPositive(ownerEarnings: real, growth: real, year: nat)
    requires ownerEarnings > 0.0 && growth > -1.0 && year < ProjectionYears
    ensures ProjectedEarnings(ownerEarnings, growth)[year] > 0.0
  {
    PositiveRatio(ownerEarnings * Pow(1.0 + growth, year + 1), Pow(1.0 + RequiredReturn, year + 1));
  }

  /** A positive quantity over a positive one is positive. */
  lemma PositiveRatio(a: real, b: real)
    requires a > 0.0 && b > 0.0
    ensures a / b > 0.0
  {
  }

  // ---------------------------------------------------------------------
  // Discounted cash flow

  const DiscountRate: real := 0.1
  const TerminalGrowthRate: real := 0.03

  /** Year `i`'s free cash flow, grown `i` times, for the projected years. */
  function CashFlows(freeCashFlow: real, growth: real): (r: seq<real>)
    ensures |r| == ProjectionYears
  {
    seq(ProjectionYears, i requires 0 <= i < ProjectionYears => freeCashFlow * Pow(1.0 + growth, i))
  }

  /** Each cash flow discounted `i + 1` times. */
  function PresentValues(cashFlows: seq<real>): (r: seq<real>)
    ensures |r| == |cashFlows|
  {
    seq(|cashFlows|, i requires 0 <= i < |cashFlows| => cashFlows[i] / Pow(1.0 + DiscountRate, i + 1))
  }

  /** The last cash flow grown at 3% forever, discounted over the horizon. */
  function TerminalPresentValue(lastCashFlow: real): real {
    lastCashFlow * (1.0 + TerminalGrowthRate) / (DiscountRate - TerminalGrowthRate) / Pow(1.0 + DiscountRate, ProjectionYears)
  }

  /** calculateIntrinsicValue with the analyzer's rates and horizon: the
      terminal value grows the last undiscounted cash flow at 3%. */
  function DcfValue(freeCashFlow: real, growth: real): real {
    var cashFlows := CashFlows(freeCashFlow, growth);
    Sum(PresentValues(cashFlows)) + TerminalPresentValue(cashFlows[ProjectionYears - 1])
  }

  /** The discounted projected flows are proportional to the free cash flow. */
  lemma PresentValuesProportional(freeCashFlow: real, growth: real)
    ensures Sum(PresentValues(CashFlows(freeCashFlow, growth))) == freeCashFlow * Sum(PresentValues(CashFlows(1.0, growth)))
  {
    var unit := PresentValues(CashFlows(1.0, growth));
    var scaled := PresentValues(CashFlows(freeCashFlow, growth));
    forall i | 0 <= i < ProjectionYears
      ensures scaled[i] == freeCashFlow * unit[i]
    {
      ScaledRatio(freeCashFlow, Pow(1.0 + growth, i), Pow(1.0 + DiscountRate, i + 1));
    }
    SumScale(unit, freeCashFlow, scaled);
  }

  /** The terminal part is proportional to the last cash flow. */
  lemma TerminalProportional(k: real, lastCashFlow: real)
    ensures TerminalPresentValue(k * lastCashFlow) == k * TerminalPresentValue(lastCashFlow)
  {
    var grown := lastCashFlow * (1.0 + TerminalGrowthRate);
    ScaledRatio(k, grown, DiscountRate - TerminalGrowthRate);
    ScaledRatio(k, grown / (DiscountRate - TerminalGrowthRate), Pow(1.0 + DiscountRate, ProjectionYears));
  }

  /** The DCF value is proportional to the free cash flow. */
  lemma DcfProportional(freeCashFlow: real, growth: real)
    ensures DcfValue(freeCashFlow, growth) == freeCashFlow * DcfValue(1.0, growth)
  {
    PresentValuesProportional(freeCashFlow, growth);
    var last := Pow(1.0 + growth, ProjectionYears - 1);
    assert CashFlows(freeCashFlow, growth)[ProjectionYears - 1] == freeCashFlow * last;
    assert CashFlows(1.0, growth)[ProjectionYears - 1] == last;
    TerminalProportional(freeCashFlow, last);
  }

  /** `k * a / b == k * (a / b)` */
  lemma ScaledRatio(k: real, a: real, b: real)
    requires b != 0.0
    ensures k * a / b == k * (a / b)
  {
  }

  /** With a growth rate above -100%, a unit of free cash flow has a positive
      DCF value. */
  lemma UnitDcfPositive(growth: real)
    requires growth > -1.0
    ensures DcfValue(1.0, growth) > 0.0
  {
    var presentValues := PresentValues(CashFlows(1.0, growth));
    forall i | 0 <= i < ProjectionYears
      ensures presentValues[i] > 0.0
    {
      PositiveRatio(1.0 * Pow(1.0 + growth, i), Pow(1.0 + DiscountRate, i + 1));
    }
    SumPositive(presentValues);
    var last := 1.0 * Pow(1.0 + growth, ProjectionYears - 1);
    PositiveRatio(last * (1.0 + TerminalGrowthRate), DiscountRate - TerminalGrowthRate);
    PositiveRatio(last * (1.0 + TerminalGrowthRate) / (DiscountRate - TerminalGrowthRate), Pow(1.0 + DiscountRate, ProjectionYears));
  }

  /** With a growth rate above -100%, the DCF value has the sign of the free
      cash flow. */
  lemma DcfSign(freeCashFlow: real, growth: real)
    requires growth > -1.0
    ensures DcfValue(freeCashFlow, growth) > 0.0 <==> freeCashFlow > 0.0
    ensures DcfValue(freeCashFlow, growth) < 0.0 <==> freeCashFlow < 0.0
  {
    DcfProportional(freeCashFlow, growth);
    UnitDcfPositive(growth);
    var unit := DcfValue(1.0, growth);
    if freeCashFlow > 0.0 {
      ProductNonNegative(freeCashFlow, unit);
      assert freeCashFlow * unit > 0.0;
    } else if freeCashFlow < 0.0 {
      assert (-freeCashFlow) * unit > 0.0;
    }
  }

  /** The DCF value as the analyzer receives it: the growth rate has no
      default there, so a missing one makes the value NaN, and `null` acts
      as 0. */
  function DcfOf(freeCashFlow: real, earningsGrowth: Field): (r: Num)
    ensures r.NaN? <==> earningsGrowth.Undefined?
    ensures !earningsGrowth.Undefined? ==> r == Fin(DcfValue(freeCashFlow, ToNumber(earningsGrowth).v))
  {
    match earningsGrowth
    case Undefined => NaN
    case Null => Fin(DcfValue(freeCashFlow, 0.0))
    case Number(g) => Fin(DcfValue(freeCashFlow, g))
  }

  // ---------------------------------------------------------------------
  // Gaps and the signal

  /** `(value - marketCap) / marketCap` */
  function Gap(value: Num, marketCap: Num): Num {
    Div(Sub(value, marketCap), marketCap)
  }

  /** A finite value against a positive market cap is the relative
      difference; a value of 0 is a gap of exactly -100%. */
  lemma GapMeaning(value: real, marketCap: real)
    requires marketCap > 0.0
    ensures Gap(Fin(value), Fin(marketCap)) == Fin(value / marketCap - 1.0)
    ensures value == 0.0 ==> Gap(Fin(value), Fin(marketCap)) == Fin(-1.0)
  {
    assert (value - marketCap) / marketCap == value / marketCap - marketCap / marketCap;
  }

  const GapThreshold: real := 0.15

  /** Bullish above +15%, bearish below -15%, neutral otherwise. */
  function GapSignal(gap: Num): (s: Signal)
    ensures s == Bullish <==> gap.PosInf? || (gap.Fin? && gap.v > GapThreshold)
    ensures s == Bearish <==> gap.NegInf? || (gap.Fin? && gap.v < -GapThreshold)
    ensures gap.NaN? ==> s == Neutral
  {
    if Gt(gap, Fin(GapThreshold)) then Bullish else if Lt(gap, Fin(-GapThreshold)) then Bearish else Neutral
  }

  /** One method's entry in the reasoning: its signal and the three numbers
      its text shows. */
  datatype MethodAnalysis = MethodAnalysis(signal: Signal, value: Num, marketCap: Num, gap: Num)

  datatype ValuationReport = ValuationReport(
    signal: Signal,
    confidence: Num,
    dcfAnalysis: MethodAnalysis,
    ownerEarningsAnalysis: MethodAnalysis)

  /** One method's value compared with the market cap. */
  function MethodFrom(value: Num, marketCap: Num): (a: MethodAnalysis)
    ensures a.gap == Gap(value, marketCap) && a.signal == GapSignal(a.gap)
  {
    var gap := Gap(value, marketCap);
    MethodAnalysis(GapSignal(gap), value, marketCap, gap)
  }

  /** The valuation of one snapshot against the current and previous line
      items: the mean of the two gaps decides the signal, and its size as a
      percentage, without a cap, is the confidence. */
  function ValuationFrom(metrics: Snapshot, current: LineItems, previous: LineItems): ValuationReport {
    var ownerEarningsValue := Fin(OwnerEarningsValue(OwnerEarnings(current, previous), OwnerEarningsGrowth(metrics.earningsGrowth)));
    var dcfValue := DcfOf(current.freeCashFlow, metrics.earningsGrowth);
    var marketCap := ToNumber(metrics.marketCap);
    var dcf := MethodFrom(dcfValue, marketCap);
    var ownerEarnings := MethodFrom(ownerEarningsValue, marketCap);
    var valuationGap := Div(Add(dcf.gap, ownerEarnings.gap), Fin(2.0));
    ValuationReport(GapSignal(valuationGap), Round(Mul(Abs(valuationGap), Fin(100.0))), dcf, ownerEarnings)
  }

  /** analyzeValuation after the fetches: the first snapshot, and the first
      two line-item records as the current and previous period. */
  function AnalyzeValuationOf(financialMetrics: seq<Snapshot>, lineItems: seq<LineItems>): (r: Result<ValuationReport>)
    ensures r.Error? <==> financialMetrics == [] || |lineItems| < 2
    ensures financialMetrics == [] ==> r == Error("No financial metrics found")
    ensures financialMetrics != [] && |lineItems| < 2 ==> r == Error("Not enough financial data")
  {
    if financialMetrics == [] then Error("No financial metrics found")
    else if |lineItems| < 2 then Error("Not enough financial data")
    else Ok(ValuationFrom(financialMetrics[0], lineItems[0], lineItems[1]))
  }

  /** With a positive market cap and growth rate, the mean gap is the mean of
      the two relative gaps, the signal follows it, and the confidence is its
      size as a percentage. Non-positive owner earnings make that method's
      gap -100%. */
  lemma ValuationMeaning(metrics: Snapshot, current: LineItems, previous: LineItems)
    requires metrics.marketCap.Number? && metrics.marketCap.x > 0.0
    requires metrics.earningsGrowth.Number?
    ensures var r := ValuationFrom(metrics, current, previous);
            var cap := metrics.marketCap.x;
            var dcfGap := DcfValue(current.freeCashFlow, metrics.earningsGrowth.x) / cap - 1.0;
            var ownerGap := OwnerEarningsValue(OwnerEarnings(current, previous), metrics.earningsGrowth.x) / cap - 1.0;
            var gap := (dcfGap + ownerGap) / 2.0;
            r.dcfAnalysis.gap == Fin(dcfGap) && r.ownerEarningsAnalysis.gap == Fin(ownerGap) &&
            (r.signal == Bullish <==> gap > GapThreshold) &&
            (r.signal == Bearish <==> gap < -GapThreshold) &&
            r.confidence == Fin(RoundReal((if gap < 0.0 then -gap else gap) * 100.0) as real) &&
            (OwnerEarnings(current, previous) <= 0.0 ==> r.ownerEarningsAnalysis.gap == Fin(-1.0))
  {
    var cap := metrics.marketCap.x;
    var g := metrics.earningsGrowth.x;
    GapMeaning(DcfValue(current.freeCashFlow, g), cap);
    GapMeaning(OwnerEarningsValue(OwnerEarnings(current, previous), g), cap);
  }

  /** A missing market cap makes every gap NaN: the signal is neutral and
      the confidence NaN, whatever the values. */
  lemma MissingMarketCap(metrics: Snapshot, current: LineItems, previous: LineItems)
    requires metrics.marketCap.Undefined?
    ensures var r := ValuationFrom(metrics, current, previous);
            r.signal == Neutral && r.confidence.NaN? &&
            r.dcfAnalysis.signal == Neutral && r.ownerEarningsAnalysis.signal == Neutral
  {
  }

  /** A missing growth rate leaves the owner-earnings method on its default
      but makes the DCF value, and with it the mean gap, NaN: the signal is
      neutral and the confidence NaN. */
  lemma MissingGrowth(metrics: Snapshot, current: LineItems, previous: LineItems)
    requires metrics.earningsGrowth.Undefined?
    ensures var r := ValuationFrom(metrics, current, previous);
            r.dcfAnalysis.value.NaN? && r.dcfAnalysis.signal == Neutral &&
            r.ownerEarningsAnalysis.value == Fin(OwnerEarningsValue(OwnerEarnings(current, previous), DefaultGrowth)) &&
            r.signal == Neutral && r.confidence.NaN?
  {
  }

  /** The confidence is not capped at 100: a mean gap of at least +101%
      reports more than 100 (a gap of +200% reports 200), and the signal is
      bullish. */
  lemma UncappedConfidence(metrics: Snapshot, current: LineItems, previous: LineItems)
    requires metrics.marketCap.Number? && metrics.marketCap.x > 0.0
    requires metrics.earningsGrowth.Number?
    ensures var r := ValuationFrom(metrics, current, previous);
            var cap := metrics.marketCap.x;
            var dcfGap := DcfValue(current.freeCashFlow, metrics.earningsGrowth.x) / cap - 1.0;
            var ownerGap := OwnerEarningsValue(OwnerEarnings(current, previous), metrics.earningsGrowth.x) / cap - 1.0;
            var gap := (dcfGap + ownerGap) / 2.0;
            (gap >= 1.01 ==> r.signal == Bullish && r.confidence.Fin? && r.confidence.v > 100.0) &&
            (gap == 2.0 ==> r.confidence == Fin(200.0))
  {
    ValuationMeaning(metrics, current, previous);
    var cap := metrics.marketCap.x;
    var dcfGap := DcfValue(current.freeCashFlow, metrics.earningsGrowth.x) / cap - 1.0;
    var ownerGap := OwnerEarningsValue(OwnerEarnings(current, previous), metrics.earningsGrowth.x) / cap - 1.0;
    var gap := (dcfGap + ownerGap) / 2.0;
    if gap >= 1.01 {
      assert gap * 100.0 + 0.5 >= 101.5;
      assert RoundReal(gap * 100.0) >= 101;
    }
  }
}
