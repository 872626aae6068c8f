/** The thirteen KPI formulas: ten computed for each period, and free cash
    flow and the two growth rates computed for the current period against
    the prior one. */
module Kpi {
  import opened Helpers
  import opened Ledger

  /** The ratios computed alike for the current and the prior period. */
  datatype PeriodRatios = PeriodRatios(
    opMargin: real, fixedTurn: real, invDays: real,
    salesPerEmp: real, opPerEmp: real,
    equityRatio: real, loanSalesRatio: real, currentRatio: real,
    workingCapital: real, redemption: real)

  /** Every KPI value of one evaluation. */
  datatype Report = Report(
    curr: PeriodRatios, prev: PeriodRatios,
    fcf: real, salesGrowth: Option<real>, opGrowth: Option<real>)

  /** Interest-bearing debt: short plus long-term loans. */
  function Debt(f: Figures): int
  {
    f.shortLoan + f.longLoan
  }

  /** The cash flow the debt-repayment years divide by. */
  function RepaymentCashFlow(f: Figures): int
  {
    f.ordProfit + f.depreciation - f.tax
  }

  /** Debt-repayment years: debt over ordinary profit plus depreciation
      minus tax when that cash flow is positive, and 0 otherwise. */
  function Redemption(f: Figures): (r: real)
    ensures RepaymentCashFlow(f) <= 0 ==> r == 0.0
    ensures RepaymentCashFlow(f) > 0 ==> r * RepaymentCashFlow(f) as real == Debt(f) as real
    ensures RepaymentCashFlow(f) > 0 && Debt(f) >= 0 ==> r >= 0.0
  {
    var cf := RepaymentCashFlow(f);
    if cf > 0 then
      SafeDiv(Debt(f) as real, cf as real)
    else 0.0
  }

  /** The ten per-period ratios, each defined by what it multiplies back to;
      a zero denominator makes the ratio 0. */
  function Ratios(f: Figures): (r: PeriodRatios)
    ensures f.sales == 0 ==> r.opMargin == 0.0 && r.loanSalesRatio == 0.0
    ensures f.sales != 0 ==> r.opMargin * f.sales as real == f.opProfit as real * 100.0
    ensures f.sales != 0 ==> r.loanSalesRatio * f.sales as real == Debt(f) as real * 12.0
    ensures f.fixedAssets == 0 ==> r.fixedTurn == 0.0
    ensures f.fixedAssets != 0 ==> r.fixedTurn * f.fixedAssets as real == f.sales as real
    ensures f.cogs == 0 ==> r.invDays == 0.0
    ensures f.cogs != 0 ==> r.invDays * f.cogs as real == f.inventory as real * 365.0
    ensures f.employees == 0 ==> r.salesPerEmp == 0.0 && r.opPerEmp == 0.0
    ensures f.employees != 0 ==> r.salesPerEmp * f.employees as real == f.sales as real
    ensures f.employees != 0 ==> r.opPerEmp * f.employees as real == f.opProfit as real
    ensures f.totalAssets == 0 ==> r.equityRatio == 0.0
    ensures f.totalAssets != 0 ==> r.equityRatio * f.totalAssets as real == f.netAssets as real * 100.0
    ensures f.currentLiab == 0 ==> r.currentRatio == 0.0
    ensures f.currentLiab != 0 ==> r.currentRatio * f.currentLiab as real == f.currentAssets as real * 100.0
    ensures r.workingCapital == (f.currentAssets - f.currentLiab) as real
    ensures r.redemption == Redemption(f)
  {
    var sales := f.sales as real;
    var opMargin := SafeDiv(f.opProfit as real, sales) * 100.0;
    var fixedTurn := SafeDiv(sales, f.fixedAssets as real);
    var invDays := SafeDiv(f.inventory as real, f.cogs as real / 365.0);
    var salesPerEmp := SafeDiv(sales, f.employees as real);
    var opPerEmp := SafeDiv(f.opProfit as real, f.employees as real);
    var equityRatio := SafeDiv(f.netAssets as real, f.totalAssets as real) * 100.0;
    var loanSalesRatio := SafeDiv(Debt(f) as real, sales / 12.0);
    var currentRatio := SafeDiv(f.currentAssets as real, f.currentLiab as real) * 100.0;
    ScaledQuotient(f.opProfit as real, sales, 100.0, opMargin);
    ScaledQuotient(f.netAssets as real, f.totalAssets as real, 100.0, equityRatio);
    ScaledQuotient(f.currentAssets as real, f.currentLiab as real, 100.0, currentRatio);
    QuotientOverScaled(f.inventory as real, f.cogs as real, 365.0, invDays);
    QuotientOverScaled(Debt(f) as real, sales, 12.0, loanSalesRatio);
    PeriodRatios(opMargin, fixedTurn, invDays, salesPerEmp, opPerEmp,
                 equityRatio, loanSalesRatio, currentRatio,
                 (f.currentAssets - f.currentLiab) as real, Redemption(f))
  }

  /** `safe_div(n, d) * k` multiplies back to `n * k`. */
  lemma ScaledQuotient(n: real, d: real, k: real, r: real)
    requires r == SafeDiv(n, d) * k
    ensures d == 0.0 ==> r == 0.0
    ensures d != 0.0 ==> r * d == n * k
  {
  }

  /** `safe_div(n, d / k)` multiplies back to `n * k`. */
  lemma QuotientOverScaled(n: real, d: real, k: real, r: real)
    requires k > 0.0
    requires r == SafeDiv(n, d / k)
    ensures d == 0.0 ==> r == 0.0
    ensures d != 0.0 ==> r * d == n * k
  {
  }

  /** Free cash flow: 60% of operating profit, plus depreciation, minus the
      growth in fixed assets plus depreciation. */
  function FreeCashFlow(c: Figures, p: Figures): (r: real)
  {
    (c.opProfit as real * 0.6 + c.depreciation as real)
      - ((c.fixedAssets - p.fixedAssets) as real + c.depreciation as real)
  }

  /** Depreciation is added and then subtracted again: free cash flow is
      60% of operating profit less the growth in fixed assets, whatever the
      depreciation. */
  lemma FreeCashFlowShape(c: Figures, p: Figures, dep: int)
    ensures FreeCashFlow(c, p) == 0.6 * c.opProfit as real - (c.fixedAssets - p.fixedAssets) as real
    ensures FreeCashFlow(c.(depreciation := dep), p) == FreeCashFlow(c, p)
  {
  }

  /** All KPI values for a current and a prior period. Free cash flow and
      the growth rates exist only for the current period. */
  function Evaluate(c: Figures, p: Figures): (r: Report)
    ensures r.curr == Ratios(c) && r.prev == Ratios(p)
    ensures r.salesGrowth == CalcGrowth(c.sales, p.sales) && r.opGrowth == CalcGrowth(c.opProfit, p.opProfit)
    ensures r.salesGrowth.None? <==> p.sales <= 0
    ensures r.opGrowth.None? <==> p.opProfit <= 0
    ensures r.fcf == FreeCashFlow(c, p)
    ensures r.fcf == 0.6 * c.opProfit as real - (c.fixedAssets - p.fixedAssets) as real
  {
    Report(Ratios(c), Ratios(p), FreeCashFlow(c, p),
           CalcGrowth(c.sales, p.sales), CalcGrowth(c.opProfit, p.opProfit))
  }
}
