/** Scoring: each of the five categories is the mean of two `calc_score`
    results, the overall score is the mean of the five, and the verdict
    follows from the overall score. */
module Scoring {
  import opened Helpers
  import opened Ledger
  import opened Kpi

  /** The `scores` dictionary, in its key order: profitability, growth,
      efficiency, productivity, safety. */
  datatype CategoryScores = CategoryScores(
    profitability: real, growth: real, efficiency: real, productivity: real, safety: real)

  /** `scores.values()` in insertion order. */
  function Values(s: CategoryScores): (vs: seq<real>)
    ensures |vs| == 5
  {
    [s.profitability, s.growth, s.efficiency, s.productivity, s.safety]
  }

  /** Python's `sum`: a left fold from 0. */
  function Sum(xs: seq<real>): real
  {
    if xs == [] then 0.0 else Sum(xs[..|xs| - 1]) + xs[|xs| - 1]
  }

  /** A sum of values that each lie in [1, 5] lies in [n, 5n]. */
  lemma {:induction false} SumBounds(xs: seq<real>)
    requires forall i :: 0 <= i < |xs| ==> 1.0 <= xs[i] <= 5.0
    ensures |xs| as real <= Sum(xs) <= 5.0 * |xs| as real
  {
    if xs != [] {
      SumBounds(xs[..|xs| - 1]);
    }
  }

  /** Operating-profit-growth sub-score: the growth rate against 0/3/5/10,
      forced to 5 when an operating loss (or zero) turned into a profit. */
  function OpGrowthScore(c: Figures, p: Figures): (r: int)
    ensures 1 <= r <= 5
    ensures p.opProfit <= 0 ==> (r == 5 <==> c.opProfit > 0)
    ensures p.opProfit <= 0 ==> (r == 1 <==> c.opProfit <= 0)
  {
    var s := CalcScore(CalcGrowth(c.opProfit, p.opProfit), 0.0, 3.0, 5.0, 10.0, false);
    if p.opProfit <= 0 && c.opProfit > 0 then 5 else s
  }

  /** With a profitable prior period the override never applies: the score
      reaches 5, 4, 3 and 2 at rises of 10%, 5%, 3% and 0%, stated here in
      the integer figures (10 * current >= 11 * prior for the top tier). */
  lemma {:induction false} OpGrowthTopTier(c: Figures, p: Figures)
    requires p.opProfit > 0
    ensures OpGrowthScore(c, p) == 5 <==> 10 * c.opProfit >= 11 * p.opProfit
    ensures OpGrowthScore(c, p) >= 4 <==> 20 * c.opProfit >= 21 * p.opProfit
    ensures OpGrowthScore(c, p) >= 3 <==> 100 * c.opProfit >= 103 * p.opProfit
    ensures OpGrowthScore(c, p) >= 2 <==> c.opProfit >= p.opProfit
  {
    var g := CalcGrowth(c.opProfit, p.opProfit);
    CalcScoreTiersUp(g.value, 0.0, 3.0, 5.0, 10.0);
    ScaledAtLeast(g.value, p.opProfit as real, (c.opProfit - p.opProfit) as real * 100.0, 10.0);
    ScaledAtLeast(g.value, p.opProfit as real, (c.opProfit - p.opProfit) as real * 100.0, 5.0);
    ScaledAtLeast(g.value, p.opProfit as real, (c.opProfit - p.opProfit) as real * 100.0, 3.0);
  }

  /** For a positive scale d, a quotient x with x * d == y reaches k exactly
      when y reaches k * d. */
  lemma ScaledAtLeast(x: real, d: real, y: real, k: real)
    requires d > 0.0
    requires x * d == y
    ensures x >= k <==> y >= k * d
  {
  }

  /** The five category means. The current ratio, working capital and
      debt-repayment years are displayed but never scored. */
  function Scores(c: Figures, p: Figures): (s: CategoryScores)
    ensures forall i :: 0 <= i < 5 ==> 1.0 <= Values(s)[i] <= 5.0
    ensures s.profitability == (CalcScore(Some(Ratios(c).opMargin), 0.0, 2.0, 5.0, 10.0, false)
                                + CalcScore(Some(FreeCashFlow(c, p)), -1000.0, 0.0, 1000.0, 5000.0, false)) as real / 2.0
    ensures s.efficiency == (CalcScore(Some(Ratios(c).fixedTurn), 1.0, 3.0, 5.0, 10.0, false)
                             + CalcScore(Some(Ratios(c).invDays), 180.0, 90.0, 60.0, 30.0, true)) as real / 2.0
    ensures s.productivity == (CalcScore(Some(Ratios(c).salesPerEmp), 10000.0, 15000.0, 20000.0, 30000.0, false)
                               + CalcScore(Some(Ratios(c).opPerEmp), 0.0, 500.0, 1000.0, 2000.0, false)) as real / 2.0
    ensures s.safety == (CalcScore(Some(Ratios(c).equityRatio), 10.0, 20.0, 40.0, 60.0, false)
                         + CalcScore(Some(Ratios(c).loanSalesRatio), 12.0, 6.0, 3.0, 1.0, true)) as real / 2.0
    ensures s.growth == (CalcScore(CalcGrowth(c.sales, p.sales), 0.0, 3.0, 5.0, 10.0, false)
                         + OpGrowthScore(c, p)) as real / 2.0
    ensures p.opProfit <= 0 && c.opProfit > 0 ==> s.growth >= 3.0
  {
    var k := Evaluate(c, p);
    var salesGrowthScore := CalcScore(k.salesGrowth, 0.0, 3.0, 5.0, 10.0, false);
    CategoryScores(
      (CalcScore(Some(k.curr.opMargin), 0.0, 2.0, 5.0, 10.0, false)
        + CalcScore(Some(k.fcf), -1000.0, 0.0, 1000.0, 5000.0, false)) as real / 2.0,
      (salesGrowthScore + OpGrowthScore(c, p)) as real / 2.0,
      (CalcScore(Some(k.curr.fixedTurn), 1.0, 3.0, 5.0, 10.0, false)
        + CalcScore(Some(k.curr.invDays), 180.0, 90.0, 60.0, 30.0, true)) as real / 2.0,
      (CalcScore(Some(k.curr.salesPerEmp), 10000.0, 15000.0, 20000.0, 30000.0, false)
        + CalcScore(Some(k.curr.opPerEmp), 0.0, 500.0, 1000.0, 2000.0, false)) as real / 2.0,
      (CalcScore(Some(k.curr.equityRatio), 10.0, 20.0, 40.0, 60.0, false)
        + CalcScore(Some(k.curr.loanSalesRatio), 12.0, 6.0, 3.0, 1.0, true)) as real / 2.0)
  }

  /** Profitability is 5 exactly when the operating margin reaches 10% and
      free cash flow reaches 5000; it is 1 exactly when the margin is
      negative and free cash flow is below -1000. */
  lemma ProfitabilityTiers(c: Figures, p: Figures)
    ensures Scores(c, p).profitability == 5.0 <==> Ratios(c).opMargin >= 10.0 && FreeCashFlow(c, p) >= 5000.0
    ensures Scores(c, p).profitability == 1.0 <==> Ratios(c).opMargin < 0.0 && FreeCashFlow(c, p) < -1000.0
  {
    CalcScoreTiersUp(Ratios(c).opMargin, 0.0, 2.0, 5.0, 10.0);
    CalcScoreTiersUp(FreeCashFlow(c, p), -1000.0, 0.0, 1000.0, 5000.0);
  }

  /** Growth is 5 exactly when sales grew by at least 10% and the
      operating-profit sub-score is 5 (a rise of 10% or a turnaround); it is
      1 exactly when sales growth is undefined or negative and the
      operating-profit sub-score is 1. */
  lemma GrowthTiers(c: Figures, p: Figures)
    ensures Scores(c, p).growth == 5.0
            <==> p.sales > 0 && CalcGrowth(c.sales, p.sales).value >= 10.0 && OpGrowthScore(c, p) == 5
    ensures Scores(c, p).growth == 1.0
            <==> (p.sales <= 0 || CalcGrowth(c.sales, p.sales).value < 0.0) && OpGrowthScore(c, p) == 1
  {
    if p.sales > 0 {
      CalcScoreTiersUp(CalcGrowth(c.sales, p.sales).value, 0.0, 3.0, 5.0, 10.0);
    }
  }

  /** Efficiency is 5 exactly when fixed assets turn over at least 10 times
      and inventory lasts at most 30 days; it is 1 exactly when turnover is
      below 1 and inventory lasts more than 180 days. */
  lemma EfficiencyTiers(c: Figures, p: Figures)
    ensures Scores(c, p).efficiency == 5.0 <==> Ratios(c).fixedTurn >= 10.0 && Ratios(c).invDays <= 30.0
    ensures Scores(c, p).efficiency == 1.0 <==> Ratios(c).fixedTurn < 1.0 && Ratios(c).invDays > 180.0
  {
    CalcScoreTiersUp(Ratios(c).fixedTurn, 1.0, 3.0, 5.0, 10.0);
    CalcScoreTiersDown(Ratios(c).invDays, 180.0, 90.0, 60.0, 30.0);
  }

  /** Productivity is 5 exactly when sales per employee reach 30000 and
      operating profit per employee 2000; it is 1 exactly when sales per
      employee are below 10000 and operating profit per employee negative. */
  lemma ProductivityTiers(c: Figures, p: Figures)
    ensures Scores(c, p).productivity == 5.0 <==> Ratios(c).salesPerEmp >= 30000.0 && Ratios(c).opPerEmp >= 2000.0
    ensures Scores(c, p).productivity == 1.0 <==> Ratios(c).salesPerEmp < 10000.0 && Ratios(c).opPerEmp < 0.0
  {
    CalcScoreTiersUp(Ratios(c).salesPerEmp, 10000.0, 15000.0, 20000.0, 30000.0);
    CalcScoreTiersUp(Ratios(c).opPerEmp, 0.0, 500.0, 1000.0, 2000.0);
  }

  /** Safety is 5 exactly when the equity ratio reaches 60% and loans are at
      most one month of sales; it is 1 exactly when the equity ratio is below
      10% and loans exceed twelve months of sales. */
  lemma SafetyTiers(c: Figures, p: Figures)
    ensures Scores(c, p).safety == 5.0 <==> Ratios(c).equityRatio >= 60.0 && Ratios(c).loanSalesRatio <= 1.0
    ensures Scores(c, p).safety == 1.0 <==> Ratios(c).equityRatio < 10.0 && Ratios(c).loanSalesRatio > 12.0
  {
    CalcScoreTiersUp(Ratios(c).equityRatio, 10.0, 20.0, 40.0, 60.0);
    CalcScoreTiersDown(Ratios(c).loanSalesRatio, 12.0, 6.0, 3.0, 1.0);
  }

  /** Against a fixed prior period, a larger current figure never gives a
      smaller growth rate. */
  lemma GrowthMonotone(c1: int, c2: int, prev: int)
    requires prev > 0 && c1 <= c2
    ensures CalcGrowth(c1, prev).value <= CalcGrowth(c2, prev).value
  {
    var g1 := CalcGrowth(c1, prev).value;
    var g2 := CalcGrowth(c2, prev).value;
    ScaledAtLeast(g2, prev as real, (c2 - prev) as real * 100.0, g1);
  }

  /** A higher current operating profit never lowers the operating-profit
      sub-score, with or without the turnaround override. */
  lemma OpGrowthScoreMonotone(c1: Figures, c2: Figures, p: Figures)
    requires c1.opProfit <= c2.opProfit
    ensures OpGrowthScore(c1, p) <= OpGrowthScore(c2, p)
  {
    if p.opProfit > 0 {
      GrowthMonotone(c1.opProfit, c2.opProfit, p.opProfit);
      CalcScoreMonotoneUp(CalcGrowth(c1.opProfit, p.opProfit).value, CalcGrowth(c2.opProfit, p.opProfit).value,
                          0.0, 3.0, 5.0, 10.0);
    }
  }

  /** Profitability moves with its KPIs: a higher margin and a higher free
      cash flow never lower it. */
  lemma ProfitabilityMonotone(c1: Figures, c2: Figures, p: Figures)
    requires Ratios(c1).opMargin <= Ratios(c2).opMargin && FreeCashFlow(c1, p) <= FreeCashFlow(c2, p)
    ensures Scores(c1, p).profitability <= Scores(c2, p).profitability
  {
    CalcScoreMonotoneUp(Ratios(c1).opMargin, Ratios(c2).opMargin, 0.0, 2.0, 5.0, 10.0);
    CalcScoreMonotoneUp(FreeCashFlow(c1, p), FreeCashFlow(c2, p), -1000.0, 0.0, 1000.0, 5000.0);
  }

  /** Growth moves with the current period: more sales and more operating
      profit against the same prior period never lower it. */
  lemma GrowthCategoryMonotone(c1: Figures, c2: Figures, p: Figures)
    requires c1.sales <= c2.sales && c1.opProfit <= c2.opProfit
    ensures Scores(c1, p).growth <= Scores(c2, p).growth
  {
    if p.sales > 0 {
      GrowthMonotone(c1.sales, c2.sales, p.sales);
      CalcScoreMonotoneUp(CalcGrowth(c1.sales, p.sales).value, CalcGrowth(c2.sales, p.sales).value,
                          0.0, 3.0, 5.0, 10.0);
    }
    OpGrowthScoreMonotone(c1, c2, p);
  }

  /** Efficiency moves with its KPIs: a higher fixed-asset turnover and
      fewer inventory days never lower it. */
  lemma EfficiencyMonotone(c1: Figures, c2: Figures, p: Figures)
    requires Ratios(c1).fixedTurn <= Ratios(c2).fixedTurn && Ratios(c2).invDays <= Ratios(c1).invDays
    ensures Scores(c1, p).efficiency <= Scores(c2, p).efficiency
  {
    CalcScoreMonotoneUp(Ratios(c1).fixedTurn, Ratios(c2).fixedTurn, 1.0, 3.0, 5.0, 10.0);
    CalcScoreMonotoneDown(Ratios(c2).invDays, Ratios(c1).invDays, 180.0, 90.0, 60.0, 30.0);
  }

  /** Productivity moves with its KPIs: higher sales and operating profit
      per employee never lower it. */
  lemma ProductivityMonotone(c1: Figures, c2: Figures, p: Figures)
    requires Ratios(c1).salesPerEmp <= Ratios(c2).salesPerEmp && Ratios(c1).opPerEmp <= Ratios(c2).opPerEmp
    ensures Scores(c1, p).productivity <= Scores(c2, p).productivity
  {
    CalcScoreMonotoneUp(Ratios(c1).salesPerEmp, Ratios(c2).salesPerEmp, 10000.0, 15000.0, 20000.0, 30000.0);
    CalcScoreMonotoneUp(Ratios(c1).opPerEmp, Ratios(c2).opPerEmp, 0.0, 500.0, 1000.0, 2000.0);
  }

  /** Safety moves with its KPIs: a higher equity ratio and a smaller loan
      multiple never lower it. */
  lemma SafetyMonotone(c1: Figures, c2: Figures, p: Figures)
    requires Ratios(c1).equityRatio <= Ratios(c2).equityRatio && Ratios(c2).loanSalesRatio <= Ratios(c1).loanSalesRatio
    ensures Scores(c1, p).safety <= Scores(c2, p).safety
  {
    CalcScoreMonotoneUp(Ratios(c1).equityRatio, Ratios(c2).equityRatio, 10.0, 20.0, 40.0, 60.0);
    CalcScoreMonotoneDown(Ratios(c2).loanSalesRatio, Ratios(c1).loanSalesRatio, 12.0, 6.0, 3.0, 1.0);
  }

  /** `avg_score`: the mean of the five category scores. */
  function AvgScore(s: CategoryScores): real
  {
    Sum(Values(s)) / 5.0
  }

  /** The mean of five scores is their plain sum over five. */
  lemma AvgScoreIsMean(s: CategoryScores)
    ensures AvgScore(s) == (s.profitability + s.growth + s.efficiency + s.productivity + s.safety) / 5.0
  {
    var vs := Values(s);
    assert Sum(vs[..1]) == vs[0] by { assert vs[..1][..0] == []; }
    assert Sum(vs[..2]) == vs[0] + vs[1] by { assert vs[..2][..1] == vs[..1]; }
    assert Sum(vs[..3]) == vs[0] + vs[1] + vs[2] by { assert vs[..3][..2] == vs[..2]; }
    assert Sum(vs[..4]) == vs[0] + vs[1] + vs[2] + vs[3] by { assert vs[..4][..3] == vs[..3]; }
    assert vs[..5] == vs;
  }

  /** The overall score of any evaluation lies in [1, 5]. */
  lemma AvgScoreInRange(c: Figures, p: Figures)
    ensures 1.0 <= AvgScore(Scores(c, p)) <= 5.0
  {
    SumBounds(Values(Scores(c, p)));
  }

  /** Scoring ignores the current ratio, working capital and repayment
      years: current assets and liabilities, ordinary profit, depreciation
      and tax can change without moving any score. */
  lemma ScoresIgnoreUnscoredKpis(c: Figures, p: Figures, ca: int, cl: int, ord: int, dep: int, tax: int)
    ensures Scores(c.(currentAssets := ca, currentLiab := cl, ordProfit := ord, depreciation := dep, tax := tax), p)
            == Scores(c, p)
  {
  }

  /** The message under the overall score. */
  datatype Verdict = Healthy | Standard | Urgent

  /** Healthy from 4, standard from 3, urgent below. */
  function VerdictOf(avg: real): (v: Verdict)
    ensures v == Healthy <==> avg >= 4.0
    ensures v == Standard <==> 3.0 <= avg < 4.0
    ensures v == Urgent <==> avg < 3.0
  {
    if avg >= 4.0 then Healthy
    else if avg >= 3.0 then Standard
    else Urgent
  }

  /** The prior-period trace of the radar chart: 3 everywhere except
      profitability, which scores the prior operating margin alone. */
  function PriorRadar(p: Figures): (s: CategoryScores)
    ensures s.growth == 3.0 && s.efficiency == 3.0 && s.productivity == 3.0 && s.safety == 3.0
    ensures s.profitability == CalcScore(Some(Ratios(p).opMargin), 0.0, 2.0, 5.0, 10.0, false) as real
    ensures 1.0 <= s.profitability <= 5.0
    ensures p.sales > 0 ==> (s.profitability == 5.0 <==> 10 * p.opProfit >= p.sales)
    ensures p.sales > 0 ==> (s.profitability >= 4.0 <==> 20 * p.opProfit >= p.sales)
    ensures p.sales > 0 ==> (s.profitability >= 3.0 <==> 50 * p.opProfit >= p.sales)
    ensures p.sales > 0 ==> (s.profitability >= 2.0 <==> p.opProfit >= 0)
    ensures p.sales == 0 ==> s.profitability == 2.0
  {
    var m := Ratios(p).opMargin;
    CalcScoreTiersUp(m, 0.0, 2.0, 5.0, 10.0);
    MarginTiers(m, p.sales, p.opProfit);
    CategoryScores(CalcScore(Some(m), 0.0, 2.0, 5.0, 10.0, false) as real,
                   3.0, 3.0, 3.0, 3.0)
  }

  /** With positive sales, the margin thresholds 10, 5, 2 and 0 percent in
      integer terms. */
  lemma MarginTiers(m: real, sales: int, op: int)
    requires sales > 0 ==> m * sales as real == op as real * 100.0
    ensures sales > 0 ==> (m >= 10.0 <==> 10 * op >= sales)
    ensures sales > 0 ==> (m >= 5.0 <==> 20 * op >= sales)
    ensures sales > 0 ==> (m >= 2.0 <==> 50 * op >= sales)
    ensures sales > 0 ==> (m >= 0.0 <==> op >= 0)
  {
    if sales > 0 {
      var y := op as real * 100.0;
      ScaledAtLeast(m, sales as real, y, 10.0);
      ScaledAtLeast(m, sales as real, y, 5.0);
      ScaledAtLeast(m, sales as real, y, 2.0);
      ScaledAtLeast(m, sales as real, y, 0.0);
    }
  }

  /** What the report shows above the KPI table. */
  datatype Diagnosis = Diagnosis(
    kpis: Report, scores: CategoryScores, prior: CategoryScores, avg: real, verdict: Verdict)

  /** One full evaluation of the engine. */
  function Diagnose(c: Figures, p: Figures): (d: Diagnosis)
    ensures d.kpis == Evaluate(c, p) && d.scores == Scores(c, p) && d.prior == PriorRadar(p)
    ensures d.avg == AvgScore(d.scores)
    ensures d.avg == (d.scores.profitability + d.scores.growth + d.scores.efficiency
                      + d.scores.productivity + d.scores.safety) / 5.0
    ensures 1.0 <= d.avg <= 5.0
    ensures d.verdict == VerdictOf(d.avg)
    ensures d.verdict == Healthy <==> d.avg >= 4.0
    ensures d.verdict == Standard <==> 3.0 <= d.avg < 4.0
    ensures d.verdict == Urgent <==> d.avg < 3.0
  {
    var s := Scores(c, p);
    AvgScoreInRange(c, p);
    AvgScoreIsMean(s);
    Diagnosis(Evaluate(c, p), s, PriorRadar(p), AvgScore(s), VerdictOf(AvgScore(s)))
  }
}
