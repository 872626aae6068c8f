/** Concrete evaluations: the sample company the submit-then-display page
    fills in on request, and the default form of the live page. */
module Samples {
  import opened Helpers
  import opened Ledger
  import opened Kpi
  import opened Scoring
  import LedgerV3

  /** The sample button's current period. */
  const SampleCurr := Entries(100000, 70000, 2000, 25000, 500, 500, 0, 0, 1000,
                              15000, 12000, 5000, 1000, 20000,
                              8000, 10000, 2000, 20000, 13000, 10)

  /** The sample button's prior period. */
  const SamplePrev := Entries(90000, 63000, 2000, 24000, 0, 500, 0, 0, 500,
                              10000, 10000, 4000, 1000, 20000,
                              7000, 10000, 2000, 22000, 10000, 9)

  /** What the engine reads from the two sample periods. */
  const SampleCurrFigs := Figures(100000, 70000, 2000, 5000, 5000, 1000, 5000, 20000, 10, 13000,
                               53000, 33000, 20000, 10000, 20000)
  const SamplePrevFigs := Figures(90000, 63000, 2000, 3000, 2500, 500, 4000, 20000, 9, 10000,
                               45000, 25000, 19000, 10000, 22000)

  /** The sample's current period balances at 53000 on both sides.
      Operating profit is 100000 - 70000 - 25000 = 5000 and net profit 4000. */
  lemma SampleCurrStatement()
    ensures CreateInputs(SampleCurr).notice == Balanced
    ensures CreateInputs(SampleCurr).record.opProfit == 5000
    ensures CreateInputs(SampleCurr).record.netProfit == 4000
  {
  }

  /** The sample's prior period is 6000 short on the asset side (45000
      against 51000) and is still derived in full. */
  lemma SamplePrevStatement()
    ensures CreateInputs(SamplePrev).notice == Mismatch(-6000)
  {
  }

  /** The figures the engine reads from the sample's current period. */
  lemma SampleCurrFigures()
    ensures FiguresOf(CreateInputs(SampleCurr).record) == SampleCurrFigs
  {
  }

  /** The figures the engine reads from the sample's prior period. */
  lemma SamplePrevFigures()
    ensures FiguresOf(CreateInputs(SamplePrev).record) == SamplePrevFigs
  {
  }

  /** The sample's ratios: a 5.0% margin, which scores 4 because 5 sits on
      a threshold; fixed-asset turnover 5.0; 5.0 repayment years; a 3.6
      loan-to-monthly-sales multiple; sales up by 100/9 percent. */
  lemma SampleRatios()
    ensures Ratios(SampleCurrFigs).opMargin == 5.0
    ensures CalcScore(Some(Ratios(SampleCurrFigs).opMargin), 0.0, 2.0, 5.0, 10.0, false) == 4
    ensures Ratios(SampleCurrFigs).fixedTurn == 5.0
    ensures Ratios(SampleCurrFigs).redemption == 5.0
    ensures Ratios(SampleCurrFigs).loanSalesRatio == 3.6
    ensures Ratios(SampleCurrFigs).equityRatio * 53000.0 == 1300000.0
    ensures CalcGrowth(SampleCurrFigs.sales, SamplePrevFigs.sales) == Some(100.0 / 9.0)
  {
  }

  /** The sample scores 4, 5, 4.5, 2.5 and 3 by category. */
  lemma SampleScores()
    ensures Scores(SampleCurrFigs, SamplePrevFigs) == CategoryScores(4.0, 5.0, 4.5, 2.5, 3.0)
  {
  }

  /** Overall the sample scores 19/5 = 3.8: "standard". */
  lemma SampleDiagnosis()
    ensures Diagnose(FiguresOf(CreateInputs(SampleCurr).record), FiguresOf(CreateInputs(SamplePrev).record)).avg == 3.8
    ensures Diagnose(FiguresOf(CreateInputs(SampleCurr).record), FiguresOf(CreateInputs(SamplePrev).record)).verdict
            == Standard
  {
    SampleCurrFigures();
    SamplePrevFigures();
    SampleScores();
    AvgScoreIsMean(Scores(SampleCurrFigs, SamplePrevFigs));
  }

  /** What the engine reads from the live page's default form. */
  const DefaultFigures := Figures(100000, 70000, 2000, 5000, 4500, 500, 5000, 20000, 10, 13000,
                                  53000, 33000, 20000, 10000, 20000)

  /** The live page's untouched form: both periods hold the same default
      figures, so both growth rates are 0%, which scores 2, and the overall
      score is 16/5 = 3.2 from the category scores 4, 2, 4.5, 2.5 and 3;
      the prior radar shows 4 for profitability. */
  lemma DefaultFormDiagnosis()
    ensures LedgerV3.CreateInputs(LedgerV3.Defaults).1 == Balanced
    ensures LedgerV3.FiguresOf(LedgerV3.CreateInputs(LedgerV3.Defaults).0) == DefaultFigures
    ensures Evaluate(DefaultFigures, DefaultFigures).opGrowth == Some(0.0)
    ensures Scores(DefaultFigures, DefaultFigures) == CategoryScores(4.0, 2.0, 4.5, 2.5, 3.0)
    ensures Diagnose(DefaultFigures, DefaultFigures).avg == 3.2
    ensures Diagnose(DefaultFigures, DefaultFigures).prior == CategoryScores(4.0, 3.0, 3.0, 3.0, 3.0)
  {
    AvgScoreIsMean(Scores(DefaultFigures, DefaultFigures));
  }
}
