/** The live-recalculating page: no gate and no session flag; the whole
    report is recomputed from the form on every rerun. */
module PageV3 {
  import opened Ledger
  import opened Scoring
  import opened KpiTable
  import opened KpiList
  import opened Kpi
  import LedgerV3

  /** One rerun: derive both periods, evaluate, and lay out the KPI table.
      The balance notices are returned beside the report, never instead of it. */
  method Render(curr: LedgerV3.Entries, prev: LedgerV3.Entries)
    returns (view: View, currNotice: BalanceNotice, prevNotice: BalanceNotice)
    ensures var c := LedgerV3.FiguresOf(LedgerV3.CreateInputs(curr).0);
            var p := LedgerV3.FiguresOf(LedgerV3.CreateInputs(prev).0);
            && view.diagnosis == Diagnose(c, p)
            && Flatten(view.table) == AnnotateAll(KpiDefinitions(c, p))
            && WellGrouped(view.table)
    ensures currNotice == LedgerV3.CreateInputs(curr).1 && prevNotice == LedgerV3.CreateInputs(prev).1
    ensures currNotice == Balanced <==> LedgerV3.CreateInputs(curr).0.totalAssets == LedgerV3.CreateInputs(curr).0.totalLiabEquity
    ensures prevNotice == Balanced <==> LedgerV3.CreateInputs(prev).0.totalAssets == LedgerV3.CreateInputs(prev).0.totalLiabEquity
  {
    var cd := LedgerV3.CreateInputs(curr);
    var pd := LedgerV3.CreateInputs(prev);
    currNotice, prevNotice := cd.1, pd.1;
    var c := LedgerV3.FiguresOf(cd.0);
    var p := LedgerV3.FiguresOf(pd.0);
    var table := BuildTable(KpiDefinitions(c, p));
    view := View(Diagnose(c, p), table);
  }

  /** Zero denominators on this page: no cost of sales gives 0 inventory
      days, no sales a 0 loan-to-monthly-sales multiple, no assets a 0
      equity ratio; a non-zero denominator gives the true quotient. */
  lemma ZeroDenominatorsV3(e: LedgerV3.Entries)
    ensures var r := Ratios(LedgerV3.FiguresOf(LedgerV3.CreateInputs(e).0));
            && (e.cogs == 0 ==> r.invDays == 0.0)
            && (e.cogs != 0 ==> r.invDays * e.cogs as real == e.inventory as real * 365.0)
            && (e.sales == 0 ==> r.loanSalesRatio == 0.0)
            && (e.sales != 0 ==> r.loanSalesRatio * e.sales as real == (e.shortLoan + e.longLoan) as real * 12.0)
            && (LedgerV3.CreateInputs(e).0.totalAssets == 0 ==> r.equityRatio == 0.0)
            && (LedgerV3.CreateInputs(e).0.totalAssets != 0 ==>
                  r.equityRatio * LedgerV3.CreateInputs(e).0.totalAssets as real == e.netAssets as real * 100.0)
  {
  }
}
