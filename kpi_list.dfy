/** The thirteen KPI definitions the report lists, in display order: each
    with its category, its unit and its current and prior values. */
module KpiList {
  import opened Helpers
  import opened Ledger
  import opened Kpi

  /** The unit column: %, 千円, 回, 倍, 年, 日. */
  datatype Unit = Percent | ThousandYen | Times | Multiple | Years | Days

  /** One entry of `kpi_definitions` (description and formula label are
      display text and are not modelled). */
  datatype KpiDef = KpiDef(cat: string, name: string, curr: Option<real>, unit: Unit, prev: Option<real>)

  /** The thirteen KPIs in display order. Free cash flow and the two growth
      rates have no prior value. */
  function KpiDefinitions(c: Figures, p: Figures): (defs: seq<KpiDef>)
    ensures |defs| == 13
    ensures forall i :: 0 <= i < 13 ==> (defs[i].prev.None? <==> 1 <= i <= 3)
    ensures forall i :: 0 <= i < 13 ==>
              (defs[i].curr.None? <==> (i == 2 && p.sales <= 0) || (i == 3 && p.opProfit <= 0))
  {
    var r, q := Ratios(c), Ratios(p);
    [ KpiDef("収益性", "営業利益率", Some(r.opMargin), Percent, Some(q.opMargin)),
      KpiDef("収益性", "フリーキャッシュフロー", Some(FreeCashFlow(c, p)), ThousandYen, None),
      KpiDef("成長性", "売上高成長率", CalcGrowth(c.sales, p.sales), Percent, None),
      KpiDef("成長性", "営業利益成長率", CalcGrowth(c.opProfit, p.opProfit), Percent, None),
      KpiDef("効率性", "固定資産回転率", Some(r.fixedTurn), Times, Some(q.fixedTurn)),
      KpiDef("効率性", "棚卸資産回転日数", Some(r.invDays), Days, Some(q.invDays)),
      KpiDef("生産性", "1人当たり売上高", Some(r.salesPerEmp), ThousandYen, Some(q.salesPerEmp)),
      KpiDef("生産性", "1人当たり営業利益", Some(r.opPerEmp), ThousandYen, Some(q.opPerEmp)),
      KpiDef("安全性", "自己資本比率", Some(r.equityRatio), Percent, Some(q.equityRatio)),
      KpiDef("安全性", "運転資本", Some(r.workingCapital), ThousandYen, Some(q.workingCapital)),
      KpiDef("安全性", "流動比率", Some(r.currentRatio), Percent, Some(q.currentRatio)),
      KpiDef("安全性", "債務償還年数", Some(r.redemption), Years, Some(q.redemption)),
      KpiDef("安全性", "借入金月商倍率", Some(r.loanSalesRatio), Multiple, Some(q.loanSalesRatio)) ]
  }

  /** The profitability rows: the operating margin of both periods, and
      the current free cash flow with no prior value. */
  lemma ProfitabilityRows(c: Figures, p: Figures)
    ensures var d := KpiDefinitions(c, p);
            && d[0].cat == "収益性" && d[0].unit == Percent
            && d[0].curr == Some(Ratios(c).opMargin) && d[0].prev == Some(Ratios(p).opMargin)
            && d[1].cat == "収益性" && d[1].unit == ThousandYen
            && d[1].curr == Some(FreeCashFlow(c, p)) && d[1].prev == None
  {
  }

  /** The growth rows: sales and operating-profit growth of the current
      period against the prior one, with no prior value. */
  lemma GrowthRows(c: Figures, p: Figures)
    ensures var d := KpiDefinitions(c, p);
            && d[2].cat == "成長性" && d[2].unit == Percent
            && d[2].curr == CalcGrowth(c.sales, p.sales) && d[2].prev == None
            && d[3].cat == "成長性" && d[3].unit == Percent
            && d[3].curr == CalcGrowth(c.opProfit, p.opProfit) && d[3].prev == None
  {
  }

  /** The efficiency rows: fixed-asset turnover and inventory days of both
      periods. */
  lemma EfficiencyRows(c: Figures, p: Figures)
    ensures var d := KpiDefinitions(c, p);
            && d[4].cat == "効率性" && d[4].unit == Times
            && d[4].curr == Some(Ratios(c).fixedTurn) && d[4].prev == Some(Ratios(p).fixedTurn)
            && d[5].cat == "効率性" && d[5].unit == Days
            && d[5].curr == Some(Ratios(c).invDays) && d[5].prev == Some(Ratios(p).invDays)
  {
  }

  /** The productivity rows: sales and operating profit per employee of
      both periods. */
  lemma ProductivityRows(c: Figures, p: Figures)
    ensures var d := KpiDefinitions(c, p);
            && d[6].cat == "生産性" && d[6].unit == ThousandYen
            && d[6].curr == Some(Ratios(c).salesPerEmp) && d[6].prev == Some(Ratios(p).salesPerEmp)
            && d[7].cat == "生産性" && d[7].unit == ThousandYen
            && d[7].curr == Some(Ratios(c).opPerEmp) && d[7].prev == Some(Ratios(p).opPerEmp)
  {
  }

  /** The safety rows: equity ratio, working capital, current ratio,
      repayment years and the loan multiple of both periods. */
  lemma SafetyRows(c: Figures, p: Figures)
    ensures var d := KpiDefinitions(c, p);
            && d[8].cat == "安全性" && d[8].unit == Percent
            && d[8].curr == Some(Ratios(c).equityRatio) && d[8].prev == Some(Ratios(p).equityRatio)
            && d[9].cat == "安全性" && d[9].unit == ThousandYen
            && d[9].curr == Some(Ratios(c).workingCapital) && d[9].prev == Some(Ratios(p).workingCapital)
            && d[10].cat == "安全性" && d[10].unit == Percent
            && d[10].curr == Some(Ratios(c).currentRatio) && d[10].prev == Some(Ratios(p).currentRatio)
            && d[11].cat == "安全性" && d[11].unit == Years
            && d[11].curr == Some(Ratios(c).redemption) && d[11].prev == Some(Ratios(p).redemption)
            && d[12].cat == "安全性" && d[12].unit == Multiple
            && d[12].curr == Some(Ratios(c).loanSalesRatio) && d[12].prev == Some(Ratios(p).loanSalesRatio)
  {
  }
}
