/** The per-period record of the live-recalculating page. Its
    `create_inputs` has no extraordinary items, no pre-tax and no net
    profit; everything else is derived as on the submit-then-display page. */
module LedgerV3 {
  import Ledger

  /** The line items of one period on this page. */
  datatype Entries = Entries(
    sales: int, cogs: int, depreciation: int, sga: int,
    nonOpInc: int, nonOpExp: int, tax: int,
    cash: int, receivables: int, inventory: int, otherCa: int, fixedAssets: int,
    payables: int, shortLoan: int, otherCl: int, longLoan: int, netAssets: int,
    employees: int)

  /** The dictionary `d` of this page's `create_inputs`. */
  datatype Statement = Statement(
    entries: Entries,
    grossProfit: int, opProfit: int, ordProfit: int,
    currentAssets: int, totalAssets: int,
    currentLiab: int, fixedLiab: int, totalLiabEquity: int)

  /** The values each input widget starts from (both periods alike). */
  const Defaults := Entries(100000, 70000, 2000, 25000, 0, 500, 500,
                            15000, 12000, 5000, 1000, 20000,
                            8000, 10000, 2000, 20000, 13000, 10)

  /** `create_inputs`: derive the subtotals and report the balance check,
      which never withholds the record. */
  function CreateInputs(e: Entries): (r: (Statement, Ledger.BalanceNotice))
    ensures r.0.entries == e
    ensures r.0.ordProfit == e.sales - e.cogs - e.sga + e.nonOpInc - e.nonOpExp
    ensures r.0.totalAssets == e.cash + e.receivables + e.inventory + e.otherCa + e.fixedAssets
    ensures r.0.totalLiabEquity == e.payables + e.shortLoan + e.otherCl + e.longLoan + e.netAssets
    ensures r.1 == Ledger.Balanced <==> r.0.totalAssets == r.0.totalLiabEquity
    ensures r.1.Mismatch? ==> r.1.diff == r.0.totalAssets - r.0.totalLiabEquity && r.1.diff != 0
  {
    var gross := e.sales - e.cogs;
    var op := gross - e.sga;
    var ord := op + e.nonOpInc - e.nonOpExp;
    var ca := e.cash + e.receivables + e.inventory + e.otherCa;
    var ta := ca + e.fixedAssets;
    var cl := e.payables + e.shortLoan + e.otherCl;
    var fl := e.longLoan;
    var tle := cl + fl + e.netAssets;
    var diff := ta - tle;
    (Statement(e, gross, op, ord, ca, ta, cl, fl, tle),
     if diff != 0 then Ledger.Mismatch(diff) else Ledger.Balanced)
  }

  /** The engine's view of a record on this page. */
  function FiguresOf(s: Statement): Ledger.Figures
  {
    var e := s.entries;
    Ledger.Figures(e.sales, e.cogs, e.depreciation, s.opProfit, s.ordProfit, e.tax,
                   e.inventory, e.fixedAssets, e.employees, e.netAssets,
                   s.totalAssets, s.currentAssets, s.currentLiab, e.shortLoan, e.longLoan)
  }

  /** The same entries on the other page, with no extraordinary items. */
  function Lift(e: Entries): (l: Ledger.Entries)
    ensures l.extraInc == 0 && l.extraExp == 0
  {
    Ledger.Entries(e.sales, e.cogs, e.depreciation, e.sga, e.nonOpInc, e.nonOpExp, 0, 0, e.tax,
                   e.cash, e.receivables, e.inventory, e.otherCa, e.fixedAssets,
                   e.payables, e.shortLoan, e.otherCl, e.longLoan, e.netAssets, e.employees)
  }

  /** The two pages derive the same figures and the same balance notice:
      feeding this page's entries, with no extraordinary items, to the other
      page's `create_inputs` changes nothing the engine or the user sees. */
  lemma AgreesWithSubmitPage(e: Entries)
    ensures FiguresOf(CreateInputs(e).0) == Ledger.FiguresOf(Ledger.CreateInputs(Lift(e)).record)
    ensures CreateInputs(e).1 == Ledger.CreateInputs(Lift(e)).notice
  {
  }
}
