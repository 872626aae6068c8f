/** The per-period statement record built by `create_inputs` on the
    submit-then-display page: the entered line items plus the profit and
    balance-sheet subtotals derived from them, and the balance check. */
module Ledger {

  /** The line items a user enters for one period, in thousands of yen
      (employees is a head count). Every widget yields an integer. */
  datatype Entries = Entries(
    sales: int, cogs: int, depreciation: int, sga: int,
    nonOpInc: int, nonOpExp: int, extraInc: int, extraExp: int, tax: int,
    cash: int, receivables: int, inventory: int, otherCa: int, fixedAssets: int,
    payables: int, shortLoan: int, otherCl: int, longLoan: int, netAssets: int,
    employees: int)

  /** The dictionary `d` returned by `create_inputs`: the entries and the
      subtotals layered on them. */
  datatype Statement = Statement(
    entries: Entries,
    grossProfit: int, opProfit: int, ordProfit: int, preTaxProfit: int, netProfit: int,
    currentAssets: int, totalAssets: int,
    currentLiab: int, fixedLiab: int, totalLiabEquity: int)

  /** The message shown under the form: balanced, or the difference
      total assets minus total liabilities and equity. */
  datatype BalanceNotice = Balanced | Mismatch(diff: int)

  /** What `create_inputs` yields: the record, always, and the notice it displayed. */
  datatype Derived = Derived(record: Statement, notice: BalanceNotice)

  /** The accounting identities every derived record satisfies. */
  predicate WellFormed(s: Statement)
  {
    var e := s.entries;
    && s.grossProfit == e.sales - e.cogs
    && s.opProfit == s.grossProfit - e.sga
    && s.ordProfit == s.opProfit + e.nonOpInc - e.nonOpExp
    && s.preTaxProfit == s.ordProfit + e.extraInc - e.extraExp
    && s.netProfit == s.preTaxProfit - e.tax
    && s.currentAssets == e.cash + e.receivables + e.inventory + e.otherCa
    && s.totalAssets == s.currentAssets + e.fixedAssets
    && s.currentLiab == e.payables + e.shortLoan + e.otherCl
    && s.fixedLiab == e.longLoan
    && s.totalLiabEquity == s.currentLiab + s.fixedLiab + e.netAssets
  }

  /** `create_inputs`: derive the subtotals of one period and check the
      balance sheet. A mismatch is only reported; the record is returned
      with every entry as typed. */
  function CreateInputs(e: Entries): (r: Derived)
    ensures r.record.entries == e
    ensures WellFormed(r.record)
    ensures r.record.netProfit
            == e.sales - e.cogs - e.sga + e.nonOpInc - e.nonOpExp + e.extraInc - e.extraExp - e.tax
    ensures r.record.totalAssets == e.cash + e.receivables + e.inventory + e.otherCa + e.fixedAssets
    ensures r.record.totalLiabEquity
            == e.payables + e.shortLoan + e.otherCl + e.longLoan + e.netAssets
    ensures r.notice == Balanced <==> r.record.totalAssets == r.record.totalLiabEquity
    ensures r.notice.Mismatch? ==> r.notice.diff == r.record.totalAssets - r.record.totalLiabEquity
                                   && r.notice.diff != 0
  {
    var gross := e.sales - e.cogs;
    var op := gross - e.sga;
    var ord := op + e.nonOpInc - e.nonOpExp;
    var preTax := ord + e.extraInc - e.extraExp;
    var net := preTax - e.tax;
    var ca := e.cash + e.receivables + e.inventory + e.otherCa;
    var ta := ca + e.fixedAssets;
    var cl := e.payables + e.shortLoan + e.otherCl;
    var fl := e.longLoan;
    var tle := cl + fl + e.netAssets;
    var diff := ta - tle;
    Derived(Statement(e, gross, op, ord, preTax, net, ca, ta, cl, fl, tle),
            if diff != 0 then Mismatch(diff) else Balanced)
  }

  /** The derivation is the only one: a record satisfying the identities is
      exactly what `create_inputs` builds from its own entries. */
  lemma WellFormedIsDerived(s: Statement)
    requires WellFormed(s)
    ensures CreateInputs(s.entries).record == s
  {
  }

  /** The figures the KPI engine reads from one period's record. */
  datatype Figures = Figures(
    sales: int, cogs: int, depreciation: int, opProfit: int, ordProfit: int, tax: int,
    inventory: int, fixedAssets: int, employees: int, netAssets: int,
    totalAssets: int, currentAssets: int, currentLiab: int, shortLoan: int, longLoan: int)

  /** The engine's view of a record: entries and subtotals under the keys
      the ratio formulas use. */
  function FiguresOf(s: Statement): Figures
  {
    var e := s.entries;
    Figures(e.sales, e.cogs, e.depreciation, s.opProfit, s.ordProfit, e.tax,
            e.inventory, e.fixedAssets, e.employees, e.netAssets,
            s.totalAssets, s.currentAssets, s.currentLiab, e.shortLoan, e.longLoan)
  }

  /** Extraordinary items reach net profit but not the engine: the ratios
      are computed from ordinary profit, so two periods that differ only in
      extraordinary income or loss give the same figures. */
  lemma ExtraordinaryItemsDoNotReachEngine(e: Entries, extraInc: int, extraExp: int)
    ensures FiguresOf(CreateInputs(e).record)
            == FiguresOf(CreateInputs(e.(extraInc := extraInc, extraExp := extraExp)).record)
  {
  }
}
