/** The submit-then-display page: a validation gate in front of the
    engine, the row handed to the spreadsheet log, and the session flag
    that keeps the report on screen across reruns. */
module Page {
  import opened Helpers
  import opened Ledger
  import opened Scoring
  import opened KpiTable
  import opened KpiList

  /** What the form holds when the diagnose button is pressed. The two
      choice widgets start with no selection. */
  datatype Form = Form(
    company: string, prefecture: Option<string>, industry: Option<string>,
    curr: Entries, prev: Entries)

  /** The field whose absence blocks the diagnosis. */
  datatype Field = CompanyName | Industry | Prefecture

  /** The outcome of the gate. */
  datatype Check = Ok | Missing(field: Field)

  /** Python falsiness of a selection: nothing selected, or an empty string. */
  predicate Blank(o: Option<string>)
  {
    o.None? || o.value == ""
  }

  /** The gate: company name, then industry, then prefecture; the first
      one missing is reported. */
  function Validate(f: Form): (r: Check)
    ensures r == Ok <==> f.company != "" && !Blank(f.industry) && !Blank(f.prefecture)
    ensures r == Missing(CompanyName) <==> f.company == ""
    ensures r == Missing(Industry) <==> f.company != "" && Blank(f.industry)
    ensures r == Missing(Prefecture) <==> f.company != "" && !Blank(f.industry) && Blank(f.prefecture)
  {
    if f.company == "" then Missing(CompanyName)
    else if Blank(f.industry) then Missing(Industry)
    else if Blank(f.prefecture) then Missing(Prefecture)
    else Ok
  }

  /** The current and prior figures the engine reads from the form. */
  function CurrFigures(f: Form): Figures
  {
    FiguresOf(CreateInputs(f.curr).record)
  }

  function PrevFigures(f: Form): Figures
  {
    FiguresOf(CreateInputs(f.prev).record)
  }

  /** The row handed to the spreadsheet log: time stamp, metadata, overall
      score, every entry and subtotal of both periods, and the thirteen
      current KPI values. */
  datatype LogRow = LogRow(
    stamp: string, company: string, prefecture: string, industry: string, avgScore: real,
    curr: Statement, prev: Statement, kpis: seq<Option<real>>)

  /** `save_row`, built only after the gate passed. Its score and KPI
      columns are those the report then displays for the same inputs. */
  function SaveRow(stamp: string, f: Form): (row: LogRow)
    requires Validate(f) == Ok
    ensures row.stamp == stamp
    ensures row.company == f.company && row.prefecture == f.prefecture.value
            && row.industry == f.industry.value
    ensures row.curr == CreateInputs(f.curr).record && row.prev == CreateInputs(f.prev).record
    ensures 1.0 <= row.avgScore <= 5.0
    ensures row.avgScore == Diagnose(CurrFigures(f), PrevFigures(f)).avg
    ensures |row.kpis| == 13
    ensures forall i :: 0 <= i < 13 ==> row.kpis[i] == KpiDefinitions(CurrFigures(f), PrevFigures(f))[i].curr
  {
    var c := CurrFigures(f);
    var p := PrevFigures(f);
    var d := Diagnose(c, p);
    var k := d.kpis;
    LogRow(stamp, f.company, f.prefecture.value, f.industry.value, d.avg,
           CreateInputs(f.curr).record, CreateInputs(f.prev).record,
           [Some(k.curr.opMargin), Some(k.fcf), k.salesGrowth, k.opGrowth,
            Some(k.curr.fixedTurn), Some(k.curr.invDays), Some(k.curr.salesPerEmp), Some(k.curr.opPerEmp),
            Some(k.curr.equityRatio), Some(k.curr.workingCapital), Some(k.curr.currentRatio),
            Some(k.curr.redemption), Some(k.curr.loanSalesRatio)])
  }

  /** The browser session of the page. */
  class DiagnosisPage {
    /** `has_diagnosed`: whether the report is shown on each rerun. */
    var hasDiagnosed: bool
    /** The rows handed to the spreadsheet log, oldest first. */
    var sent: seq<LogRow>

    constructor ()
      ensures !hasDiagnosed && sent == []
    {
      hasDiagnosed := false;
      sent := [];
    }

    /** The diagnose button: on a missing field, report it and change
        nothing; otherwise log one row and raise the flag. */
    method PressDiagnose(f: Form, stamp: string) returns (check: Check)
      modifies this
      ensures check == Validate(f)
      ensures check == Ok ==> hasDiagnosed && sent == old(sent) + [SaveRow(stamp, f)]
      ensures check != Ok ==> hasDiagnosed == old(hasDiagnosed) && sent == old(sent)
    {
      check := Validate(f);
      if check == Ok {
        var row := SaveRow(stamp, f);
        sent := sent + [row];
        hasDiagnosed := true;
      }
    }

    /** The start-over button: hide the report; nothing logged is withdrawn. */
    method PressStartOver()
      modifies this
      ensures !hasDiagnosed && sent == old(sent)
    {
      hasDiagnosed := false;
    }

    /** One rerun of the report section: nothing until the flag is raised,
        then the engine recomputed from the form as it now stands. */
    method ShowReport(f: Form) returns (view: Option<View>)
      ensures view.Some? <==> hasDiagnosed
      ensures view.Some? ==> view.value.diagnosis == Diagnose(CurrFigures(f), PrevFigures(f))
      ensures view.Some? ==> Flatten(view.value.table) == AnnotateAll(KpiDefinitions(CurrFigures(f), PrevFigures(f)))
                             && WellGrouped(view.value.table)
    {
      if !hasDiagnosed {
        return None;
      }
      var c := CurrFigures(f);
      var p := PrevFigures(f);
      var table := BuildTable(KpiDefinitions(c, p));
      view := Some(View(Diagnose(c, p), table));
    }
  }

  /** Pressing diagnose with a complete form and letting the page rerun
      shows a report whose overall score is the one just logged. */
  method SubmitAndShow(page: DiagnosisPage, f: Form, stamp: string) returns (check: Check, view: Option<View>)
    modifies page
    ensures check == Validate(f)
    ensures check == Ok ==> page.hasDiagnosed && page.sent == old(page.sent) + [SaveRow(stamp, f)]
                            && view.Some? && view.value.diagnosis.avg == page.sent[|page.sent| - 1].avgScore
    ensures check != Ok ==> page.sent == old(page.sent) && page.hasDiagnosed == old(page.hasDiagnosed)
                            && (view.Some? <==> old(page.hasDiagnosed))
  {
    check := page.PressDiagnose(f, stamp);
    view := page.ShowReport(f);
  }
}
