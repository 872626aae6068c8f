/** The detailed KPI table: the per-row display values and deltas, and the
    loop that annotates each KPI definition and gathers consecutive rows of
    one category into a section. */
module KpiTable {
  import opened Helpers
  import opened Ledger
  import opened Kpi
  import opened Scoring
  import opened KpiList

  /** Everything a report screen shows: the scores and verdict above, the
      sectioned KPI table below. */
  datatype View = View(diagnosis: Diagnosis, table: seq<Group>)

  /** A definition after the loop added `curr_disp`, `prev_disp` and `delta`. */
  datatype KpiRow = KpiRow(def: KpiDef, currDisp: Text, prevDisp: Text, delta: Text)

  /** One rendered section: a category heading and its rows. */
  datatype Group = Group(cat: string, rows: seq<KpiRow>)

  /** The formatter chosen by the unit chain; 倍 reuses the 回 formatter
      with the suffix replaced. */
  function StyleOf(u: Unit): Style
  {
    match u
    case Percent => PctStyle
    case ThousandYen => YenStyle
    case Times => TimesStyle
    case Multiple => BaiStyle
    case Years => YearStyle
    case Days => DaysStyle
  }

  /** One pass of the loop body: format both values by unit and compute the
      delta, which is "-" unless both values exist. Thousand-yen deltas use
      the yen formatter, every other delta the plain one-decimal form. */
  function Annotate(d: KpiDef): (row: KpiRow)
    ensures row.def == d
    ensures row.currDisp == Dash <==> d.curr.None?
    ensures row.prevDisp == Dash <==> d.prev.None?
    ensures row.delta == Dash <==> d.curr.None? || d.prev.None?
    ensures row.delta.Shown? ==> row.delta.value == d.curr.value - d.prev.value
    ensures row.delta.Shown? ==> (row.delta.style == YenStyle <==> d.unit == ThousandYen)
    ensures row.currDisp == Fmt(d.curr, StyleOf(d.unit)) && row.prevDisp == Fmt(d.prev, StyleOf(d.unit))
    ensures row.delta.Shown? && d.unit != ThousandYen ==> row.delta.style == PlainStyle
  {
    var style := StyleOf(d.unit);
    var delta :=
      if d.prev.Some? && d.curr.Some? then
        (if d.unit != ThousandYen then Shown(d.curr.value - d.prev.value, PlainStyle)
         else Fmt(Some(d.curr.value - d.prev.value), YenStyle))
      else Dash;
    KpiRow(d, Fmt(d.curr, style), Fmt(d.prev, style), delta)
  }

  /** The loop's rows, one annotated row per definition, in order. */
  function AnnotateAll(defs: seq<KpiDef>): (rows: seq<KpiRow>)
    ensures |rows| == |defs|
  {
    if defs == [] then [] else AnnotateAll(defs[..|defs| - 1]) + [Annotate(defs[|defs| - 1])]
  }

  /** Row i of the table is definition i, annotated. */
  lemma {:induction false} AnnotateAllAt(defs: seq<KpiDef>, i: int)
    requires 0 <= i < |defs|
    ensures AnnotateAll(defs)[i] == Annotate(defs[i])
  {
    if i < |defs| - 1 {
      AnnotateAllAt(defs[..|defs| - 1], i);
    }
  }

  /** The rows of all sections, in order. */
  function Flatten(groups: seq<Group>): seq<KpiRow>
  {
    if groups == [] then [] else Flatten(groups[..|groups| - 1]) + groups[|groups| - 1].rows
  }

  /** Every section is non-empty, holds rows of its own category only, and
      differs in category from the section before it. */
  predicate WellGrouped(groups: seq<Group>)
  {
    && (forall i :: 0 <= i < |groups| ==> SectionOk(groups[i]))
    && (forall i :: 0 < i < |groups| ==> groups[i - 1].cat != groups[i].cat)
  }

  /** A section is non-empty and all of its rows carry its category. */
  predicate SectionOk(g: Group)
  {
    g.rows != [] && forall j :: 0 <= j < |g.rows| ==> g.rows[j].def.cat == g.cat
  }

  /** Flushing a pending section onto the list. */
  lemma Flush(groups: seq<Group>, g: Group)
    requires WellGrouped(groups) && SectionOk(g)
    requires groups != [] ==> groups[|groups| - 1].cat != g.cat
    ensures WellGrouped(groups + [g])
    ensures Flatten(groups + [g]) == Flatten(groups) + g.rows
  {
    var gs := groups + [g];
    assert gs[..|groups|] == groups;
    forall i | 0 <= i < |gs|
      ensures SectionOk(gs[i])
    {
      if i < |groups| {
        assert gs[i] == groups[i];
      }
    }
    forall i | 0 < i < |gs|
      ensures gs[i - 1].cat != gs[i].cat
    {
      if i < |groups| {
        assert gs[i - 1] == groups[i - 1] && gs[i] == groups[i];
      }
    }
  }

  /** The display loop: annotate each definition in place and collect
      consecutive rows of one category into a section, flushing the pending
      section whenever the category changes and once more at the end. */
  method BuildTable(defs: seq<KpiDef>) returns (groups: seq<Group>)
    ensures Flatten(groups) == AnnotateAll(defs)
    ensures WellGrouped(groups)
  {
    var currentCat := "";
    var temp: seq<KpiRow> := [];
    groups := [];
    var n := 0;
    while n < |defs|
      invariant 0 <= n <= |defs|
      invariant Flatten(groups) + temp == AnnotateAll(defs[..n])
      invariant WellGrouped(groups)
      invariant forall j :: 0 <= j < |temp| ==> temp[j].def.cat == currentCat
      invariant temp == [] ==> groups == []
      invariant groups != [] ==> groups[|groups| - 1].cat != currentCat
    {
      var row := Annotate(defs[n]);
      if currentCat != row.def.cat {
        if temp != [] {
          Flush(groups, Group(currentCat, temp));
          groups := groups + [Group(currentCat, temp)];
        }
        temp := [];
        currentCat := row.def.cat;
      }
      assert defs[..n + 1][..n] == defs[..n];
      temp := temp + [row];
      n := n + 1;
    }
    assert defs[..n] == defs;
    if temp != [] {
      Flush(groups, Group(currentCat, temp));
      groups := groups + [Group(currentCat, temp)];
    }
  }

  /** The rows of KPIs without a baseline, free cash flow and the two growth
      rates, show "-" for the prior value and the delta, never 0; every
      other row shows both. */
  lemma NoBaselineRowsShowDash(c: Figures, p: Figures)
    ensures forall i :: 0 <= i < 13 ==>
      (AnnotateAll(KpiDefinitions(c, p))[i].prevDisp == Dash <==> 1 <= i <= 3)
    ensures forall i :: 0 <= i < 13 ==>
      (AnnotateAll(KpiDefinitions(c, p))[i].delta == Dash <==> 1 <= i <= 3)
  {
    var defs := KpiDefinitions(c, p);
    forall i | 0 <= i < 13
      ensures AnnotateAll(defs)[i] == Annotate(defs[i])
    {
      AnnotateAllAt(defs, i);
    }
  }
}
