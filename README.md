# Financial KPI diagnosis engine, in Dafny

This project models the computing core of a small management-diagnosis
tool ("経営判断の「ものさし」"). A user types a simplified income statement
and balance sheet for a current and a prior period, in thousands of yen.
The tool derives the profit and balance-sheet subtotals and computes
thirteen KPIs. It scores five categories (profitability, growth,
efficiency, productivity, safety) on a 1–5 scale, averages them into an
overall score with a verdict, and lays the KPIs out in a table with prior
values and deltas.

The engine exists in two Streamlit pages:

- `financial_analysis3.py` recomputes on every rerun. Its records have no
  extraordinary items, pre-tax profit or net profit.
- `financial_analysis4.py` puts a validation gate and a session flag in
  front of the engine and logs one row per diagnosis. It computes the KPIs
  and scores once for the log and again, with identical code, for display.

The KPI and scoring code of the two pages is textually identical, so the
model defines it once and both pages use it:

- `Helpers`: `safe_div`, `calc_growth`, `calc_score` and the `fmt_*`
  formatters.
- `Ledger`: `create_inputs` of the submit page, and `Figures`, the fields
  the engine reads.
- `LedgerV3`: `create_inputs` of the live page.
- `Kpi`: the KPI formulas.
- `Scoring`: category scores, the turnaround override, the average, the
  verdict and the prior radar trace.
- `KpiList`: the thirteen KPI definitions.
- `KpiTable`: the display loop over those definitions.
- `Page`: the gate, the logged row and the session flag.
- `PageV3`: one rerun of the live page.
- `Samples`: concrete evaluations.

Money is `int`, as the widgets return it. Ratios are exact `real`s. The
Python `None` is `Option`. A formatted string is modelled as `Text`: either
the placeholder `"-"` or a number with the formatter that renders it.

A few facts about the code that the model keeps:

- The sample data's current total assets are 53000, so its current equity
  ratio is 13000/53000 ≈ 24.5%.
- The submit page requires a prefecture as well as a company name and an
  industry.
- `safe_div(n, d)` is 0 when `d == 0` and also when `n == 0`.
  `SafeDiv` states both cases.

## Model

| member | source | states |
|---|---|---|
| `Helpers.SafeDiv` | financial_analysis4.py:80 | a zero denominator gives 0; otherwise the result times the denominator is the numerator; the result is 0 exactly when the denominator or the numerator is 0 |
| `Helpers.CalcGrowth` | financial_analysis4.py:81-83 | undefined exactly when the prior value is ≤ 0; otherwise growth × prior = (current − prior) × 100, and growth is ≥ 0 (> 0) exactly when current ≥ (>) prior |
| `Helpers.CalcScore` | financial_analysis4.py:84-97 | the score is always in 1..5 and is 1 for an undefined value |
| `Helpers.CalcScoreMonotoneUp` | financial_analysis4.py:92-97 | higher-is-better scoring never decreases as the value rises, whatever the thresholds |
| `Helpers.CalcScoreMonotoneDown` | financial_analysis4.py:86-91 | lower-is-better scoring never increases as the value rises, whatever the thresholds |
| `Helpers.CalcScoreTiersUp` | financial_analysis3.py:93-98 | with ascending thresholds, score ≥ k exactly when the value reaches the k-th threshold (closed tiers) |
| `Helpers.CalcScoreTiersDown` | financial_analysis3.py:87-92 | with descending thresholds, score ≥ k exactly when the value is at or below the k-th threshold |
| `Helpers.ThresholdIsClosed` | financial_analysis4.py:314-316 | a value on a threshold takes the higher tier: a 5.0% margin scores 4 against 0/2/5/10; 30 inventory days score 5 |
| `Helpers.Fmt` | financial_analysis4.py:75-79 | every formatter maps `None` to "-" and any value to that value rendered in its own style |
| `Ledger.CreateInputs` | financial_analysis4.py:189-251 | the record keeps every entry as typed; net profit, total assets and total liabilities plus equity are the stated sums of line items; the notice is "balanced" exactly when the two totals agree, else it carries their non-zero difference; the record is returned either way |
| `Ledger.WellFormedIsDerived` | financial_analysis4.py:204-242 | any record that satisfies the accounting identities is exactly what `create_inputs` builds from its entries |
| `Ledger.ExtraordinaryItemsDoNotReachEngine` | financial_analysis4.py:213-218 | changing extraordinary income or loss changes no figure the KPI engine reads |
| `LedgerV3.CreateInputs` | financial_analysis3.py:112-160 | ordinary profit is sales − cogs − SG&A + non-operating income − expense; the totals are the sums of their line items; the notice reports a mismatch without withholding the record |
| `LedgerV3.AgreesWithSubmitPage` | financial_analysis3.py:123-152 | the live page derives the same engine figures and the same balance notice as the submit page given the same entries and no extraordinary items |
| `Kpi.Redemption` | financial_analysis4.py:295 | repayment years are 0 when ordinary profit + depreciation − tax ≤ 0; otherwise they times that cash flow equal short + long loans, and they are non-negative when debt is |
| `Kpi.Ratios` | financial_analysis4.py:283-306 | each per-period ratio is 0 when its denominator is 0 and otherwise multiplies back: margin × sales = 100 × op profit, inventory days × cogs = 365 × inventory, loan multiple × sales = 12 × debt, and so on; working capital is current assets − current liabilities |
| `Kpi.FreeCashFlowShape` | financial_analysis4.py:284 | covers `FreeCashFlow`: free cash flow is 0.6 × operating profit − (current − prior fixed assets), whatever the depreciation |
| `Kpi.Evaluate` | financial_analysis4.py:283-306 | both periods use the same ratio formulas; the growth rates are `calc_growth` of current against prior sales and operating profit, so undefined exactly when the prior figure is ≤ 0 and otherwise multiplying back to the change; free cash flow has its fixed shape |
| `Scoring.SumBounds` | financial_analysis4.py:320 | a sum of n values that each lie in [1, 5] lies in [n, 5n] |
| `Scoring.OpGrowthScore` | financial_analysis4.py:308-310 | in 1..5; after a prior operating loss or zero it is 5 exactly when current operating profit is positive and 1 otherwise |
| `Scoring.OpGrowthTopTier` | financial_analysis4.py:309 | after a prior profit the sub-score is 5 exactly when 10 × current ≥ 11 × prior, at least 4 exactly when 20 × current ≥ 21 × prior, at least 3 exactly when 100 × current ≥ 103 × prior, and at least 2 exactly when profit did not fall |
| `Scoring.Scores` | financial_analysis4.py:308-319 | each of the five category scores lies in [1, 5] and is the mean of `calc_score` of its two KPIs of the current period against the thresholds of lines 314-318 (margin 0/2/5/10, free cash flow −1000/0/1000/5000, turnover 1/3/5/10, inventory days 180/90/60/30, sales and operating profit per employee 10000/15000/20000/30000 and 0/500/1000/2000, equity ratio 10/20/40/60, loan multiple 12/6/3/1); growth is the mean of the sales-growth score and the operating-profit sub-score, so a turnaround lifts it to at least 3 |
| `Scoring.ProfitabilityTiers` | financial_analysis4.py:314 | profitability is 5 exactly when the margin is ≥ 10% and free cash flow ≥ 5000; 1 exactly when the margin is < 0 and free cash flow < −1000 |
| `Scoring.GrowthTiers` | financial_analysis4.py:308-315 | growth is 5 exactly when sales grew ≥ 10% and the operating-profit sub-score is 5; 1 exactly when sales growth is undefined or negative and that sub-score is 1 |
| `Scoring.EfficiencyTiers` | financial_analysis4.py:316 | efficiency is 5 exactly when turnover ≥ 10 and inventory days ≤ 30; 1 exactly when turnover < 1 and inventory days > 180 |
| `Scoring.ProductivityTiers` | financial_analysis4.py:317 | productivity is 5 exactly when sales per employee ≥ 30000 and operating profit per employee ≥ 2000; 1 exactly when they are < 10000 and < 0 |
| `Scoring.SafetyTiers` | financial_analysis4.py:318 | safety is 5 exactly when the equity ratio ≥ 60% and the loan multiple ≤ 1; 1 exactly when the equity ratio < 10% and the multiple > 12 |
| `Scoring.GrowthMonotone` | financial_analysis4.py:81-83 | against a fixed positive prior figure, a larger current figure never gives a smaller growth rate |
| `Scoring.OpGrowthScoreMonotone` | financial_analysis4.py:308-310 | a higher current operating profit never lowers the operating-profit sub-score, override included |
| `Scoring.ProfitabilityMonotone` | financial_analysis4.py:314 | a higher margin and a higher free cash flow never lower profitability |
| `Scoring.GrowthCategoryMonotone` | financial_analysis4.py:308-315 | more current sales and operating profit against the same prior period never lower growth |
| `Scoring.EfficiencyMonotone` | financial_analysis4.py:316 | a higher turnover and fewer inventory days never lower efficiency |
| `Scoring.ProductivityMonotone` | financial_analysis4.py:317 | higher sales and operating profit per employee never lower productivity |
| `Scoring.SafetyMonotone` | financial_analysis4.py:318 | a higher equity ratio and a smaller loan multiple never lower safety |
| `Scoring.AvgScoreIsMean` | financial_analysis4.py:320 | covers `AvgScore`: the summed-over-five value is the arithmetic mean of the five category scores |
| `Scoring.AvgScoreInRange` | financial_analysis3.py:227 | the overall score lies in [1, 5] for every input |
| `Scoring.ScoresIgnoreUnscoredKpis` | financial_analysis4.py:313-319 | current assets, current liabilities, ordinary profit, depreciation and tax never move a score, so the current ratio, working capital and repayment years are unscored |
| `Scoring.VerdictOf` | financial_analysis4.py:414-416 | "healthy" exactly when avg ≥ 4, "standard" exactly when 3 ≤ avg < 4, "urgent" exactly when avg < 3 |
| `Scoring.PriorRadar` | financial_analysis3.py:204-205 | the prior trace is 3 for growth, efficiency, productivity and safety; profitability is the score of the prior margin against 0/2/5/10; with positive prior sales it is 5 exactly when 10 × op profit ≥ sales, ≥ 4 exactly when 20 × op profit ≥ sales, ≥ 3 exactly when 50 × op profit ≥ sales, ≥ 2 exactly when op profit ≥ 0; with zero sales it is 2 |
| `Scoring.Diagnose` | financial_analysis4.py:378-391 | KPIs, scores and radar trace are those of the engine; the overall score is the mean of the five category scores and lies in [1, 5]; the verdict is that of the overall score: healthy at ≥ 4, standard in [3, 4), urgent below 3 |
| `KpiList.KpiDefinitions` | financial_analysis4.py:419-433 | thirteen rows; exactly free cash flow and the two growth rates have no prior value; a current value is missing exactly for sales growth after prior sales ≤ 0 and operating-profit growth after prior operating profit ≤ 0 |
| `KpiList.ProfitabilityRows` | financial_analysis4.py:420-421 | rows 0-1 are 収益性: the margin in % of both periods, and the current free cash flow in 千円 with no prior value |
| `KpiList.GrowthRows` | financial_analysis4.py:422-423 | rows 2-3 are 成長性: `calc_growth` of sales and of operating profit, in %, with no prior value |
| `KpiList.EfficiencyRows` | financial_analysis4.py:424-425 | rows 4-5 are 効率性: fixed-asset turnover in 回 and inventory days in 日, of both periods |
| `KpiList.ProductivityRows` | financial_analysis4.py:426-427 | rows 6-7 are 生産性: sales and operating profit per employee in 千円, of both periods |
| `KpiList.SafetyRows` | financial_analysis4.py:428-432 | rows 8-12 are 安全性: equity ratio %, working capital 千円, current ratio %, repayment years 年 and loan multiple 倍, of both periods |
| `KpiTable.Annotate` | financial_analysis4.py:438-448 | both values are shown with the formatter of the row's unit, "-" exactly when `None`; the delta is "-" exactly when either value is `None`, else it is current − prior, in the yen style for 千円 rows and the plain one-decimal style otherwise |
| `KpiTable.AnnotateAllAt` | financial_analysis4.py:437-448 | row i of the annotated table is definition i annotated |
| `KpiTable.BuildTable` | financial_analysis4.py:435-472 | the sections, read in order, hold every definition annotated in order; each section is non-empty and uniform in category, and adjacent sections differ in category |
| `KpiTable.NoBaselineRowsShowDash` | financial_analysis4.py:421-447 | in the displayed table the prior value and the delta are "-" exactly for free cash flow and the two growth rates, never 0 |
| `Page.Validate` | financial_analysis4.py:272-278 | the gate passes exactly when company name, industry and prefecture are all present; otherwise it names the first missing one in that order |
| `Page.SaveRow` | financial_analysis4.py:323-337 | the logged row carries the timestamp passed in, the metadata, both full records, an overall score in [1, 5] equal to the displayed one, and thirteen KPI columns equal to the displayed current values |
| `Page.DiagnosisPage.constructor` | financial_analysis4.py:13-14 | a new session shows no report and has logged nothing |
| `Page.DiagnosisPage.PressDiagnose` | financial_analysis4.py:270-343 | on a missing field nothing changes; otherwise exactly one row is logged and the flag is raised |
| `Page.DiagnosisPage.PressStartOver` | financial_analysis4.py:520-522 | the flag is cleared and the log is kept |
| `Page.DiagnosisPage.ShowReport` | financial_analysis4.py:346-391 | a report exists exactly when the flag is raised; it is the engine's diagnosis of the current form with a well-grouped table |
| `Page.SubmitAndShow` | financial_analysis4.py:313-391 | after a successful press exactly one row, `save_row` of the form, is appended to the log, the flag is raised and the report on screen has the overall score of that row; a failed press logs nothing and leaves the flag as it was |
| `PageV3.Render` | financial_analysis3.py:162-286 | every rerun yields the engine's diagnosis and the well-grouped table of the live page's records, with the balance notices beside them, each exactly the notice `create_inputs` gives, mismatch amount included |
| `PageV3.ZeroDenominatorsV3` | financial_analysis3.py:173-177 | zero cogs gives 0 inventory days, zero sales a 0 loan multiple, zero total assets a 0 equity ratio; each non-zero denominator gives the true quotient (days × cogs = 365 × inventory, multiple × sales = 12 × loans, ratio × total assets = 100 × net assets) |
| `Samples.SampleCurrStatement` | financial_analysis4.py:119-138 | sample: the current period balances; operating profit 5000, net profit 4000 |
| `Samples.SamplePrevStatement` | financial_analysis4.py:140-159 | sample: the prior period is off by −6000 and is still derived |
| `Samples.SampleCurrFigures` | financial_analysis4.py:119-138 | the engine figures of the sample's current period |
| `Samples.SamplePrevFigures` | financial_analysis4.py:140-159 | the engine figures of the sample's prior period |
| `Samples.SampleRatios` | financial_analysis4.py:283-295 | sample: 5.0% margin scoring 4, turnover 5.0, 5.0 repayment years, 3.6 loan multiple, sales growth 100/9 % |
| `Samples.SampleScores` | financial_analysis4.py:313-319 | sample category scores are 4, 5, 4.5, 2.5 and 3 |
| `Samples.SampleDiagnosis` | financial_analysis4.py:320 | sample overall score is 3.8, verdict "standard" |
| `Samples.DefaultFormDiagnosis` | financial_analysis3.py:120-156 | the live page's default form balances, shows 0% growth, has category scores 4, 2, 4.5, 2.5 and 3, scores 3.2 overall and a prior radar of 4, 3, 3, 3, 3 |

## Left out

- Streamlit widgets, layout, CSS and tabs are not modelled. Neither are the
  per-section render calls inside the table loop
  (financial_analysis4.py:449-472, financial_analysis3.py:263-286). The
  model keeps the sections the loop forms, not how they are drawn.
- `st.session_state` widget keys and `st.rerun` are not modelled. A rerun is
  a fresh call of `ShowReport` or `Render` on the current form.
- `save_to_gsheet` is not modelled: credentials, the network and swallowed
  exceptions. On the submit page, handing a row to it is modelled as
  appending to `DiagnosisPage.sent`.
- The live page's `save_data` dictionary and its download/print hooks are
  not modelled. They feed only the remote log.
- The radar chart, the CSV export rows, the download and print buttons and
  the injected print script are presentation.
- `get_jst_now` / `datetime.now` read the clock. The time stamp is a
  parameter of `SaveRow`.
- Helpers.Fmt: the exact text is not modelled. This covers decimal places,
  thousands separators, `int()` truncation in `fmt_yen` and the 回→倍
  replacement. A rendered number is kept as its value and its formatter.
- IEEE floating-point rounding of `* 0.6`, `/ 365`, `/ 12` and `* 100` is
  not modelled. Ratios are exact reals.
- The prefecture list and the industry options are not modelled. They are
  only the choices the widgets offer.
- KPI descriptions and formula labels are not modelled. They are fixed
  display text.
- KpiTable.BuildTable: the source adds `curr_disp`, `prev_disp` and `delta`
  to each KPI dictionary in place. The model builds new rows instead.
  Nothing reads the dictionaries in a way that could see the difference.
