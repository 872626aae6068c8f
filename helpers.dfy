/** The arithmetic helpers and formatters shared by both diagnosis pages:
    safe division, growth rate, threshold scoring and the `None`-aware
    number formatters. */
module Helpers {

  /** Python's `None` (a growth rate that cannot be computed, a missing prior value). */
  datatype Option<+T> = None | Some(value: T)

  /** `safe_div`: true division, except that a zero denominator yields 0
      instead of raising. */
  function SafeDiv(n: real, d: real): (r: real)
    ensures d == 0.0 ==> r == 0.0
    ensures d != 0.0 ==> r * d == n
    ensures r == 0.0 <==> d == 0.0 || n == 0.0
  {
    if d != 0.0 then n / d else 0.0
  }

  /** `calc_growth`: period-over-period growth in percent; undefined when the
      prior figure is zero or negative. */
  function CalcGrowth(current: int, previous: int): (r: Option<real>)
    ensures r.None? <==> previous <= 0
    ensures r.Some? ==> r.value * previous as real == (current - previous) as real * 100.0
    ensures r.Some? ==> (r.value >= 0.0 <==> current >= previous)
    ensures r.Some? ==> (r.value > 0.0 <==> current > previous)
  {
    if previous <= 0 then None
    else
      var g := (current - previous) as real / previous as real * 100.0;
      GrowthSign(current, previous, g);
      Some(g)
  }

  lemma GrowthSign(current: int, previous: int, g: real)
    requires previous > 0
    requires g == (current - previous) as real / previous as real * 100.0
    ensures g * previous as real == (current - previous) as real * 100.0
    ensures g >= 0.0 <==> current >= previous
    ensures g > 0.0 <==> current > previous
  {
  }

  /** `calc_score`: maps a value onto 1..5 using four thresholds. A value
      equal to a threshold earns the higher tier; an undefined value scores 1. */
  function CalcScore(val: Option<real>, t1: real, t2: real, t3: real, t4: real, lowerIsBetter: bool): (r: int)
    ensures 1 <= r <= 5
    ensures val.None? ==> r == 1
  {
    if val.None? then 1
    else
      var v := val.value;
      if lowerIsBetter then
        if v <= t4 then 5
        else if v <= t3 then 4
        else if v <= t2 then 3
        else if v <= t1 then 2
        else 1
      else
        if v >= t4 then 5
        else if v >= t3 then 4
        else if v >= t2 then 3
        else if v >= t1 then 2
        else 1
  }

  /** Higher is better: a larger value never scores lower, whatever the thresholds. */
  lemma CalcScoreMonotoneUp(v1: real, v2: real, t1: real, t2: real, t3: real, t4: real)
    requires v1 <= v2
    ensures CalcScore(Some(v1), t1, t2, t3, t4, false) <= CalcScore(Some(v2), t1, t2, t3, t4, false)
  {
  }

  /** Lower is better: a larger value never scores higher, whatever the thresholds. */
  lemma CalcScoreMonotoneDown(v1: real, v2: real, t1: real, t2: real, t3: real, t4: real)
    requires v1 <= v2
    ensures CalcScore(Some(v1), t1, t2, t3, t4, true) >= CalcScore(Some(v2), t1, t2, t3, t4, true)
  {
  }

  /** With ascending thresholds, each tier is the closed half-line above its
      threshold: the score is at least k exactly when the value reaches the
      k-th threshold. */
  lemma CalcScoreTiersUp(v: real, t1: real, t2: real, t3: real, t4: real)
    requires t1 <= t2 <= t3 <= t4
    ensures CalcScore(Some(v), t1, t2, t3, t4, false) == 5 <==> v >= t4
    ensures CalcScore(Some(v), t1, t2, t3, t4, false) >= 4 <==> v >= t3
    ensures CalcScore(Some(v), t1, t2, t3, t4, false) >= 3 <==> v >= t2
    ensures CalcScore(Some(v), t1, t2, t3, t4, false) >= 2 <==> v >= t1
  {
  }

  /** With descending thresholds, each tier is the closed half-line below its
      threshold. */
  lemma CalcScoreTiersDown(v: real, t1: real, t2: real, t3: real, t4: real)
    requires t1 >= t2 >= t3 >= t4
    ensures CalcScore(Some(v), t1, t2, t3, t4, true) == 5 <==> v <= t4
    ensures CalcScore(Some(v), t1, t2, t3, t4, true) >= 4 <==> v <= t3
    ensures CalcScore(Some(v), t1, t2, t3, t4, true) >= 3 <==> v <= t2
    ensures CalcScore(Some(v), t1, t2, t3, t4, true) >= 2 <==> v <= t1
  {
  }

  /** A value exactly on a threshold takes the higher tier: 5 sits on the
      third threshold of the operating-margin table and scores 4, not 3. */
  lemma ThresholdIsClosed()
    ensures CalcScore(Some(5.0), 0.0, 2.0, 5.0, 10.0, false) == 4
    ensures CalcScore(Some(30.0), 180.0, 90.0, 60.0, 30.0, true) == 5
  {
  }

  /** How a formatter renders a number: `fmt_yen` (thousands of yen),
      `fmt_pct`, `fmt_times` (回), `fmt_times` with 回 replaced by 倍,
      `fmt_year`, `fmt_days`, and the bare one-decimal form used for deltas. */
  datatype Style = YenStyle | PctStyle | TimesStyle | BaiStyle | YearStyle | DaysStyle | PlainStyle

  /** A display string: the placeholder "-" or a number in a given style
      (the digits themselves are not modelled). */
  datatype Text = Dash | Shown(value: real, style: Style)

  /** The `fmt_*` family: `None` becomes "-", anything else is rendered. */
  function Fmt(val: Option<real>, style: Style): (t: Text)
    ensures t == Dash <==> val.None?
    ensures val.Some? ==> t == Shown(val.value, style)
  {
    match val
    case None => Dash
    case Some(v) => Shown(v, style)
  }
}
