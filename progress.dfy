/** The Cloud Function library (progress.go): colour selection with optional
    per-tier overrides, and the record handed to the SVG template. The
    percentage is a real number; float64 rounding is not modelled. */
module Progress {
  import opened Colors

  /** progress.go's pickColor. The colour starts as the success colour (the
      caller's override prefixed with '#', or green) and a switch over two
      bands replaces it with the danger or warning colour. A value in neither
      band, negative ones included, keeps the success colour. */
  function PickColor(percentage: real, successColor: string, warningColor: string, dangerColor: string): (r: string)
    ensures var t := TierOf(percentage);
      var custom := OverrideFor(t, successColor, warningColor, dangerColor);
      r == if custom != "" then "#" + custom else Default(t)
  {
    var picked := if successColor != "" then "#" + successColor else Green;
    if percentage >= 0.0 && percentage < 33.0 then
      (if dangerColor != "" then "#" + dangerColor else Red)
    else if percentage >= 33.0 && percentage < 70.0 then
      (if warningColor != "" then "#" + warningColor else Yellow)
    else
      picked
  }

  /** Only the override of the selected tier matters: the other two can be
      changed freely without changing the colour. */
  lemma OnlySelectedOverrideMatters(p: real, s: string, w: string, d: string, s': string, w': string, d': string)
    requires OverrideFor(TierOf(p), s, w, d) == OverrideFor(TierOf(p), s', w', d')
    ensures PickColor(p, s, w, d) == PickColor(p, s', w', d')
  {
  }

  /** The colour is one of the three built-in ones or one of the overrides
      behind a '#', taken verbatim: no validation and no change of case. */
  lemma PickColorRange(p: real, s: string, w: string, d: string)
    ensures PickColor(p, s, w, d) in {Red, Yellow, Green, "#" + s, "#" + w, "#" + d}
  {
  }

  /** Without overrides the three tiers give red, yellow and green, with the
      boundaries 33 and 70 belonging to the upper tier and a negative value
      falling through to green. */
  lemma DefaultColors()
    ensures PickColor(0.0, "", "", "") == Red && PickColor(10.0, "", "", "") == Red
    ensures PickColor(32.999, "", "", "") == Red
    ensures PickColor(33.0, "", "", "") == Yellow && PickColor(50.0, "", "", "") == Yellow
    ensures PickColor(69.999, "", "", "") == Yellow
    ensures PickColor(70.0, "", "", "") == Green && PickColor(80.0, "", "", "") == Green
    ensures PickColor(150.0, "", "", "") == Green && PickColor(-10.0, "", "", "") == Green
  {
  }

  /** Overrides are prefixed with '#' as given, so an override that already
      carries a '#' comes out with two. */
  lemma OverridesPrefixedVerbatim()
    ensures PickColor(10.0, "00aa00", "ffcc00", "aa0000") == "#aa0000"
    ensures PickColor(50.0, "00aa00", "ffcc00", "aa0000") == "#ffcc00"
    ensures PickColor(80.0, "00aa00", "ffcc00", "aa0000") == "#00aa00"
    ensures PickColor(10.0, "#00aa00", "#ffcc00", "#aa0000") == "##aa0000"
  {
  }

  /** The values filled into the badge template. */
  datatype Data = Data(backgroundColor: string, percentage: real, progress: real, pickedColor: string)

  /** The bar length of the template, `percentage - percentage/10`:
      nine tenths of the percentage, not clamped. */
  function BarProgress(percentage: real): (r: real)
    ensures 10.0 * r == 9.0 * percentage
  {
    percentage - percentage / 10.0
  }

  /** The bar is empty at 0, 90 long at 100, within [0, 90] in between,
      and never shrinks as the percentage grows. */
  lemma BarProgressShape(a: real, b: real)
    requires a <= b
    ensures BarProgress(0.0) == 0.0 && BarProgress(100.0) == 90.0
    ensures BarProgress(a) <= BarProgress(b)
    ensures 0.0 <= a <= 100.0 ==> 0.0 <= BarProgress(a) <= 90.0
  {
  }

  /** The `Data` literal built by the `Progress` handler from the parsed
      value and the three query-string overrides. */
  function BuildData(percentage: real, successColor: string, warningColor: string, dangerColor: string): (r: Data)
    ensures r.backgroundColor == Grey
    ensures r.percentage == percentage
    ensures 10.0 * r.progress == 9.0 * percentage
    ensures r.pickedColor == PickColor(percentage, successColor, warningColor, dangerColor)
  {
    Data(Grey, percentage, BarProgress(percentage), PickColor(percentage, successColor, warningColor, dangerColor))
  }

  /** No clamping: a value above 100 or below 0 reaches the template as it is,
      with a bar longer than the background or a negative one. */
  lemma BuildDataNotClamped()
    ensures BuildData(150.0, "", "", "").percentage == 150.0
    ensures BuildData(150.0, "", "", "").progress == 135.0
    ensures BuildData(-10.0, "", "", "").progress == -9.0
    ensures BuildData(-10.0, "", "", "").pickedColor == Green
  {
  }
}
