/** The standalone server (main.go): integer colour tiers and an SVG badge
    assembled by string formatting. */
module Server {
  import opened Wrappers
  import opened Colors
  import opened GoInt
  import opened Decimal
  import opened Text
  import Progress

  /** main.go's pickColor: red, yellow or green by tier, with no overrides.
      The initial red is overwritten on every path. */
  function PickColor(percentage: int): (r: string)
    ensures r == Default(TierOf(percentage as real))
    ensures r in {Red, Yellow, Green}
  {
    if percentage >= 0 && percentage < 33 then Red
    else if percentage >= 33 && percentage < 70 then Yellow
    else Green
  }

  /** On integers the server's tiers are those of the Cloud Function without overrides. */
  lemma PickColorAgreesWithProgress(p: int)
    ensures PickColor(p) == Progress.PickColor(p as real, "", "", "")
  {
  }

  /** From 0 upwards the colour only moves from red to yellow to green. */
  lemma PickColorMonotone(a: int, b: int)
    requires 0 <= a <= b
    ensures PickColor(a) == Green ==> PickColor(b) == Green
    ensures PickColor(b) == Red ==> PickColor(a) == Red
  {
    TierMonotone(a as real, b as real);
  }

  /** The width of the coloured bar, `p - p/10` with Go's truncating
      division: nine tenths of `p` rounded away from zero. */
  function BarWidth(percentage: int): (r: int)
    ensures percentage >= 0 ==> 9 * percentage <= 10 * r < 9 * percentage + 10
    ensures percentage < 0 ==> 9 * percentage - 10 < 10 * r <= 9 * percentage
  {
    percentage - Quo(percentage, 10)
  }

  /** The width is 0 at 0 and 90 at 100, stays within [0, 90] in between and
      never decreases as the percentage grows. */
  lemma BarWidthShape(a: int, b: int)
    requires a <= b
    ensures BarWidth(0) == 0 && BarWidth(100) == 90
    ensures BarWidth(a) <= BarWidth(b)
    ensures 0 <= a <= 100 ==> 0 <= BarWidth(a) <= 90
  {
  }

  /** Truncation matters for negative values: -5 gives a bar of -5 where
      Euclidean division would give -4; and there is no clamping. */
  lemma BarWidthExamples()
    ensures BarWidth(76) == 69 && BarWidth(150) == 135
    ensures BarWidth(-5) == -5 && -5 - (-5) / 10 == -4
    ensures BarWidth(-10) == -9
  {
  }

  // The fixed fragments of buildSVG. Each '%%' is kept as two characters:
  // the fragments are inserted through '%s', not used as format text.
  // Final is written in two parts so that its opening '%%' stands apart.
  const Beginning := "\n    <html>\n    <svg width=\"90.0\" height=\"20\" xmlns=\"http://www.w3.org/2000/svg\">\n      <linearGradient id=\"a\" x2=\"0\" y2=\"100%%\">\n        <stop offset=\"0\" stop-color=\"#bbb\" stop-opacity=\".2\"/>\n        <stop offset=\"1\" stop-opacity=\".1\"/>\n      </linearGradient>\n  "
  const Next := "<rect rx=\"4\" width=\"90.0\" height=\"20\" fill=\"url(#a)\"/>\n    <g fill=\"#fff\" text-anchor=\"middle\" font-family=\"DejaVu Sans,Verdana,Geneva,sans-serif\" font-size=\"11\">\n    <text x=\"45.0\" y=\"14\">\n  "
  const Final := "%%" + "\n        </text>\n      </g>\n    </svg>\n  </html>\n  "

  // The two bar rectangles share one shape; only the width and the fill differ.
  const RectOpen := "\n    <rect rx=\"4\" x=\"0\" width=\""
  const RectMid := "\" height=\"20\" fill=\""
  const RectClose := "\"/>\n    "

  /** A rectangle of the badge with the given width and fill. */
  function Rect(width: string, fill: string): string
  {
    RectOpen + width + RectMid + fill + RectClose
  }

  /** The grey background rectangle (main.go's backgroundBar), 90.0 wide. */
  const BackgroundBar := Rect("90.0", Grey)

  /** main.go's percentageBar: the rectangle for width `p - p/10` and the
      tier colour of `p`. */
  function PercentageBar(percentage: int): string
  {
    Rect(FormatInt(BarWidth(percentage)), PickColor(percentage))
  }

  /** The background rectangle reads back as 90.0 wide and filled grey. */
  lemma BackgroundBarFields()
    ensures ParseRect(BackgroundBar) == Some(("90.0", Grey, ""))
  {
    RectRoundTrip("90.0", Grey, "");
    assert BackgroundBar + "" == BackgroundBar;
  }

  /** The coloured rectangle reads back with the decimal rendering of
      `p - p/10` as its width and the tier colour of `p` as its fill. */
  lemma PercentageBarFields(p: int)
    ensures ParseRect(PercentageBar(p)) == Some((FormatInt(BarWidth(p)), PickColor(p), ""))
  {
    assert '"' !in Red && '"' !in Yellow && '"' !in Green;
    RectRoundTrip(FormatInt(BarWidth(p)), PickColor(p), "");
    assert PercentageBar(p) + "" == PercentageBar(p);
  }

  /** main.go's buildSVG: the fragments concatenated in order, with the
      unclamped decimal value of `percentage` as the label, directly followed
      by the final fragment, whose '%%' stays doubled. Only the handler's
      later use of the result as a format string turns it into '%'. */
  function BuildSVG(percentage: int): (r: string)
    ensures Beginning + BackgroundBar <= r
    ensures |r| > |FormatInt(percentage) + Final|
    ensures r[|r| - |FormatInt(percentage) + Final|..] == FormatInt(percentage) + Final
  {
    var front, bars := Beginning + BackgroundBar, PercentageBar(percentage) + Next;
    var ending := FormatInt(percentage) + Final;
    Framed(front, bars, ending);
    front + bars + ending
  }

  lemma Framed(front: string, middle: string, ending: string)
    ensures var r := front + middle + ending; front <= r && r[|r| - |ending|..] == ending
  {
    var r := front + middle + ending;
    assert r == front + (middle + ending);
  }

  /** The final fragment opens with the two characters '%%'. */
  lemma FinalOpensWithDoubledPercent()
    ensures |Final| > 2 && Final[..2] == "%%" && Final[0] == Final[1] == '%'
  {
  }

  /** What a badge shows: the bar width, its fill and the value of its label. */
  datatype Badge = Badge(width: int, fill: string, value: int)

  /** Reads a rectangle laid out as `Rect` lays it out from the front of
      `s`: its width and its fill, each up to its closing quote, and the text
      that follows the rectangle. */
  function ParseRect(s: string): Option<(string, string, string)>
  {
    if !(RectOpen <= s) then None
    else
      var t := s[|RectOpen|..];
      var i := IndexOf(t, '"');
      if !(RectMid <= t[i..]) then None
      else
        var u := t[i + |RectMid|..];
        var j := IndexOf(u, '"');
        if !(RectClose <= u[j..]) then None
        else Some((t[..i], u[..j], u[j + |RectClose|..]))
  }

  /** A rectangle's width and fill, free of quotes, are read back as they
      were written, and so is whatever follows the rectangle. */
  lemma RectRoundTrip(width: string, fill: string, rest: string)
    requires '"' !in width && '"' !in fill
    ensures ParseRect(Rect(width, fill) + rest) == Some((width, fill, rest))
  {
    var u := fill + (RectClose + rest);
    var t := width + (RectMid + u);
    var s := RectOpen + t;
    Regroup5(RectOpen, width, RectMid, fill, RectClose, rest);
    assert s[|RectOpen|..] == t;
    IndexOfDelimited(width, RectMid + u, '"');
    assert t[..|width|] == width && t[|width|..] == RectMid + u;
    assert t[|width| + |RectMid|..] == u;
    IndexOfDelimited(fill, RectClose + rest, '"');
    assert u[..|fill|] == fill && u[|fill|..] == RectClose + rest;
    assert u[|fill| + |RectClose|..] == rest;
  }

  /** Reads the fields back out of a badge laid out as buildSVG lays it out:
      the fixed beginning, a 90.0-wide grey background rectangle, the
      coloured rectangle, the fixed `next` fragment, the label and the fixed
      final fragment. Anything else is rejected; the width and the label must
      be written as `%d` writes integers. */
  function ParseBadge(svg: string): Option<Badge>
  {
    if !(Beginning <= svg) then None
    else
      match ParseRect(svg[|Beginning|..])
      case None => None
      case Some((bw, bf, rest)) =>
        if bw != "90.0" || bf != Grey then None
        else
          match ParseRect(rest)
          case None => None
          case Some((w, f, rest2)) =>
            match (ParseInt(w), ParseLabel(rest2))
            case (Some(x), Some(v)) => Some(Badge(x, f, v))
            case _ => None
  }

  /** The label between the `next` fragment and the final one. */
  function ParseLabel(s: string): Option<int>
  {
    if |s| < |Next| + |Final| || !(Next <= s) || s[|s| - |Final|..] != Final then None
    else ParseInt(s[|Next|..|s| - |Final|])
  }

  lemma ParseLabelLayout(l: string)
    ensures ParseLabel(Next + l + Final) == ParseInt(l)
  {
  }

  /** The badge shows exactly the bar width `p - p/10`, the tier colour of
      `p` and the label `p`, behind a grey background. */
  lemma BuildSVGRoundTrip(p: int)
    ensures ParseBadge(BuildSVG(p)) == Some(Badge(BarWidth(p), PickColor(p), p))
  {
    var w, c, l := FormatInt(BarWidth(p)), PickColor(p), FormatInt(p);
    Regroup(Beginning, BackgroundBar, PercentageBar(p), Next, l, Final);
    assert '"' !in Red && '"' !in Yellow && '"' !in Green;
    ParseBadgeLayout(w, c, l);
    FormatIntRoundTrip(BarWidth(p));
    FormatIntRoundTrip(p);
  }

  /** ParseBadge on the layout of buildSVG, for any width, fill and label
      text: the coloured rectangle's fields and the label come back. */
  lemma ParseBadgeLayout(w: string, c: string, l: string)
    requires '"' !in w && '"' !in c
    ensures ParseBadge(Beginning + (BackgroundBar + (Rect(w, c) + (Next + l + Final)))) ==
      match (ParseInt(w), ParseInt(l))
      case (Some(x), Some(v)) => Some(Badge(x, c, v))
      case _ => None
  {
    var tail := Next + l + Final;
    var bars := Rect(w, c) + tail;
    var svg := Beginning + (BackgroundBar + bars);
    assert svg[|Beginning|..] == BackgroundBar + bars;
    RectRoundTrip("90.0", Grey, bars);
    RectRoundTrip(w, c, tail);
    ParseLabelLayout(l);
  }

  lemma Regroup5(a: string, b: string, c: string, d: string, e: string, f: string)
    ensures (a + b + c + d + e) + f == a + (b + (c + (d + (e + f))))
  {
  }

  lemma Regroup(a: string, b: string, c: string, n: string, l: string, f: string)
    ensures (a + b) + (c + n) + (l + f) == a + (b + (c + (n + l + f)))
  {
  }
}
