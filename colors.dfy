/** The badge palette and the three colour tiers. progress.go and main.go each
    declare the same four colour variables; they are declared once here. */
module Colors {

  const Grey := "#555"
  const Red := "#d9534f"
  const Yellow := "#f0ad4e"
  const Green := "#5cb85c"

  predicate IsHexDigit(c: char)
  {
    '0' <= c <= '9' || 'a' <= c <= 'f'
  }

  /** A CSS colour: '#' followed by three or six lower-case hex digits. */
  predicate IsHexColor(c: string)
  {
    (|c| == 4 || |c| == 7) && c[0] == '#' && forall i :: 1 <= i < |c| ==> IsHexDigit(c[i])
  }

  /** The palette: a short grey for the background, and three distinct
      six-digit colours for the tiers. */
  lemma PaletteWellFormed()
    ensures IsHexColor(Grey) && |Grey| == 4
    ensures IsHexColor(Red) && IsHexColor(Yellow) && IsHexColor(Green)
    ensures |Red| == |Yellow| == |Green| == 7
    ensures Red != Yellow && Yellow != Green && Red != Green
  {
  }

  /** The bands a percentage falls into, lowest first. */
  datatype Tier = Danger | Warning | Success

  /** The band of a percentage: [0, 33) is danger, [33, 70) warning, and
      every other value, including every negative one, success. */
  function TierOf(p: real): (t: Tier)
    ensures t == Danger <==> 0.0 <= p < 33.0
    ensures t == Warning <==> 33.0 <= p < 70.0
    ensures t == Success <==> p < 0.0 || 70.0 <= p
  {
    if 0.0 <= p < 33.0 then Danger
    else if 33.0 <= p < 70.0 then Warning
    else Success
  }

  function Rank(t: Tier): nat
  {
    match t
    case Danger => 0
    case Warning => 1
    case Success => 2
  }

  /** The built-in colour of a tier. */
  function Default(t: Tier): string
  {
    match t
    case Danger => Red
    case Warning => Yellow
    case Success => Green
  }

  /** Among the three caller-supplied overrides, the one that belongs to tier `t`. */
  function OverrideFor(t: Tier, successColor: string, warningColor: string, dangerColor: string): string
  {
    match t
    case Danger => dangerColor
    case Warning => warningColor
    case Success => successColor
  }

  /** The boundaries are exact: 0, 33 and 70 each open the tier they name. */
  lemma TierBoundaries()
    ensures TierOf(0.0) == Danger && TierOf(32.999) == Danger
    ensures TierOf(33.0) == Warning && TierOf(69.999) == Warning
    ensures TierOf(70.0) == Success && TierOf(100.0) == Success
    ensures TierOf(-0.001) == Success
  {
  }

  /** From 0 upwards the tier never goes down. Below 0 it does not hold:
      a negative value is in the success tier. */
  lemma TierMonotone(a: real, b: real)
    requires 0.0 <= a <= b
    ensures Rank(TierOf(a)) <= Rank(TierOf(b))
  {
  }
}
