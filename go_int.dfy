/** Go's integer arithmetic where it differs from Dafny's. */
module GoInt {

  function Abs(x: int): (r: int)
    ensures r >= 0 && (r == x || r == -x)
  {
    if x < 0 then -x else x
  }

  /** Go's `a / b` on integers: the quotient truncated toward zero (Dafny's `/`
      is Euclidean and rounds negative dividends down instead). The remainder
      `a - b * q` is smaller than `|b|` and carries the sign of the dividend.
      Go panics on a zero divisor, hence the precondition. */
  function Quo(a: int, b: int): (q: int)
    requires b != 0
    ensures a >= 0 ==> 0 <= a - b * q < Abs(b)
    ensures a < 0 ==> -Abs(b) < a - b * q <= 0
  {
    var m := Abs(a) / Abs(b);
    QuoStep(a, b, m);
    if (a < 0) == (b < 0) then m else -m
  }

  /** The remainder of truncated division, from Euclidean division of the magnitudes. */
  lemma QuoStep(a: int, b: int, m: int)
    requires b != 0 && m == Abs(a) / Abs(b)
    ensures var q := if (a < 0) == (b < 0) then m else -m;
      (a >= 0 ==> 0 <= a - b * q < Abs(b)) && (a < 0 ==> -Abs(b) < a - b * q <= 0)
  {
  }

  /** Truncation is odd in the dividend: `(-a) / b == -(a / b)` in Go. */
  lemma QuoNegate(a: int, b: int)
    requires b != 0
    ensures Quo(-a, b) == -Quo(a, b)
  {
    assert Abs(-a) == Abs(a);
    if a == 0 {
      assert Abs(a) / Abs(b) == 0;
    }
  }

  /** On a non-negative dividend and a positive divisor Go and Dafny agree. */
  lemma QuoOfNatural(a: int, b: int)
    requires a >= 0 && b > 0
    ensures Quo(a, b) == a / b
  {
  }
}
