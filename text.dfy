/** Number text handled by the calculator: the decimal-comma normalisation
    of `toNum`, and the decimal rounding of `Number.prototype.toFixed` that
    the calculator applies before it shows a number or reads it back. */
module Text {

  /** `s` with its first occurrence of `a` replaced by `b` and every other
      character kept: `String.prototype.replace` with a string pattern. */
  function ReplaceFirst(s: string, a: char, b: char): (r: string)
    ensures |r| == |s|
    ensures a !in s ==> r == s
    ensures a in s ==> b in r
    ensures forall i :: 0 <= i < |s| ==> r[i] == s[i] || (s[i] == a && r[i] == b)
  {
    if s == [] then []
    else if s[0] == a then [b] + s[1..]
    else [s[0]] + ReplaceFirst(s[1..], a, b)
  }

  /** The position of the first `a` in `s`. */
  function FirstIndex(s: string, a: char): (k: nat)
    requires a in s
    ensures k < |s| && s[k] == a
    ensures forall i :: 0 <= i < k ==> s[i] != a
  {
    if s[0] == a then 0 else 1 + FirstIndex(s[1..], a)
  }

  /** Exactly the first `a` becomes `b`; every other position, later
      occurrences of `a` included, is left as it was. */
  lemma {:induction false} ReplaceFirstAt(s: string, a: char, b: char)
    requires a in s
    ensures forall i :: 0 <= i < |s| ==>
      ReplaceFirst(s, a, b)[i] == if i == FirstIndex(s, a) then b else s[i]
  {
    if s[0] != a {
      ReplaceFirstAt(s[1..], a, b);
      forall i | 0 <= i < |s|
        ensures ReplaceFirst(s, a, b)[i] == if i == FirstIndex(s, a) then b else s[i]
      {
        if i > 0 {
          assert ReplaceFirst(s, a, b)[i] == ReplaceFirst(s[1..], a, b)[i - 1];
        }
      }
    }
  }

  /** Splitting the text at its first `a`: the prefix and the suffix are
      kept verbatim, whatever the suffix holds. */
  lemma {:induction false} ReplaceFirstSplit(x: string, y: string, a: char, b: char)
    requires a !in x
    ensures ReplaceFirst(x + [a] + y, a, b) == x + [b] + y
  {
    if x != [] {
      assert (x + [a] + y)[1..] == x[1..] + [a] + y;
      ReplaceFirstSplit(x[1..], y, a, b);
    }
  }

  /** `toNum`: the first decimal comma becomes a period, then the text is
      parsed. `parse` stands for `parseFloat`, which is not modelled. */
  function ToNum(parse: string -> real, v: string): (r: real)
    ensures ',' !in v ==> r == parse(v)
  {
    parse(ReplaceFirst(v, ',', '.'))
  }

  /** A comma written where the decimal point goes reads as that point;
      commas after it reach the parser unchanged. */
  lemma DecimalComma(parse: string -> real, x: string, y: string)
    requires ',' !in x
    ensures ToNum(parse, x + [','] + y) == parse(x + ['.'] + y)
  {
    ReplaceFirstSplit(x, y, ',', '.');
  }

  function Pow10(d: nat): (r: nat)
    ensures r >= 1
  {
    if d == 0 then 1 else 10 * Pow10(d - 1)
  }

  /** The integer nearest to `y`, the larger one on a tie. */
  function Nearest(y: real): (n: int)
    ensures y - 0.5 < n as real <= y + 0.5
  {
    (y + 0.5).Floor
  }

  /** The integer `n` such that `x.toFixed(d)` writes out `n / 10^d`: the
      one nearest to `x * 10^d`, the one of larger magnitude on a tie,
      with the sign of `x`. */
  function Rounded(x: real, d: nat): (n: int)
    ensures x >= 0.0 ==> -0.5 < n as real - x * Pow10(d) as real <= 0.5
    ensures x < 0.0 ==> -0.5 <= n as real - x * Pow10(d) as real < 0.5
    ensures x >= 1.0 ==> n >= Pow10(d)
  {
    var y := x * Pow10(d) as real;
    ScaledSign(x, Pow10(d) as real);
    if y < 0.0 then -Nearest(-y)
    else
      var n := Nearest(y);
      assert x >= 1.0 ==> n as real > Pow10(d) as real - 1.0;
      n
  }

  lemma ScaledSign(x: real, s: real)
    requires s >= 1.0
    ensures x >= 0.0 <==> x * s >= 0.0
    ensures x >= 1.0 ==> x * s >= s
  {
    assert x >= 1.0 ==> (x - 1.0) * s >= 0.0;
  }

  /** The number that `x.toFixed(d)` writes out, over the exact value of
      `x`; `parseFloat` of that text reads this number back. */
  function ToFixed(x: real, d: nat): (r: real)
    ensures r * Pow10(d) as real == Rounded(x, d) as real
    ensures -0.5 <= r * Pow10(d) as real - x * Pow10(d) as real <= 0.5
    ensures x >= 1.0 ==> r >= 1.0
  {
    DivMul(Rounded(x, d) as real, Pow10(d) as real);
    Rounded(x, d) as real / Pow10(d) as real
  }

  lemma DivMul(a: real, s: real)
    requires s > 0.0
    ensures a / s * s == a
    ensures a >= s ==> a / s >= 1.0
    ensures a > 0.0 <==> a / s > 0.0
  {
  }

  /** A rounded value is positive exactly when the value is at least half
      a unit of the last written digit. */
  lemma ToFixedPositive(x: real, d: nat)
    ensures ToFixed(x, d) > 0.0 <==> x * Pow10(d) as real >= 0.5
  {
  }
}
