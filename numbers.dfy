/**
 * JavaScript numbers as the application meets them: values that are either
 * finite or NaN, and `parseFloat` over decimal text. Values are exact
 * decimals (`real`); binary floating-point rounding is not modelled.
 */
module Numbers {
  import opened Wrappers
  import opened Text

  /** A JavaScript number: a finite value or NaN. */
  datatype JsNumber = Finite(value: real) | NaN

  function Pow10(k: nat): (r: nat)
    ensures r >= 1
  {
    if k == 0 then 1 else 10 * Pow10(k - 1)
  }

  /** Length of the run of decimal digits that starts `s`. */
  function DigitRun(s: string): (n: nat)
    ensures n <= |s| && AllDigits(s[..n]) && (n == |s| || !IsDigit(s[n]))
  {
    if |s| > 0 && IsDigit(s[0]) then
      var m := DigitRun(s[1..]);
      assert s[..1 + m] == [s[0]] + s[1..][..m];
      1 + m
    else 0
  }

  /** The unsigned decimal literal at the start of `s`: integer digits and fraction digits (`"12.50"`, `"12."`, `".5"`). */
  datatype Literal = Literal(whole: string, fraction: string)

  function LiteralValue(lit: Literal): real
    requires AllDigits(lit.whole) && AllDigits(lit.fraction)
  {
    var whole := DecimalValue(lit.whole) as real;
    if lit.fraction == [] then whole
    else whole + DecimalValue(lit.fraction) as real / Pow10(|lit.fraction|) as real
  }

  /** The longest unsigned decimal literal at the start of `u`, if it has at least one digit. */
  function ScanLiteral(u: string): (lit: Option<Literal>)
    ensures lit.Some? ==> AllDigits(lit.value.whole) && AllDigits(lit.value.fraction)
    ensures lit.Some? ==> |lit.value.whole| + |lit.value.fraction| > 0
    ensures lit.Some? ==> |lit.value.whole| <= |u| && lit.value.whole == u[..|lit.value.whole|]
    ensures lit.None? <==> (u == [] || !IsDigit(u[0])) && !(|u| >= 2 && u[0] == '.' && IsDigit(u[1]))
  {
    var a := DigitRun(u);
    var f := if a < |u| && u[a] == '.' then DigitRun(u[a + 1..]) else 0;
    if a == 0 && f == 0 then None
    else Some(Literal(u[..a], if f == 0 then "" else u[a + 1..][..f]))
  }

  /**
   * `parseFloat(s)`: skips leading whitespace, reads an optional sign and the
   * longest decimal literal that follows, and gives NaN when there is none.
   */
  function ParseFloat(s: string): JsNumber {
    var t := TrimStart(s);
    var negative := |t| > 0 && t[0] == '-';
    match ScanLiteral(Unsigned(t))
    case None => NaN
    case Some(lit) => Finite(if negative then -LiteralValue(lit) else LiteralValue(lit))
  }

  /** `t` without its leading sign, if it has one. */
  function Unsigned(t: string): (u: string)
    ensures u == t || (|t| > 0 && u == t[1..])
  {
    if |t| > 0 && (t[0] == '-' || t[0] == '+') then t[1..] else t
  }

  /** Only text that holds a digit parses to a number. */
  lemma ParseFloatNeedsDigit(s: string)
    ensures ParseFloat(s).Finite? ==> exists k :: 0 <= k < |s| && IsDigit(s[k])
  {
    var t := TrimStart(s);
    var u := Unsigned(t);
    if ScanLiteral(u).Some? {
      var i := if IsDigit(u[0]) then 0 else 1;
      assert IsDigit(u[i]);
      assert t == s[|s| - |t|..];
      var j := |s| - |u| + i;
      assert u[i] == t[|t| - |u| + i];
      assert s[j] == u[i];
    }
  }

  /** `parseFloat` reads back the decimal text `String(n)` of a non-negative integer. */
  lemma ParseFloatOfDecimal(n: nat)
    ensures ParseFloat(NatToDecimal(n)) == Finite(n as real)
  {
    ParseFloatOfDigits(NatToDecimal(n));
    DecimalRoundTrip(n);
  }

  /** `parseFloat` of a non-empty run of digits is the number they spell. */
  lemma ParseFloatOfDigits(s: string)
    requires |s| > 0 && AllDigits(s)
    ensures ParseFloat(s) == Finite(DecimalValue(s) as real)
  {
    assert IsDigit(s[0]);
    assert TrimStart(s) == s;
    DigitRunAll(s);
    assert s[..|s|] == s;
    assert Unsigned(s) == s;
    assert ScanLiteral(s) == Some(Literal(s, ""));
    assert s[0] != '-';
    assert ParseFloat(s) == Finite(LiteralValue(Literal(s, "")));
  }

  lemma {:induction false} DigitRunAll(s: string)
    requires AllDigits(s)
    ensures DigitRun(s) == |s|
  {
    if |s| > 0 {
      DigitRunAll(s[1..]);
    }
  }

  /** A value typed `number | string`. */
  datatype NumberOrText = NumberValue(number: JsNumber) | TextValue(text: string)

  /** `typeof v === 'string' ? parseFloat(v) : v`. */
  function ToNumber(v: NumberOrText): JsNumber {
    match v
    case NumberValue(n) => n
    case TextValue(s) => ParseFloat(s)
  }

  /** `Math.abs` on a finite number. */
  function Abs(x: real): (r: real)
    ensures r >= 0.0 && (r == x || r == -x)
  {
    if x < 0.0 then -x else x
  }

  /** A condition counted as 0 or 1. */
  function Count(b: bool): nat { if b then 1 else 0 }
}
