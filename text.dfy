/**
 * String primitives of the JavaScript host that the application relies on:
 * `trim`, `\s`, `includes`, `split`, `indexOf`/`lastIndexOf`, decimal
 * rendering of integers, `padStart` and (ASCII) upper-casing.
 * Strings are sequences of characters; a character stands for one UTF-16
 * code unit of the original.
 */
module Text {

  /** ECMAScript WhiteSpace and LineTerminator characters: what `trim` strips and what `\s` matches. */
  predicate IsJsSpace(c: char) {
    c == ' ' || c == '\t' || c == '\n' || c == '\r' || c == '\U{000B}' || c == '\U{000C}'
    || c == '\U{00A0}' || c == '\U{1680}' || ('\U{2000}' <= c <= '\U{200A}')
    || c == '\U{2028}' || c == '\U{2029}' || c == '\U{202F}' || c == '\U{205F}'
    || c == '\U{3000}' || c == '\U{FEFF}'
  }

  predicate IsDigit(c: char) { '0' <= c <= '9' }
  predicate IsAsciiLower(c: char) { 'a' <= c <= 'z' }
  predicate IsAsciiUpper(c: char) { 'A' <= c <= 'Z' }
  predicate IsHexDigit(c: char) { IsDigit(c) || 'a' <= c <= 'f' || 'A' <= c <= 'F' }

  predicate AllDigits(s: string) { forall k :: 0 <= k < |s| ==> IsDigit(s[k]) }

  /** `s.trimStart()`: drops the leading whitespace and nothing else. */
  function TrimStart(s: string): (r: string)
    ensures |r| <= |s| && r == s[|s| - |r|..]
    ensures r == [] || !IsJsSpace(r[0])
    ensures forall k :: 0 <= k < |s| - |r| ==> IsJsSpace(s[k])
  {
    if |s| > 0 && IsJsSpace(s[0]) then TrimStart(s[1..]) else s
  }

  /** What `trimStart` leaves is its own trim and ends where the text ends. */
  lemma TrimStartSuffix(s: string)
    ensures TrimStart(TrimStart(s)) == TrimStart(s)
    ensures TrimStart(s) != [] ==> TrimStart(s)[|TrimStart(s)| - 1] == s[|s| - 1]
  {
  }

  /** Cutting a text at `n` leaves its last character at the end of one of the two pieces. */
  lemma LastOfPieces(s: string, n: nat)
    requires n <= |s|
    ensures s == s[..n] + s[n..]
    ensures 0 < n == |s| ==> s[|s| - 1] == s[..n][n - 1]
    ensures n < |s| ==> s[n..][|s| - n - 1] == s[|s| - 1]
  {
  }

  /** `s.trimEnd()`: drops the trailing whitespace and nothing else. */
  function TrimEnd(s: string): (r: string)
    ensures |r| <= |s| && r == s[..|r|]
    ensures r == [] || !IsJsSpace(r[|r| - 1])
    ensures forall k :: |r| <= k < |s| ==> IsJsSpace(s[k])
  {
    if |s| > 0 && IsJsSpace(s[|s| - 1]) then TrimEnd(s[..|s| - 1]) else s
  }

  /** A text is what `trimEnd` leaves followed by whitespace only. */
  lemma TrimEndPieces(s: string)
    ensures var r := TrimEnd(s);
      && s == r + s[|r|..]
      && forall k :: 0 <= k < |s[|r|..]| ==> IsJsSpace(s[|r|..][k])
  {
    var r := TrimEnd(s);
    LastOfPieces(s, |r|);
  }

  /** `s.trim()`: neither end of the result is whitespace, and it is empty exactly when `s` is all whitespace. */
  function Trim(s: string): (r: string)
    ensures |r| <= |s|
    ensures r == [] || (!IsJsSpace(r[0]) && !IsJsSpace(r[|r| - 1]))
    ensures r == [] <==> forall k :: 0 <= k < |s| ==> IsJsSpace(s[k])
  {
    var t := TrimStart(s);
    var r := TrimEnd(t);
    assert r == [] ==> t == [];
    assert r != [] ==> !IsJsSpace(r[0]) by {
      if r != [] { assert r[0] == t[0]; }
    }
    r
  }

  /** `s.includes(sub)`. */
  predicate Contains(s: string, sub: string)
    decreases |s|
  {
    |sub| <= |s| && (s[..|sub|] == sub || (|s| > 0 && Contains(s[1..], sub)))
  }

  /** Whatever contains a string also contains each of that string's prefixes. */
  lemma {:induction false} ContainsPrefix(s: string, sub: string, pre: string)
    requires Contains(s, sub)
    requires |pre| <= |sub| && sub[..|pre|] == pre
    ensures Contains(s, pre)
    decreases |s|
  {
    if s[..|sub|] == sub {
      assert s[..|pre|] == sub[..|pre|];
    } else {
      ContainsPrefix(s[1..], sub, pre);
    }
  }

  /** `s.indexOf(c)` for a character that occurs. */
  function IndexOf(s: string, c: char): (i: nat)
    requires c in s
    ensures i < |s| && s[i] == c
  {
    if s[0] == c then 0 else 1 + IndexOf(s[1..], c)
  }

  /** No occurrence comes before the one `indexOf` finds. */
  lemma {:induction false} IndexOfIsFirst(s: string, c: char)
    requires c in s
    ensures c !in s[..IndexOf(s, c)]
  {
    if s[0] != c {
      IndexOfIsFirst(s[1..], c);
      var j := IndexOf(s[1..], c);
      assert s[..1 + j] == [s[0]] + s[1..][..j];
    }
  }

  /** `s.lastIndexOf(c)` for a character that occurs. */
  function LastIndexOf(s: string, c: char): (i: nat)
    requires c in s
    ensures i < |s| && s[i] == c && c !in s[i + 1..]
  {
    if s[|s| - 1] == c then |s| - 1
    else
      var init := s[..|s| - 1];
      assert c in init by {
        var k :| 0 <= k < |s| && s[k] == c;
        assert init[k] == c;
      }
      var j := LastIndexOf(init, c);
      assert s[j + 1..] == init[j + 1..] + [s[|s| - 1]];
      j
  }

  /** `s.split(sep)` for a one-character separator: the pieces between occurrences of `sep`, found from the right. */
  function Split(s: string, sep: char): (parts: seq<string>)
    ensures |parts| >= 1
    decreases |s|
  {
    if sep !in s then [s]
    else
      var j := LastIndexOf(s, sep);
      Split(s[..j], sep) + [s[j + 1..]]
  }

  /** The last element of a non-empty sequence. */
  function Last<T>(xs: seq<T>): T
    requires xs != []
  {
    xs[|xs| - 1]
  }

  /** With a separator there are at least two pieces, and the last is what follows the last separator. */
  lemma SplitLast(s: string, sep: char)
    requires sep in s
    ensures |Split(s, sep)| > 1 && Last(Split(s, sep)) == s[LastIndexOf(s, sep) + 1..]
  {
  }

  /** A text that does not start with the separator has a first piece that starts with the text's first character. */
  lemma {:induction false} SplitHead(s: string, sep: char)
    requires s != [] && s[0] != sep
    ensures Split(s, sep)[0] != [] && Split(s, sep)[0][0] == s[0]
    decreases |s|
  {
    if sep in s {
      var j := LastIndexOf(s, sep);
      assert j > 0 && s[..j][0] == s[0];
      SplitHead(s[..j], sep);
      assert Split(s, sep)[0] == Split(s[..j], sep)[0];
    }
  }

  function DigitChar(d: nat): (c: char)
    requires d < 10
    ensures IsDigit(c) && c as int - '0' as int == d
  {
    "0123456789"[d]
  }

  /** `String(n)` for a non-negative integer: its decimal digits, most significant first. */
  function NatToDecimal(n: nat): (r: string)
    ensures |r| >= 1 && AllDigits(r)
    ensures |r| == 1 <==> n < 10
  {
    if n < 10 then [DigitChar(n)] else NatToDecimal(n / 10) + [DigitChar(n % 10)]
  }

  /** `String(i)` for any integer. */
  function IntToDecimal(i: int): (r: string)
    ensures |r| >= 1
    ensures r[0] == '-' <==> i < 0
  {
    if i < 0 then "-" + NatToDecimal(-i) else NatToDecimal(i)
  }

  /** The value of a string of decimal digits. */
  function DecimalValue(s: string): nat
    requires AllDigits(s)
  {
    if s == [] then 0 else 10 * DecimalValue(s[..|s| - 1]) + (s[|s| - 1] as int - '0' as int)
  }

  /** Reading back the digits `String(n)` writes gives `n`. */
  lemma {:induction false} DecimalRoundTrip(n: nat)
    ensures DecimalValue(NatToDecimal(n)) == n
  {
    if n >= 10 {
      DecimalRoundTrip(n / 10);
      var r := NatToDecimal(n);
      assert r[..|r| - 1] == NatToDecimal(n / 10);
    }
  }

  /** Numbers from 1000 to 9999 are written with exactly four digits. */
  lemma FourDigitYear(n: nat)
    requires 1000 <= n <= 9999
    ensures |NatToDecimal(n)| == 4
  {
    var hundreds := n / 10;
    var tens := hundreds / 10;
    var units := tens / 10;
    assert 100 <= hundreds <= 999 && 10 <= tens <= 99 && 1 <= units <= 9;
    assert |NatToDecimal(tens)| == |NatToDecimal(units)| + 1;
    assert |NatToDecimal(hundreds)| == |NatToDecimal(tens)| + 1;
    assert |NatToDecimal(n)| == |NatToDecimal(hundreds)| + 1;
  }

  /** `s.padStart(2, '0')`. */
  function PadStart2(s: string): (r: string)
    ensures |s| < 2 ==> |r| == 2 && r[2 - |s|..] == s && forall k :: 0 <= k < 2 - |s| ==> r[k] == '0'
    ensures |s| >= 2 ==> r == s
  {
    if |s| >= 2 then s else if |s| == 1 then "0" + s else "00"
  }

  function UpperChar(c: char): char {
    if IsAsciiLower(c) then (c as int - 32) as char else c
  }

  /** `s.toUpperCase()` restricted to ASCII letters. */
  function UpperAscii(s: string): (r: string)
    ensures |r| == |s|
    ensures forall k :: 0 <= k < |s| ==> !IsAsciiLower(r[k])
  {
    seq(|s|, k requires 0 <= k < |s| => UpperChar(s[k]))
  }

  function LowerChar(c: char): char {
    if IsAsciiUpper(c) then (c as int + 32) as char else c
  }

  /** `s.toLowerCase()` restricted to ASCII letters. */
  function LowerAscii(s: string): (r: string)
    ensures |r| == |s|
    ensures forall k :: 0 <= k < |s| ==> !IsAsciiUpper(r[k])
  {
    seq(|s|, k requires 0 <= k < |s| => LowerChar(s[k]))
  }
}
