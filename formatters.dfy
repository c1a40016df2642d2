/**
 * The display helpers of src/utils/formatters.ts that do not depend on the
 * host's locale data: date fields for date inputs, relative ages, month
 * names, truncation, whitespace clean-up, the e-mail check, translations,
 * balance colours, initials and avatar colours. A date is given by its
 * calendar fields, and a relative age by its distance from now in
 * milliseconds.
 */
module Formatters {
  import opened Wrappers
  import opened Text
  import opened Numbers
  import opened TransactionSchemas

  // ------------------------------------------------------------- date inputs

  /** The fields a valid date object reports: `getFullYear()`, `getMonth()` (0 to 11) and `getDate()`. */
  datatype CalendarDate = CalendarDate(year: int, month: int, day: int)

  predicate ValidCalendar(d: CalendarDate) { 0 <= d.month <= 11 && 1 <= d.day <= 31 }

  /** `formatDateForInput(date)`; an invalid date is `None`. */
  function FormatDateForInput(date: Option<CalendarDate>): (r: string)
    requires date.Some? ==> ValidCalendar(date.value)
    ensures r == "" <==> date.None?
  {
    match date
    case None => ""
    case Some(d) => IntToDecimal(d.year) + "-" + PadStart2(NatToDecimal(d.month + 1)) + "-" + PadStart2(NatToDecimal(d.day))
  }

  /** A number below 100, padded to two digits, is two digits that read back as the number. */
  lemma TwoDigits(n: nat)
    requires n < 100
    ensures var s := PadStart2(NatToDecimal(n)); |s| == 2 && AllDigits(s) && DecimalValue(s) == n
  {
    var s := PadStart2(NatToDecimal(n));
    if n < 10 {
      assert s == ['0', DigitChar(n)];
      assert s[..1] == ['0'];
      assert DecimalValue(s[..1]) == 10 * DecimalValue([]) + 0;
    } else {
      assert |NatToDecimal(n / 10)| == 1;
      DecimalRoundTrip(n);
    }
  }

  /**
   * For a four-digit year the result passes the date format check of the
   * transaction forms, and its three fields read back as the year, the
   * one-based month and the day.
   */
  lemma DateForInputRoundTrip(d: CalendarDate)
    requires ValidCalendar(d) && 1000 <= d.year <= 9999
    ensures var s := FormatDateForInput(Some(d));
      && DateShape(s)
      && DecimalValue(s[..4]) == d.year && DecimalValue(s[5..7]) == d.month + 1 && DecimalValue(s[8..]) == d.day
  {
    var y := NatToDecimal(d.year);
    var m := PadStart2(NatToDecimal(d.month + 1));
    var dd := PadStart2(NatToDecimal(d.day));
    FourDigitYear(d.year);
    DecimalRoundTrip(d.year);
    TwoDigits(d.month + 1);
    TwoDigits(d.day);
    var s := FormatDateForInput(Some(d));
    assert s == y + "-" + m + "-" + dd;
    assert s[..4] == y && s[5..7] == m && s[8..] == dd;
    assert IsDigit(y[0]) && IsDigit(y[1]) && IsDigit(y[2]) && IsDigit(y[3]);
    assert IsDigit(m[0]) && IsDigit(m[1]) && IsDigit(dd[0]) && IsDigit(dd[1]);
  }

  // ------------------------------------------------------------ relative ages

  const JustNow := "Hace un momento"

  const SecondMs := 1000
  const MinuteMs := 60 * SecondMs
  const HourMs := 60 * MinuteMs
  const DayMs := 24 * HourMs

  /** "Hace n unit", with the singular exactly when n is 1. */
  function Ago(n: int, singular: string, plural: string): string {
    "Hace " + IntToDecimal(n) + " " + (if n == 1 then singular else plural)
  }

  /** The nested floors of the source divide once by the product of the divisors. */
  lemma FloorsCompose(ms: int)
    ensures ms / 1000 / 60 == ms / MinuteMs
    ensures ms / 1000 / 60 / 60 == ms / HourMs
    ensures ms / 1000 / 60 / 60 / 24 == ms / DayMs
  {
  }

  lemma DayFloorsCompose(days: int, ms: int)
    requires days == ms / DayMs
    ensures days / 30 == ms / (30 * DayMs)
    ensures days / 365 == ms / (365 * DayMs)
    ensures days / 30 < 12 <==> ms < 360 * DayMs
  {
  }

  /**
   * `formatRelativeDate(date)` for a date `diffMs` milliseconds before now:
   * under a minute is "a moment ago", then whole minutes under an hour,
   * hours under a day, days under 30 days, 30-day months under 12 of them,
   * and 365-day years after that.
   */
  function FormatRelativeDate(diffMs: int): (r: string)
    ensures diffMs < MinuteMs ==> r == JustNow
    ensures MinuteMs <= diffMs < HourMs ==> r == Ago(diffMs / MinuteMs, "minuto", "minutos")
    ensures HourMs <= diffMs < DayMs ==> r == Ago(diffMs / HourMs, "hora", "horas")
    ensures DayMs <= diffMs < 30 * DayMs ==> r == Ago(diffMs / DayMs, "día", "días")
    ensures 30 * DayMs <= diffMs < 360 * DayMs ==> r == Ago(diffMs / (30 * DayMs), "mes", "meses")
    ensures 360 * DayMs <= diffMs ==> r == Ago(diffMs / (365 * DayMs), "año", "años")
  {
    var diffSecs := diffMs / 1000;
    var diffMins := diffSecs / 60;
    var diffHours := diffMins / 60;
    var diffDays := diffHours / 24;
    var diffMonths := diffDays / 30;
    var diffYears := diffDays / 365;
    FloorsCompose(diffMs);
    DayFloorsCompose(diffDays, diffMs);
    if diffSecs < 60 then JustNow
    else if diffMins < 60 then Ago(diffMins, "minuto", "minutos")
    else if diffHours < 24 then Ago(diffHours, "hora", "horas")
    else if diffDays < 30 then Ago(diffDays, "día", "días")
    else if diffMonths < 12 then Ago(diffMonths, "mes", "meses")
    else Ago(diffYears, "año", "años")
  }

  /** Between 360 and 364 days ago the year bucket is reached before a full year has passed, and the text reads "0 years". */
  lemma ZeroYearsAgo(diffMs: int)
    requires 360 * DayMs <= diffMs < 365 * DayMs
    ensures FormatRelativeDate(diffMs) == "Hace 0 años"
  {
    assert diffMs / (365 * DayMs) == 0;
    assert IntToDecimal(0) == "0";
  }

  // -------------------------------------------------------------- month names

  const MonthNames := ["Enero", "Febrero", "Marzo", "Abril", "Mayo", "Junio", "Julio", "Agosto",
                       "Septiembre", "Octubre", "Noviembre", "Diciembre"]
  const UnknownMonth := "Desconocido"

  /** `getMonthName(monthNumber)`: the Spanish name of a zero-based month, or "Desconocido". */
  function GetMonthName(monthNumber: int): (r: string)
    ensures 0 <= monthNumber < 12 ==> r == MonthNames[monthNumber]
    ensures r == UnknownMonth <==> !(0 <= monthNumber < 12)
  {
    if 0 <= monthNumber < |MonthNames| && MonthNames[monthNumber] != "" then MonthNames[monthNumber] else UnknownMonth
  }

  // ---------------------------------------------------------------- truncation

  /** `truncateText(text, maxLength)`: text longer than the limit keeps its first `maxLength` characters and gains "...". */
  function TruncateText(text: string, maxLength: int): (r: string)
    ensures |text| <= maxLength ==> r == text
    ensures 0 <= maxLength < |text| ==> |r| == maxLength + 3 && r[..maxLength] == text[..maxLength] && r[maxLength..] == "..."
    ensures maxLength < 0 ==> r == "..."
  {
    if |text| <= maxLength then text
    else text[..if maxLength < 0 then 0 else maxLength] + "..."
  }

  /** A truncated text fits in three more characters than the limit, so truncating it again with that larger limit changes nothing. */
  lemma TruncateTextSettles(text: string, maxLength: nat)
    ensures |TruncateText(text, maxLength)| <= maxLength + 3
    ensures TruncateText(TruncateText(text, maxLength), maxLength + 3) == TruncateText(text, maxLength)
  {
  }

  // ------------------------------------------------------------ sanitisation

  /** Whitespace appears only as single plain spaces. */
  predicate SingleSpaced(s: string) {
    && (forall k :: 0 <= k < |s| && IsJsSpace(s[k]) ==> s[k] == ' ')
    && (forall k :: 0 <= k < |s| - 1 ==> !(IsJsSpace(s[k]) && IsJsSpace(s[k + 1])))
  }

  /** `s.replace(/\s+/g, ' ')`: every run of whitespace becomes one space. */
  function CollapseSpaces(s: string): (r: string)
    ensures SingleSpaced(r)
    ensures r == [] <==> s == []
    ensures r != [] ==> (IsJsSpace(r[0]) <==> IsJsSpace(s[0]))
    ensures r != [] ==> (IsJsSpace(r[|r| - 1]) <==> IsJsSpace(s[|s| - 1]))
    decreases |s|
  {
    if s == [] then []
    else if IsJsSpace(s[0]) then
      var rest := TrimStart(s);
      var tail := CollapseSpaces(rest);
      ConsSingleSpaced(' ', tail);
      [' '] + tail
    else
      var tail := CollapseSpaces(s[1..]);
      ConsSingleSpaced(s[0], tail);
      [s[0]] + tail
  }

  /** A character put in front of single-spaced text keeps it single-spaced when it is not whitespace, or is a plain space before no whitespace. */
  lemma ConsSingleSpaced(c: char, tail: string)
    requires SingleSpaced(tail)
    requires IsJsSpace(c) ==> c == ' ' && (tail == [] || !IsJsSpace(tail[0]))
    ensures SingleSpaced([c] + tail)
    ensures ([c] + tail)[0] == c
    ensures ([c] + tail)[|tail|] == if tail == [] then c else tail[|tail| - 1]
  {
    var r := [c] + tail;
    assert forall k :: 1 <= k < |r| ==> r[k] == tail[k - 1];
  }

  /** `sanitizeInput(input)`: trim, then collapse whitespace runs. */
  function SanitizeInput(input: string): (r: string)
    ensures SingleSpaced(r)
    ensures r == [] || (!IsJsSpace(r[0]) && !IsJsSpace(r[|r| - 1]))
  {
    CollapseSpaces(Trim(input))
  }

  /** Text that is already single-spaced passes through the collapse unchanged. */
  lemma {:induction false} CollapseSingleSpaced(s: string)
    requires SingleSpaced(s)
    ensures CollapseSpaces(s) == s
    decreases |s|
  {
    if s != [] {
      SingleSpacedTail(s);
      CollapseSingleSpaced(s[1..]);
    }
  }

  /** The tail of single-spaced text is single-spaced; a leading space is a plain space that no whitespace follows. */
  lemma SingleSpacedTail(s: string)
    requires s != [] && SingleSpaced(s)
    ensures SingleSpaced(s[1..])
    ensures s == [s[0]] + s[1..]
    ensures IsJsSpace(s[0]) ==> s[0] == ' ' && TrimStart(s) == s[1..]
  {
    if IsJsSpace(s[0]) {
      assert s[1..] == [] || !IsJsSpace(s[1]);
    }
  }

  /** Text with no whitespace at either end is its own trim. */
  lemma TrimUnchanged(s: string)
    requires s == [] || (!IsJsSpace(s[0]) && !IsJsSpace(s[|s| - 1]))
    ensures Trim(s) == s
  {
    assert TrimStart(s) == s;
    assert TrimEnd(s) == s;
  }

  /** Sanitising twice is sanitising once. */
  lemma SanitizeIdempotent(input: string)
    ensures SanitizeInput(SanitizeInput(input)) == SanitizeInput(input)
  {
    var r := SanitizeInput(input);
    TrimUnchanged(r);
    CollapseSingleSpaced(r);
  }

  /** The length of the run of non-whitespace characters that `s` starts with. */
  function WordLength(s: string): (n: nat)
    ensures n <= |s|
    ensures forall k :: 0 <= k < n ==> !IsJsSpace(s[k])
    ensures n < |s| ==> IsJsSpace(s[n])
  {
    if s == [] || IsJsSpace(s[0]) then 0 else 1 + WordLength(s[1..])
  }

  /** The words of `s`: its maximal runs of non-whitespace characters, in order. */
  function Words(s: string): (ws: seq<string>)
    decreases |s|
  {
    if s == [] then []
    else if IsJsSpace(s[0]) then Words(s[1..])
    else
      var n := WordLength(s);
      [s[..n]] + Words(s[n..])
  }

  /** Each word is non-empty and holds no whitespace. */
  lemma {:induction false} WordsAreWords(s: string)
    ensures forall i :: 0 <= i < |Words(s)| ==> Words(s)[i] != [] && NoSpace(Words(s)[i])
    decreases |s|
  {
    if s != [] {
      if IsJsSpace(s[0]) {
        WordsAreWords(s[1..]);
      } else {
        var n := WordLength(s);
        WordsAreWords(s[n..]);
        assert NoSpace(s[..n]);
      }
    }
  }

  /** No character of `w` is whitespace. */
  predicate NoSpace(w: string) { forall k :: 0 <= k < |w| ==> !IsJsSpace(w[k]) }

  /** The words separated by single spaces. */
  function JoinWords(ws: seq<string>): string {
    if ws == [] then [] else if |ws| == 1 then ws[0] else ws[0] + " " + JoinWords(ws[1..])
  }

  /** Text made only of whitespace has no words. */
  lemma {:induction false} WordsOfSpaces(u: string)
    requires forall k :: 0 <= k < |u| ==> IsJsSpace(u[k])
    ensures Words(u) == []
    decreases |u|
  {
    if u != [] {
      WordsOfSpaces(u[1..]);
    }
  }

  /** Dropping the leading whitespace does not change the words. */
  lemma {:induction false} WordsOfTrimStart(s: string)
    ensures Words(TrimStart(s)) == Words(s)
    decreases |s|
  {
    if s != [] && IsJsSpace(s[0]) {
      WordsOfTrimStart(s[1..]);
    }
  }

  /** Whitespace after the text does not lengthen its first word. */
  lemma {:induction false} WordLengthAppendSpaces(s: string, u: string)
    requires forall k :: 0 <= k < |u| ==> IsJsSpace(u[k])
    ensures WordLength(s + u) == WordLength(s)
    decreases |s|
  {
    if s == [] {
      assert s + u == u;
    } else if !IsJsSpace(s[0]) {
      assert (s + u)[1..] == s[1..] + u;
      WordLengthAppendSpaces(s[1..], u);
    }
  }

  /** Whitespace after the text does not change its words. */
  lemma {:induction false} WordsAppendSpaces(s: string, u: string)
    requires forall k :: 0 <= k < |u| ==> IsJsSpace(u[k])
    ensures Words(s + u) == Words(s)
    decreases |s|
  {
    if s == [] {
      assert s + u == u;
      WordsOfSpaces(u);
    } else if IsJsSpace(s[0]) {
      assert (s + u)[1..] == s[1..] + u;
      WordsAppendSpaces(s[1..], u);
    } else {
      var n := WordLength(s);
      WordLengthAppendSpaces(s, u);
      assert (s + u)[..n] == s[..n];
      assert (s + u)[n..] == s[n..] + u;
      WordsAppendSpaces(s[n..], u);
    }
  }

  /** Trimming a text keeps its words. */
  lemma WordsOfTrim(s: string)
    ensures Words(Trim(s)) == Words(s)
  {
    var t := TrimStart(s);
    WordsOfTrimStart(s);
    var e := TrimEnd(t);
    TrimEndPieces(t);
    WordsAppendSpaces(e, t[|e|..]);
  }

  /** Regroupings of concatenations, stated over plain variables so that they stay cheap wherever they are used. */
  lemma Regroup(a: string, b: string, c: string)
    ensures [] + a == a
    ensures a != [] ==> [a[0]] + (a[1..] + b) == a + b
    ensures a + ([] + b + c) == a + b + c
    ensures a + (b + [] + []) == [] + a + b
    ensures a + [] == [] + a + []
  {
  }

  /** One more regrouping of the same kind. */
  lemma Regroup4(a: string, b: string, c: string, d: string)
    ensures a + (b + c + d) == [] + (a + b + c) + d
  {
  }

  /** A word at the front passes through the collapse unchanged. */
  lemma {:induction false} CollapseKeepsWord(w: string, rest: string)
    requires forall k :: 0 <= k < |w| ==> !IsJsSpace(w[k])
    ensures CollapseSpaces(w + rest) == w + CollapseSpaces(rest)
  {
    var c := CollapseSpaces(rest);
    if w == [] {
      Regroup(rest, [], []);
      Regroup(c, [], []);
    } else {
      assert (w + rest)[1..] == w[1..] + rest;
      CollapseKeepsWord(w[1..], rest);
      Regroup(w, c, []);
    }
  }

  /** `" "` when the condition holds, empty otherwise. */
  function SpaceIf(b: bool): string { if b then " " else "" }

  /** Words joined by single spaces, with a space in front when `lead` holds and one after when `trail` holds. */
  function Spaced(lead: bool, ws: seq<string>, trail: bool): string {
    SpaceIf(lead) + JoinWords(ws) + SpaceIf(trail)
  }

  /** What the collapse of `s` is: its words joined by single spaces, with one space in front for leading whitespace and one after for trailing whitespace that follows a word. */
  function SpacedWords(s: string): string {
    Spaced(s != [] && IsJsSpace(s[0]), Words(s), Words(s) != [] && IsJsSpace(s[|s| - 1]))
  }

  /**
   * The collapse is the words of the text joined by single spaces, with one
   * space in front when the text starts with whitespace and one after when
   * it ends with whitespace following a word.
   */
  lemma {:induction false} CollapseSpacesWords(s: string)
    ensures CollapseSpaces(s) == SpacedWords(s)
    decreases |s|, 1
  {
    if s == [] {
    } else if IsJsSpace(s[0]) {
      CollapseAfterSpace(s);
    } else {
      CollapseAfterWord(s);
    }
  }

  /** The case of text that starts with whitespace: one space, then the collapse of the rest. */
  lemma {:induction false} CollapseAfterSpace(s: string)
    requires s != [] && IsJsSpace(s[0])
    ensures CollapseSpaces(s) == SpacedWords(s)
    decreases |s|, 0
  {
    var t := TrimStart(s);
    CollapseSpacesWords(t);
    var ws := Words(t);
    var tb := ws != [] && IsJsSpace(t[|t| - 1]);
    LeadingSpaceKeepsWords(s);
    Regroup(" ", JoinWords(ws), SpaceIf(tb));
  }

  /** Leading whitespace changes neither the words nor whether whitespace follows the last word; what remains starts with no whitespace. */
  lemma LeadingSpaceKeepsWords(s: string)
    requires s != [] && IsJsSpace(s[0])
    ensures var t := TrimStart(s);
      && Words(s) == Words(t)
      && !(t != [] && IsJsSpace(t[0]))
      && (Words(s) != [] && IsJsSpace(s[|s| - 1])) == (Words(t) != [] && IsJsSpace(t[|t| - 1]))
  {
    var t := TrimStart(s);
    TrimStartSuffix(s);
    WordsOfTrimStart(s);
    assert Words(t) != [] ==> t != [];
  }

  /** The case of text that starts with a word: the word, then the collapse of the rest. */
  lemma {:induction false} CollapseAfterWord(s: string)
    requires s != [] && !IsJsSpace(s[0])
    ensures CollapseSpaces(s) == SpacedWords(s)
    decreases |s|, 0
  {
    var n := WordLength(s);
    var w := s[..n];
    var rest := s[n..];
    LastOfPieces(s, n);
    CollapseKeepsWord(w, rest);
    assert Words(s) == [w] + Words(rest);
    CollapseSpacesWords(rest);
    if rest == [] {
      assert JoinWords(Words(s)) == w;
      Regroup(w, [], []);
    } else {
      if Words(rest) == [] {
        assert JoinWords(Words(s)) == w;
        Regroup(w, " ", []);
      } else {
        var j := JoinWords(Words(rest));
        var tr := SpaceIf(IsJsSpace(s[|s| - 1]));
        assert JoinWords(Words(s)) == w + " " + j;
        Regroup4(w, " ", j, tr);
      }
    }
  }

  /** Text with no whitespace at either end collapses to its words joined by single spaces. */
  lemma CollapseTrimmed(t: string)
    requires t == [] || (!IsJsSpace(t[0]) && !IsJsSpace(t[|t| - 1]))
    ensures CollapseSpaces(t) == JoinWords(Words(t))
  {
    CollapseSpacesWords(t);
  }

  /** `sanitizeInput` keeps the words of the input, in order, and puts exactly one space between each two of them. */
  lemma SanitizeJoinsWords(input: string)
    ensures SanitizeInput(input) == JoinWords(Words(input))
  {
    var t := Trim(input);
    assert SanitizeInput(input) == CollapseSpaces(t);
    CollapseTrimmed(t);
    WordsOfTrim(input);
  }

  // ------------------------------------------------------------------- e-mail

  /** A character `[^\s@]` matches. */
  predicate AddressChar(c: char) { !IsJsSpace(c) && c != '@' }

  predicate AllAddressChars(s: string) { forall k :: 0 <= k < |s| ==> AddressChar(s[k]) }

  /** The text reads local `@` domain `.` top, each of the three runs non-empty and free of whitespace and `@`. */
  predicate MatchesAt(s: string, i: int, j: int) {
    && 0 < i && i + 1 < j && j + 1 < |s| && s[i] == '@' && s[j] == '.'
    && AllAddressChars(s[..i]) && AllAddressChars(s[i + 1..j]) && AllAddressChars(s[j + 1..])
  }

  /** `^[^\s@]+@[^\s@]+\.[^\s@]+$` matches: the text splits that way at some `@` and some later `.`. */
  ghost predicate EmailPatternMatches(s: string) {
    exists i, j :: MatchesAt(s, i, j)
  }

  /** A `.` with something on either side of it. */
  predicate HasInnerDot(domain: string) {
    exists j :: 1 <= j < |domain| - 1 && domain[j] == '.'
  }

  /**
   * `isValidEmail(email)`: no whitespace, something before the first `@`, no
   * second `@`, and after it a `.` that is neither the first nor the last
   * character of the part after the `@`.
   */
  function IsValidEmail(email: string): (ok: bool)
    ensures ok <==> EmailPatternMatches(email)
  {
    if '@' !in email then false
    else
      var at := IndexOf(email, '@');
      var domain := email[at + 1..];
      IndexOfIsFirst(email, '@');
      MatchAtFirstAt(email, at);
      MatchFromFirstAt(email, at);
      at > 0 && AllAddressChars(email[..at]) && AllAddressChars(domain) && HasInnerDot(domain)
  }

  /** A run is free of whitespace and `@` exactly when one of its characters is, and the runs on either side of it are. */
  lemma AddressCharsAround(s: string, j: int)
    requires 0 <= j < |s|
    ensures AllAddressChars(s) <==> AllAddressChars(s[..j]) && AddressChar(s[j]) && AllAddressChars(s[j + 1..])
  {
    if AllAddressChars(s[..j]) && AddressChar(s[j]) && AllAddressChars(s[j + 1..]) {
      forall k | 0 <= k < |s| ensures AddressChar(s[k]) {
        if k < j {
          assert s[k] == s[..j][k];
        } else if k > j {
          assert s[k] == s[j + 1..][k - j - 1];
        }
      }
    }
  }

  /** A match splits at the first `@`. */
  lemma MatchAtFirstAt(email: string, at: nat)
    requires at < |email| && email[at] == '@' && '@' !in email[..at]
    ensures EmailPatternMatches(email) ==>
      at > 0 && AllAddressChars(email[..at]) && AllAddressChars(email[at + 1..]) && HasInnerDot(email[at + 1..])
  {
    if EmailPatternMatches(email) {
      var i, j :| MatchesAt(email, i, j);
      assert i == at;
      var domain := email[at + 1..];
      var d := j - at - 1;
      assert domain[d] == '.';
      assert domain[..d] == email[i + 1..j];
      assert domain[d + 1..] == email[j + 1..];
      AddressCharsAround(domain, d);
    }
  }

  /** Splitting at the first `@` and at an inner `.` after it gives a match. */
  lemma MatchFromFirstAt(email: string, at: nat)
    requires at < |email| && email[at] == '@'
    ensures at > 0 && AllAddressChars(email[..at]) && AllAddressChars(email[at + 1..]) && HasInnerDot(email[at + 1..])
      ==> EmailPatternMatches(email)
  {
    var domain := email[at + 1..];
    if at > 0 && AllAddressChars(email[..at]) && AllAddressChars(domain) && HasInnerDot(domain) {
      var d :| 1 <= d < |domain| - 1 && domain[d] == '.';
      AddressCharsAround(domain, d);
      var j := at + 1 + d;
      assert domain[..d] == email[at + 1..j];
      assert domain[d + 1..] == email[j + 1..];
      assert MatchesAt(email, at, j);
    }
  }

  // ------------------------------------------------------------- translations

  const PaymentMethodNames := map["cash" := "Efectivo", "card" := "Tarjeta", "transfer" := "Transferencia",
                                  "check" := "Cheque", "other" := "Otro"]

  /** `translatePaymentMethod(method)`: the Spanish name of a known method, any other text unchanged. */
  function TranslatePaymentMethod(code: string): (r: string)
    ensures code in PaymentMethodNames ==> r == PaymentMethodNames[code]
    ensures code !in PaymentMethodNames ==> r == code
  {
    if code in PaymentMethodNames && PaymentMethodNames[code] != "" then PaymentMethodNames[code] else code
  }

  /** Every method the expense form accepts has a translation, and no two share one. */
  lemma PaymentMethodsTranslated()
    ensures forall m :: m in PaymentMethods ==> m in PaymentMethodNames && TranslatePaymentMethod(m) != m
    ensures forall m, n :: m in PaymentMethodNames && n in PaymentMethodNames && m != n ==>
      TranslatePaymentMethod(m) != TranslatePaymentMethod(n)
  {
  }

  /** `translateCategoryType(type)`: anything but "income" reads as an expense. */
  function TranslateCategoryType(kind: string): (r: string)
    ensures r == "Ingreso" <==> kind == "income"
    ensures r == "Gasto" <==> kind != "income"
  {
    if kind == "income" then "Ingreso" else "Gasto"
  }

  /** `getBalanceColor(value)`: green above zero, red below, grey for zero and for NaN. */
  function GetBalanceColor(value: NumberOrText): (r: string)
    ensures ToNumber(value).Finite? && ToNumber(value).value > 0.0 ==> r == "text-green-600"
    ensures ToNumber(value).Finite? && ToNumber(value).value < 0.0 ==> r == "text-red-600"
    ensures ToNumber(value).NaN? || ToNumber(value) == Finite(0.0) ==> r == "text-gray-600"
  {
    var n := ToNumber(value);
    if n.Finite? && n.value > 0.0 then "text-green-600"
    else if n.Finite? && n.value < 0.0 then "text-red-600"
    else "text-gray-600"
  }

  /** Text that `parseFloat` cannot read gets the neutral colour, like zero. */
  lemma UnreadableBalanceIsNeutral(s: string)
    requires forall k :: 0 <= k < |s| ==> !IsDigit(s[k])
    ensures GetBalanceColor(TextValue(s)) == "text-gray-600"
  {
    ParseFloatNeedsDigit(s);
  }

  // ----------------------------------------------------------------- avatars

  /**
   * The words of trimmed text: the text itself when it has no space;
   * otherwise a first word starting with the text's first character and a
   * last word, non-empty, that is what follows the last space.
   */
  lemma WordsOfTrimmed(t: string)
    requires t == [] || (!IsJsSpace(t[0]) && !IsJsSpace(t[|t| - 1]))
    ensures var parts := Split(t, ' ');
      && (' ' !in t ==> parts == [t])
      && (' ' in t ==>
            && |parts| > 1 && parts[0] != [] && parts[0][0] == t[0]
            && LastIndexOf(t, ' ') + 1 < |t|
            && parts[|parts| - 1] == t[LastIndexOf(t, ' ') + 1..])
  {
    if ' ' in t {
      assert IsJsSpace(' ');
      SplitHead(t, ' ');
      SplitLast(t, ' ');
    }
  }

  /**
   * `getInitials(name)`: for a single word, its first two characters; for
   * several space-separated words, the first character of the name and the
   * first character after its last space; upper-cased either way.
   */
  function GetInitials(name: string): (r: string)
    ensures var t := Trim(name);
      && (' ' !in t ==> r == UpperAscii(t[..if |t| < 2 then |t| else 2]))
      && (' ' in t ==> LastIndexOf(t, ' ') + 1 < |t| && r == UpperAscii([t[0], t[LastIndexOf(t, ' ') + 1]]))
    ensures |r| <= 2
  {
    var t := Trim(name);
    WordsOfTrimmed(t);
    InitialsOfWords(Split(t, ' '))
  }

  /** The initials of the words once split: the first two characters of a lone word, else the first characters of the first and the last. */
  function InitialsOfWords(parts: seq<string>): string
    requires |parts| >= 1 && (|parts| > 1 ==> parts[0] != [] && Last(parts) != [])
  {
    if |parts| == 1 then UpperAscii(parts[0][..if |parts[0]| < 2 then |parts[0]| else 2])
    else UpperAscii([parts[0][0], Last(parts)[0]])
  }

  const AvatarColors := ["bg-blue-500", "bg-green-500", "bg-yellow-500", "bg-red-500",
                         "bg-purple-500", "bg-pink-500", "bg-indigo-500", "bg-teal-500"]

  /**
   * `getAvatarColor(name)`: the colour indexed by the first character's code
   * modulo 8. An empty name has no first character, and the lookup gives
   * `undefined`.
   */
  function GetAvatarColor(name: string): (r: Option<string>)
    ensures r.None? <==> name == []
    ensures r.Some? ==> r.value == AvatarColors[name[0] as int % 8] && r.value in AvatarColors
  {
    if name == [] then None else Some(AvatarColors[name[0] as int % |AvatarColors|])
  }

  /** Names that start with the same character get the same colour. */
  lemma AvatarColorByFirstChar(a: string, b: string)
    requires a != [] && b != [] && a[0] == b[0]
    ensures GetAvatarColor(a) == GetAvatarColor(b)
  {
  }
}
