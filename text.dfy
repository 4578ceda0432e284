/**
 * The few JavaScript string and number conversions the front end relies on:
 * `toLowerCase` (restricted to ASCII letters), `includes`, the decimal
 * rendering of an integer in a template literal or `toString()`, and
 * `parseInt(value, 10)`.
 */
module Text {
  import opened Wrappers

  predicate IsAsciiUpper(c: char) { 'A' <= c <= 'Z' }

  /** `toLowerCase` on one character: ASCII capitals become small letters, all else is kept. */
  function LowerChar(c: char): (d: char)
    ensures !IsAsciiUpper(d)
    ensures IsAsciiUpper(c) ==> d as int == c as int + 32
    ensures !IsAsciiUpper(c) ==> d == c
  {
    if IsAsciiUpper(c) then (c as int + 32) as char else c
  }

  /**
   * `s.toLowerCase()` on the ASCII range: the same length, no capital left,
   * each capital replaced by its small letter and every other character kept.
   */
  function Lower(s: string): (r: string)
    ensures |r| == |s|
    ensures forall i :: 0 <= i < |r| ==> !IsAsciiUpper(r[i])
    ensures forall i :: 0 <= i < |s| && !IsAsciiUpper(s[i]) ==> r[i] == s[i]
    ensures forall i :: 0 <= i < |s| && IsAsciiUpper(s[i]) ==> r[i] as int == s[i] as int + 32
  {
    seq(|s|, i requires 0 <= i < |s| => LowerChar(s[i]))
  }

  /** Lower-casing twice is lower-casing once. */
  lemma LowerIdempotent(s: string)
    ensures Lower(Lower(s)) == Lower(s)
  {
    var t := Lower(s);
    assert forall i :: 0 <= i < |t| ==> Lower(t)[i] == t[i];
  }

  /** A string that holds an ASCII capital letter is never the result of `Lower`. */
  lemma LowerHasNoCapitals(s: string, t: string)
    requires exists i :: 0 <= i < |t| && IsAsciiUpper(t[i])
    ensures Lower(s) != t
  {
  }

  /** The UTF-16 code units JavaScript stores for one character: two above U+FFFF (a surrogate pair), one otherwise. */
  function CodeUnits(c: char): (n: nat)
    ensures 1 <= n <= 2
    ensures n == 2 <==> c as int > 0xFFFF
  {
    if c as int > 0xFFFF then 2 else 1
  }

  /**
   * JavaScript's `s.length`, which counts UTF-16 code units: a character of
   * the Basic Multilingual Plane counts once, any other twice.
   */
  function JsLength(s: string): (n: nat)
    ensures |s| <= n <= 2 * |s|
    ensures n == 0 <==> s == ""
  {
    if s == [] then 0 else CodeUnits(s[0]) + JsLength(s[1..])
  }

  /** `length` adds up over concatenation. */
  lemma {:induction false} JsLengthAppend(s: string, t: string)
    ensures JsLength(s + t) == JsLength(s) + JsLength(t)
  {
    if s != [] {
      assert (s + t)[1..] == s[1..] + t;
      JsLengthAppend(s[1..], t);
    } else {
      assert s + t == t;
    }
  }

  /** On the Basic Multilingual Plane, `length` is the number of characters. */
  lemma {:induction false} JsLengthOfBmp(s: string)
    requires forall i :: 0 <= i < |s| ==> s[i] as int <= 0xFFFF
    ensures JsLength(s) == |s|
  {
    if s != [] {
      JsLengthOfBmp(s[1..]);
    }
  }

  /** `s.includes(q)`: `q` occurs in `s` at some position (the empty string occurs everywhere). */
  predicate Contains(s: string, q: string)
  {
    exists i :: 0 <= i <= |s| && q <= s[i..]
  }

  /** Any occurrence of `q` in `s` contains every character of `q`. */
  lemma ContainsChar(s: string, q: string, j: int)
    requires Contains(s, q) && 0 <= j < |q|
    ensures q[j] in s
  {
    var i :| 0 <= i <= |s| && q <= s[i..];
    assert s[i..][j] == s[i + j];
  }

  predicate IsDigit(c: char) { '0' <= c <= '9' }

  predicate AllDigits(s: string) { forall i :: 0 <= i < |s| ==> IsDigit(s[i]) }

  function DigitChar(d: nat): (c: char)
    requires d < 10
    ensures IsDigit(c)
  {
    ('0' as int + d) as char
  }

  function DigitValue(c: char): (d: nat)
    requires IsDigit(c)
    ensures d < 10 && DigitChar(d) == c
  {
    c as int - '0' as int
  }

  /** The decimal rendering of a natural number: digits only, no leading zero. */
  function NatToString(n: nat): (r: string)
    ensures r != [] && AllDigits(r)
    ensures |r| > 1 ==> r[0] != '0'
  {
    if n < 10 then [DigitChar(n)] else NatToString(n / 10) + [DigitChar(n % 10)]
  }

  /** The decimal rendering of an integer, with a leading `-` when it is negative. */
  function IntToString(n: int): (r: string)
    ensures r != [] && (r[0] == '-' || IsDigit(r[0]))
  {
    if n < 0 then "-" + NatToString(-n) else NatToString(n)
  }

  /** The number a string of decimal digits denotes. */
  function DigitsValue(ds: string): nat
    requires AllDigits(ds)
  {
    if ds == [] then 0 else DigitsValue(ds[..|ds| - 1]) * 10 + DigitValue(ds[|ds| - 1])
  }

  /** Reading back the decimal rendering of `n` gives `n`. */
  lemma {:induction false} NatToStringValue(n: nat)
    ensures DigitsValue(NatToString(n)) == n
  {
    if n >= 10 {
      NatToStringValue(n / 10);
      var s := NatToString(n);
      assert s[..|s| - 1] == NatToString(n / 10);
    }
  }

  /** The number of decimal digits at the start of `s`. */
  function DigitPrefixLength(s: string): (k: nat)
    ensures k <= |s| && AllDigits(s[..k])
    ensures k < |s| ==> !IsDigit(s[k])
  {
    if s == [] || !IsDigit(s[0]) then 0 else 1 + DigitPrefixLength(s[1..])
  }

  lemma {:induction false} DigitPrefixOfDigits(ds: string, rest: string)
    requires AllDigits(ds)
    requires rest == [] || !IsDigit(rest[0])
    ensures DigitPrefixLength(ds + rest) == |ds|
  {
    if ds != [] {
      assert (ds + rest)[1..] == ds[1..] + rest;
      DigitPrefixOfDigits(ds[1..], rest);
    }
  }

  /**
   * The integer at the very start of `s`: an optional `+` or `-` and at least
   * one decimal digit, returned with the text that follows it.
   */
  function LeadingInt(s: string): (r: Option<(int, string)>)
    ensures r.Some? ==> |r.value.1| < |s|
  {
    if s != [] && s[0] == '-' then
      match LeadingDigits(s[1..])
      case Some((v, rest)) => Some((-v, rest))
      case None => None
    else if s != [] && s[0] == '+' then LeadingDigits(s[1..])
    else LeadingDigits(s)
  }

  /** The number denoted by the decimal digits at the very start of `s`, with the text after them. */
  function LeadingDigits(s: string): (r: Option<(int, string)>)
    ensures r.Some? ==> |r.value.1| < |s| && r.value.0 >= 0
  {
    var k := DigitPrefixLength(s);
    if k == 0 then None else Some((DigitsValue(s[..k]) as int, s[k..]))
  }

  /** A run of digits followed by a non-digit reads as the number the digits denote. */
  lemma LeadingDigitsOf(ds: string, rest: string)
    requires ds != [] && AllDigits(ds)
    requires rest == [] || !IsDigit(rest[0])
    ensures LeadingDigits(ds + rest) == Some((DigitsValue(ds) as int, rest))
  {
    var s := ds + rest;
    DigitPrefixOfDigits(ds, rest);
    assert s[..|ds|] == ds;
    assert s[|ds|..] == rest;
  }

  /** Without a sign, such a run is read as it is. */
  lemma LeadingIntOfDigits(ds: string, rest: string)
    requires ds != [] && AllDigits(ds)
    requires rest == [] || !IsDigit(rest[0])
    ensures LeadingInt(ds + rest) == Some((DigitsValue(ds) as int, rest))
  {
    assert IsDigit((ds + rest)[0]);
    LeadingDigitsOf(ds, rest);
  }

  /** A minus sign before such a run negates the number read. */
  lemma LeadingIntOfNegatedDigits(ds: string, rest: string)
    requires ds != [] && AllDigits(ds)
    requires rest == [] || !IsDigit(rest[0])
    ensures LeadingInt("-" + (ds + rest)) == Some((-(DigitsValue(ds) as int), rest))
  {
    var s := "-" + (ds + rest);
    assert s[0] == '-' && s[1..] == ds + rest;
    LeadingDigitsOf(ds, rest);
  }

  /** Reading an integer from its own rendering stops exactly where the rendering ends. */
  lemma LeadingIntOfRendering(n: int, rest: string)
    requires rest == [] || !IsDigit(rest[0])
    ensures LeadingInt(IntToString(n) + rest) == Some((n, rest))
  {
    var m: nat := if n < 0 then -n else n;
    var ds := NatToString(m);
    NatToStringValue(m);
    if n < 0 {
      assert IntToString(n) + rest == "-" + (ds + rest);
      LeadingIntOfNegatedDigits(ds, rest);
    } else {
      assert IntToString(n) == ds;
      LeadingIntOfDigits(ds, rest);
    }
  }

  /** The characters `parseInt` skips before the number: JavaScript's white space and line terminators. */
  predicate IsJsWhitespace(c: char)
  {
    var n := c as int;
    (9 <= n <= 13) || n == 0x20 || n == 0xA0 || n == 0x1680 || (0x2000 <= n <= 0x200A) ||
    n == 0x2028 || n == 0x2029 || n == 0x202F || n == 0x205F || n == 0x3000 || n == 0xFEFF
  }

  /** The number of white-space characters at the start of `s`. */
  function WhitespacePrefixLength(s: string): (k: nat)
    ensures k <= |s| && forall i :: 0 <= i < k ==> IsJsWhitespace(s[i])
    ensures k < |s| ==> !IsJsWhitespace(s[k])
  {
    if s == [] || !IsJsWhitespace(s[0]) then 0
    else
      var k := WhitespacePrefixLength(s[1..]);
      assert forall i :: 1 <= i < k + 1 ==> s[i] == s[1..][i - 1];
      1 + k
  }

  /** What `parseInt` skips: the longest prefix of white space goes, and nothing else. */
  function TrimStart(s: string): (r: string)
    ensures exists k :: 0 <= k <= |s| && r == s[k..] && forall i :: 0 <= i < k ==> IsJsWhitespace(s[i])
    ensures r == [] || !IsJsWhitespace(r[0])
  {
    var k := WhitespacePrefixLength(s);
    s[k..]
  }

  /** Leading white space adds to the white-space prefix and nothing more. */
  lemma {:induction false} WhitespacePrefixOfConcat(ws: string, t: string)
    requires forall i :: 0 <= i < |ws| ==> IsJsWhitespace(ws[i])
    ensures WhitespacePrefixLength(ws + t) == |ws| + WhitespacePrefixLength(t)
  {
    if ws == [] {
      assert ws + t == t;
    } else {
      assert (ws + t)[0] == ws[0];
      assert (ws + t)[1..] == ws[1..] + t;
      WhitespacePrefixOfConcat(ws[1..], t);
    }
  }

  /** Leading white space makes no difference to `TrimStart`. */
  lemma TrimStartSkipsWhitespace(ws: string, t: string)
    requires forall i :: 0 <= i < |ws| ==> IsJsWhitespace(ws[i])
    ensures TrimStart(ws + t) == TrimStart(t)
  {
    WhitespacePrefixOfConcat(ws, t);
    assert (ws + t)[|ws| + WhitespacePrefixLength(t)..] == t[WhitespacePrefixLength(t)..];
  }

  /**
   * `parseInt(s, 10)`: skip leading white space, then read an optional sign
   * and the longest run of decimal digits; `None` stands for `NaN`.
   */
  function ParseInt(s: string): (r: Option<int>)
  {
    match LeadingInt(TrimStart(s))
    case None => None
    case Some((v, _)) => Some(v)
  }

  /** `parseInt` reads back the decimal rendering of every integer, whatever follows it. */
  lemma ParseIntOfRendering(n: int, rest: string)
    requires rest == [] || !IsDigit(rest[0])
    ensures ParseInt(IntToString(n) + rest) == Some(n)
  {
    LeadingIntOfRendering(n, rest);
    var s := IntToString(n) + rest;
    assert s[0] == IntToString(n)[0];
    assert TrimStart(s) == s;
  }

  /** `parseInt` reads back the decimal rendering of every integer. */
  lemma ParseIntOfNumeral(n: int)
    ensures ParseInt(IntToString(n)) == Some(n)
  {
    ParseIntOfRendering(n, "");
    assert IntToString(n) + "" == IntToString(n);
  }

  /** `parseInt` depends on its input only through what is left once the white space is skipped. */
  lemma ParseIntOfSameTrim(a: string, b: string)
    requires TrimStart(a) == TrimStart(b)
    ensures ParseInt(a) == ParseInt(b)
  {
  }

  /** White space before the rendering changes nothing: `parseInt` still reads the integer. */
  lemma ParseIntAfterWhitespace(ws: string, n: int, rest: string)
    requires forall i :: 0 <= i < |ws| ==> IsJsWhitespace(ws[i])
    requires rest == [] || !IsDigit(rest[0])
    ensures ParseInt(ws + IntToString(n) + rest) == Some(n)
  {
    var t := IntToString(n) + rest;
    var s := ws + IntToString(n) + rest;
    assert s == ws + t;
    TrimStartSkipsWhitespace(ws, t);
    ParseIntOfSameTrim(s, t);
    ParseIntOfRendering(n, rest);
  }
}
