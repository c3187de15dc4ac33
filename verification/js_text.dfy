/** The JavaScript string built-ins the forms rely on: the `\s` and `\d` regular-expression
    classes, `replace(/x/g, '')` as a filter, `trim`, ASCII `toUpperCase`/`toLowerCase`, and
    the global `parseInt` with no radix argument. */
module JsText {
  import opened Numerals

  /** Characters matched by `\s`; `String.prototype.trim` removes exactly the same set. */
  predicate IsWhitespace(c: char) {
    || c == '\t' || c == '\n' || c == '\U{000B}' || c == '\U{000C}' || c == '\r' || c == ' '
    || c == '\U{00A0}' || c == '\U{1680}' || ('\U{2000}' <= c <= '\U{200A}')
    || c == '\U{2028}' || c == '\U{2029}' || c == '\U{202F}' || c == '\U{205F}'
    || c == '\U{3000}' || c == '\U{FEFF}'
  }

  /** Characters matched by `\d` (ASCII digits only). */
  predicate IsDigit(c: char) {
    '0' <= c <= '9'
  }

  predicate AllDigits(s: string) {
    forall i :: 0 <= i < |s| ==> IsDigit(s[i])
  }

  /** `s.replace(/[^k]/g, '')`: the characters of `s` satisfying `keep`, in order. */
  function Filter(s: string, keep: char -> bool): (r: string)
    ensures |r| <= |s|
    ensures forall i :: 0 <= i < |r| ==> keep(r[i])
    ensures (forall i :: 0 <= i < |s| ==> keep(s[i])) ==> r == s
  {
    if |s| == 0 then []
    else (if keep(s[0]) then [s[0]] else []) + Filter(s[1..], keep)
  }

  lemma {:induction false} FilterAppend(a: string, b: string, keep: char -> bool)
    ensures Filter(a + b, keep) == Filter(a, keep) + Filter(b, keep)
  {
    if |a| > 0 {
      assert (a + b)[0] == a[0];
      assert (a + b)[1..] == a[1..] + b;
      FilterAppend(a[1..], b, keep);
    } else {
      assert a + b == b;
    }
  }

  /** Filtering with a weaker test first and a stronger one second is filtering with the stronger one. */
  lemma {:induction false} FilterTwice(s: string, first: char -> bool, second: char -> bool)
    requires forall c :: second(c) ==> first(c)
    ensures Filter(Filter(s, first), second) == Filter(s, second)
  {
    if |s| > 0 {
      FilterTwice(s[1..], first, second);
      FilterAppend(if first(s[0]) then [s[0]] else [], Filter(s[1..], first), second);
    }
  }

  function NotWhitespace(c: char): bool { !IsWhitespace(c) }

  /** `s.replace(/\s/g, '')` */
  function RemoveWhitespace(s: string): (r: string)
    ensures |r| <= |s|
    ensures forall i :: 0 <= i < |r| ==> !IsWhitespace(r[i])
  {
    Filter(s, NotWhitespace)
  }

  function IsDigitFn(c: char): bool { IsDigit(c) }

  /** `s.replace(/\D/g, '')`: the digits of `s`, in order. A string of digits is kept whole, a
      single character is kept exactly when it is a digit, and (`KeepDigitsAppend`) the digits of
      a concatenation are the digits of each part, one after the other. */
  function KeepDigits(s: string): (r: string)
    ensures AllDigits(r)
    ensures |r| <= |s|
    ensures AllDigits(s) ==> r == s
    ensures |s| == 1 ==> r == (if IsDigit(s[0]) then s else "")
  {
    Filter(s, IsDigitFn)
  }

  /** Digits are kept piece by piece: together with the one-character case this fixes every digit
      of the input in its place in the result. */
  lemma KeepDigitsAppend(a: string, b: string)
    ensures KeepDigits(a + b) == KeepDigits(a) + KeepDigits(b)
  {
    FilterAppend(a, b, IsDigitFn);
  }

  /** Removing whitespace before dropping non-digits changes nothing: whitespace is never a digit. */
  lemma DigitsIgnoreWhitespace(s: string)
    ensures KeepDigits(RemoveWhitespace(s)) == KeepDigits(s)
  {
    FilterTwice(s, NotWhitespace, IsDigitFn);
  }

  /** The digits of a string that has none but digits are the string itself. */
  lemma KeepDigitsOfDigits(s: string)
    requires AllDigits(s)
    ensures KeepDigits(s) == s
  {
  }

  /** `trimStart`: drop the leading run of whitespace. */
  function TrimStart(s: string): (r: string)
    ensures |r| <= |s| && r == s[|s| - |r|..]
    ensures forall i :: 0 <= i < |s| - |r| ==> IsWhitespace(s[i])
    ensures |r| > 0 ==> !IsWhitespace(r[0])
  {
    if |s| > 0 && IsWhitespace(s[0]) then TrimStart(s[1..]) else s
  }

  /** `trimEnd`: drop the trailing run of whitespace. */
  function TrimEnd(s: string): (r: string)
    ensures |r| <= |s| && r == s[..|r|]
    ensures forall i :: |r| <= i < |s| ==> IsWhitespace(s[i])
    ensures |r| > 0 ==> !IsWhitespace(r[|r| - 1])
  {
    if |s| > 0 && IsWhitespace(s[|s| - 1]) then TrimEnd(s[..|s| - 1]) else s
  }

  function Trim(s: string): string {
    TrimEnd(TrimStart(s))
  }

  /** `s.trim() === ''` */
  predicate IsBlank(s: string) {
    Trim(s) == ""
  }

  /** A string is blank after trimming exactly when every character of it is whitespace. */
  lemma BlankIffAllWhitespace(s: string)
    ensures IsBlank(s) <==> forall i :: 0 <= i < |s| ==> IsWhitespace(s[i])
  {
    var t := TrimStart(s);
    if IsBlank(s) {
      assert |t| == 0;
    } else {
      assert |t| > 0;
      assert !IsWhitespace(s[|s| - |t|]);
    }
  }

  function UpperChar(c: char): char {
    if 'a' <= c <= 'z' then (c as int - 32) as char else c
  }

  function LowerChar(c: char): char {
    if 'A' <= c <= 'Z' then (c as int + 32) as char else c
  }

  /** `toUpperCase` restricted to ASCII letters; every other character is kept. */
  function ToUpperAscii(s: string): (r: string)
    ensures |r| == |s|
  {
    seq(|s|, i requires 0 <= i < |s| => UpperChar(s[i]))
  }

  /** `toLowerCase` restricted to ASCII letters; every other character is kept. */
  function ToLowerAscii(s: string): (r: string)
    ensures |r| == |s|
  {
    seq(|s|, i requires 0 <= i < |s| => LowerChar(s[i]))
  }

  /** Upper-casing leaves no ASCII lower-case letter, changes only ASCII letters, and is idempotent. */
  lemma UpperAsciiProperties(s: string)
    ensures forall i :: 0 <= i < |s| ==> !('a' <= ToUpperAscii(s)[i] <= 'z')
    ensures forall i :: 0 <= i < |s| && !('a' <= s[i] <= 'z') ==> ToUpperAscii(s)[i] == s[i]
    ensures ToUpperAscii(ToUpperAscii(s)) == ToUpperAscii(s)
    ensures ToLowerAscii(ToUpperAscii(s)) == ToLowerAscii(s)
  {
  }

  /** Result of the global `parseInt`: a number or `NaN` (`-0` is represented by 0). */
  datatype IntParse = NaN | Num(value: int)

  /** The longest prefix of `s` made of digits of the given radix. */
  function DigitRun(s: string, radix: nat): (r: string)
    ensures |r| <= |s| && r == s[..|r|]
    ensures forall i :: 0 <= i < |r| ==> IsRadixDigit(r[i], radix)
    ensures |r| < |s| ==> !IsRadixDigit(s[|r|], radix)
  {
    if |s| > 0 && IsRadixDigit(s[0], radix) then [s[0]] + DigitRun(s[1..], radix) else []
  }

  /** The text after an optional leading `+` or `-`. */
  function AfterSign(t: string): string {
    if |t| > 0 && (t[0] == '-' || t[0] == '+') then t[1..] else t
  }

  predicate HasHexPrefix(u: string) {
    |u| >= 2 && u[0] == '0' && (u[1] == 'x' || u[1] == 'X')
  }

  /** The unsigned part of `parseInt`: a `0x`/`0X` prefix selects radix 16, otherwise radix 10,
      and the longest run of digits of that radix is read; an empty run is NaN. */
  function ParseUnsigned(u: string): (r: IntParse)
    ensures r.NaN? <==> ReadRun(u) == ""
    ensures r.Num? ==> r.value == Value(ReadRun(u), RadixOf(u))
  {
    if HasHexPrefix(u) then ParseRun(DigitRun(u[2..], 16), 16)
    else ParseRun(DigitRun(u, 10), 10)
  }

  /** A run of digits read in `radix`; the empty run is NaN. */
  function ParseRun(z: string, radix: nat): IntParse {
    if |z| == 0 then NaN else Num(Value(z, radix))
  }

  /** The radix `parseInt` settles on for the unsigned text `u`. */
  function RadixOf(u: string): nat {
    if HasHexPrefix(u) then 16 else 10
  }

  /** The digits `parseInt` reads from the unsigned text `u`: after `0x` in radix 16, else in radix 10. */
  function ReadRun(u: string): string {
    if HasHexPrefix(u) then DigitRun(u[2..], 16) else DigitRun(u, 10)
  }

  /** `parseInt(s)` with no radix: skip leading whitespace, read an optional sign, then the
      unsigned part; a leading `-` negates it. The result is NaN exactly when no digit follows
      the whitespace, the sign and the radix prefix; otherwise its magnitude is the value of the
      digits read, and it is negative only after a `-`. */
  function ParseInt(s: string): (r: IntParse)
    ensures var u := AfterSign(TrimStart(s));
            r.NaN? <==> ReadRun(u) == ""
    ensures var u := AfterSign(TrimStart(s));
            r.Num? ==> r.value == Value(ReadRun(u), RadixOf(u)) || r.value == -(Value(ReadRun(u), RadixOf(u)) as int)
    ensures r.Num? && r.value < 0 ==> TrimStart(s)[0] == '-'
    ensures r.Num? && |TrimStart(s)| > 0 && TrimStart(s)[0] == '-' ==> r.value <= 0
  {
    var t := TrimStart(s);
    var u := AfterSign(t);
    match ParseUnsigned(u)
    case NaN => NaN
    case Num(v) =>
      assert |t| > 0 by {
        assert |u| <= |t|;
        assert |u| > 0 by { assert ReadRun(u) != ""; }
      }
      Num(if t[0] == '-' then -v else v)
  }

  /** A run of decimal digits followed by anything that does not continue it parses to the run's value. */
  lemma ParseIntOfDigits(d: string, rest: string)
    requires |d| >= 1 && AllDigits(d)
    requires |rest| == 0 || !IsDigit(rest[0])
    requires |d| == 1 && d[0] == '0' && |rest| > 0 ==> rest[0] != 'x' && rest[0] != 'X'
    ensures ParseInt(d + rest) == Num(Value(d, 10))
  {
    assert (d + rest)[0] == d[0];
    ParseIntOfUnsigned(d + rest);
    ParseUnsignedOfDigits(d, rest);
  }

  lemma ParseUnsignedOfDigits(d: string, rest: string)
    requires |d| >= 1 && AllDigits(d)
    requires |rest| == 0 || !IsDigit(rest[0])
    requires |d| == 1 && d[0] == '0' && |rest| > 0 ==> rest[0] != 'x' && rest[0] != 'X'
    ensures ParseUnsigned(d + rest) == Num(Value(d, 10))
  {
    var s := d + rest;
    assert !HasHexPrefix(s) by {
      assert s[0] == d[0];
      assert |s| >= 2 ==> s[1] == (if |d| >= 2 then d[1] else rest[0]);
    }
    DigitRunOfDigits(d, rest);
  }

  /** Text that starts with a digit has no whitespace or sign to skip. */
  lemma ParseIntOfUnsigned(s: string)
    requires |s| > 0 && IsDigit(s[0])
    ensures ParseInt(s) == ParseUnsigned(s)
  {
    TrimStartKeeps(s);
    assert AfterSign(s) == s;
  }

  lemma TrimStartKeeps(s: string)
    requires |s| > 0 && !IsWhitespace(s[0])
    ensures TrimStart(s) == s
  {
  }

  /** A decimal numeral followed by anything that does not continue it parses to its own value. */
  lemma ParseIntOfDecimalPrefix(n: nat, rest: string)
    requires |rest| == 0 || !IsDigit(rest[0])
    requires n == 0 ==> |rest| == 0 || (rest[0] != 'x' && rest[0] != 'X')
    ensures ParseInt(ToDecimal(n) + rest) == Num(n)
  {
    var d := ToDecimal(n);
    ToDecimalRoundTrip(n);
    if |d| == 1 && d[0] == '0' {
      assert d == d[..0] + [d[0]];
      assert Value(d, 10) == 0;
    }
    ParseIntOfDigits(d, rest);
  }

  lemma {:induction false} DigitRunOfDigits(d: string, rest: string)
    requires AllDigits(d)
    requires |rest| == 0 || !IsDigit(rest[0])
    ensures DigitRun(d + rest, 10) == d
  {
    if |d| > 0 {
      assert (d + rest)[1..] == d[1..] + rest;
      DigitRunOfDigits(d[1..], rest);
    } else {
      assert d + rest == rest;
    }
  }

  /** The run of radix digits read from `d + rest` is `d` when `rest` does not continue it. */
  lemma {:induction false} DigitRunOfRun(d: string, rest: string, radix: nat)
    requires forall i :: 0 <= i < |d| ==> IsRadixDigit(d[i], radix)
    requires |rest| == 0 || !IsRadixDigit(rest[0], radix)
    ensures DigitRun(d + rest, radix) == d
  {
    if |d| > 0 {
      assert (d + rest)[1..] == d[1..] + rest;
      DigitRunOfRun(d[1..], rest, radix);
    } else {
      assert d + rest == rest;
    }
  }

  /** `0x` followed by a run of hexadecimal digits, and by anything that does not continue the
      run, parses to the run's value in radix 16. */
  lemma ParseIntOfHex(h: string, rest: string)
    requires |h| >= 1 && forall i :: 0 <= i < |h| ==> IsRadixDigit(h[i], 16)
    requires |rest| == 0 || !IsRadixDigit(rest[0], 16)
    ensures ParseInt("0x" + h + rest) == Num(Value(h, 16))
  {
    var s := "0x" + h + rest;
    assert s[0] == '0';
    ParseIntOfUnsigned(s);
    ParseUnsignedOfHex(h, rest);
  }

  lemma ParseUnsignedOfHex(h: string, rest: string)
    requires |h| >= 1 && forall i :: 0 <= i < |h| ==> IsRadixDigit(h[i], 16)
    requires |rest| == 0 || !IsRadixDigit(rest[0], 16)
    ensures ParseUnsigned("0x" + h + rest) == Num(Value(h, 16))
  {
    var s := "0x" + (h + rest);
    assert "0x" + h + rest == s;
    ReadRunOfHex(h, rest);
    assert RadixOf(s) == 16;
  }

  lemma ReadRunOfHex(h: string, rest: string)
    requires forall i :: 0 <= i < |h| ==> IsRadixDigit(h[i], 16)
    requires |rest| == 0 || !IsRadixDigit(rest[0], 16)
    ensures HasHexPrefix("0x" + (h + rest)) && ReadRun("0x" + (h + rest)) == h
  {
    HexPrefixOf(h + rest);
    DigitRunOfRun(h, rest, 16);
  }

  lemma HexPrefixOf(z: string)
    ensures HasHexPrefix("0x" + z) && ("0x" + z)[2..] == z
  {
    assert ("0x" + z)[0] == '0' && ("0x" + z)[1] == 'x';
  }

  /** A string with no ASCII digit anywhere parses to NaN. */
  lemma ParseIntWithoutDigits(s: string)
    requires forall i :: 0 <= i < |s| ==> !IsDigit(s[i])
    ensures ParseInt(s) == NaN
  {
    var t := TrimStart(s);
    var u := AfterSign(t);
    assert |u| == 0 || !IsDigit(u[0]) by {
      if |u| > 0 {
        assert u[0] == s[|s| - |u|];
      }
    }
    ParseUnsignedWithoutLeadingDigit(u);
  }

  /** Only the first character decides whether anything is read: without a leading digit the
      unsigned part is NaN. */
  lemma ParseUnsignedWithoutLeadingDigit(u: string)
    requires |u| == 0 || !IsDigit(u[0])
    ensures ParseUnsigned(u) == NaN
  {
  }
}
