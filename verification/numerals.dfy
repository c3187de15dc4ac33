/** Digits in a radix up to 36, the value of a digit string, and zero-padded decimal rendering.
    These are the building blocks of `parseInt`, of `Number.prototype.toString` on naturals
    and of the fixed-width `DD`, `MM`, `YYYY` date tokens. */
module Numerals {

  /** Value of an ASCII alphanumeric as a digit (0-9, then a/A = 10 up to z/Z = 35); 36 for anything else. */
  function DigitValue(c: char): (v: nat)
    ensures v <= 36
    ensures v < 10 <==> '0' <= c <= '9'
  {
    if '0' <= c <= '9' then c as nat - '0' as nat
    else if 'a' <= c <= 'z' then c as nat - 'a' as nat + 10
    else if 'A' <= c <= 'Z' then c as nat - 'A' as nat + 10
    else 36
  }

  predicate IsRadixDigit(c: char, radix: nat) {
    DigitValue(c) < radix
  }

  /** Value of a string of radix digits, most significant first; the empty string is 0. */
  function Value(s: string, radix: nat): nat {
    if |s| == 0 then 0
    else Value(s[..|s| - 1], radix) * radix + DigitValue(s[|s| - 1])
  }

  function Pow10(w: nat): (p: nat)
    ensures p >= 1
  {
    if w == 0 then 1 else 10 * Pow10(w - 1)
  }

  function DigitChar(d: nat): (c: char)
    requires d < 10
    ensures '0' <= c <= '9' && DigitValue(c) == d
  {
    ('0' as nat + d) as char
  }

  /** The low `w` decimal digits of `n`, padded on the left with zeros. */
  function Fixed(n: nat, w: nat): (r: string)
    ensures |r| == w
    ensures forall i :: 0 <= i < |r| ==> '0' <= r[i] <= '9'
  {
    if w == 0 then [] else Fixed(n / 10, w - 1) + [DigitChar(n % 10)]
  }

  /** Number of decimal digits of `n` without leading zeros (0 has one digit). */
  function NumDigits(n: nat): (k: nat)
    ensures k >= 1
  {
    if n < 10 then 1 else 1 + NumDigits(n / 10)
  }

  /** `n` in decimal, padded with zeros to at least `w` digits. */
  function Padded(n: nat, w: nat): string {
    Fixed(n, if w < NumDigits(n) then NumDigits(n) else w)
  }

  /** `n` in decimal with no padding, as JavaScript's `toString` renders a non-negative integer. */
  function ToDecimal(n: nat): string {
    Fixed(n, NumDigits(n))
  }

  lemma {:induction false} NumDigitsBound(n: nat)
    ensures n < Pow10(NumDigits(n))
    ensures n >= 10 ==> Pow10(NumDigits(n) - 1) <= n
  {
    if n >= 10 {
      NumDigitsBound(n / 10);
    }
  }

  /** Decimal rendering followed by decimal reading is the identity whenever `n` fits in `w` digits. */
  lemma {:induction false} FixedRoundTrip(n: nat, w: nat)
    requires n < Pow10(w)
    ensures Value(Fixed(n, w), 10) == n
  {
    if w > 0 {
      var f := Fixed(n, w);
      var p := Fixed(n / 10, w - 1);
      assert f == p + [DigitChar(n % 10)];
      assert f[..|f| - 1] == p;
      assert n / 10 < Pow10(w - 1) by {
        assert Pow10(w) == 10 * Pow10(w - 1);
      }
      FixedRoundTrip(n / 10, w - 1);
      assert Value(f, 10) == Value(p, 10) * 10 + DigitValue(f[|f| - 1]);
      assert DigitValue(f[|f| - 1]) == n % 10;
      assert (n / 10) * 10 + n % 10 == n;
    }
  }

  lemma ToDecimalRoundTrip(n: nat)
    ensures Value(ToDecimal(n), 10) == n
    ensures |ToDecimal(n)| == NumDigits(n)
  {
    NumDigitsBound(n);
    FixedRoundTrip(n, NumDigits(n));
  }

  lemma PaddedRoundTrip(n: nat, w: nat)
    ensures Value(Padded(n, w), 10) == n
    ensures |Padded(n, w)| >= w
  {
    NumDigitsBound(n);
    var k := if w < NumDigits(n) then NumDigits(n) else w;
    PowMonotone(NumDigits(n), k);
    FixedRoundTrip(n, k);
  }

  lemma {:induction false} PowMonotone(a: nat, b: nat)
    requires a <= b
    ensures Pow10(a) <= Pow10(b)
  {
    if a < b {
      PowMonotone(a, b - 1);
    }
  }
}
