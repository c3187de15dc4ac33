/** The card-details panel of the payment page: keystroke formatters for the card number, the
    holder name, the MM/YY expiry and the CVV, and the prefix table that picks the card brand. */
module CardEntry {
  import opened Optional
  import opened JsText

  function Min(a: int, b: int): int {
    if a < b then a else b
  }

  // ---------------------------------------------------------------- card number

  /** Number of characters a run of `n` digits takes once a space follows every full group of
      four that has more digits after it. */
  function GroupedLength(n: nat): nat {
    if n == 0 then 0 else n + (n - 1) / 4
  }

  /** `r` is `d` written in groups of four: position `i` holds a space when `i % 5 == 4` and
      otherwise the digit `d[i - i / 5]`. */
  predicate GroupedInFours(r: string, d: string) {
    && |r| == GroupedLength(|d|)
    && forall i :: 0 <= i < |r| ==>
         if i % 5 == 4 then r[i] == ' ' else i - i / 5 < |d| && r[i] == d[i - i / 5]
  }

  /** `d.replace(/(\d{4})(?=\d)/g, '$1 ')` on a string of digits: a space after each group of four
      digits that is followed by another digit. */
  function Group(d: string): (r: string)
    ensures GroupedInFours(r, d)
    decreases |d|
  {
    if |d| <= 4 then d
    else
      var rest := Group(d[4..]);
      GroupStep(d, rest);
      d[..4] + " " + rest
  }

  /** Prefixing four digits and a space to the grouping of the rest groups the whole. */
  lemma GroupStep(d: string, rest: string)
    requires |d| > 4 && GroupedInFours(rest, d[4..])
    ensures GroupedInFours(d[..4] + " " + rest, d)
  {
    var r := d[..4] + " " + rest;
    forall i | 5 <= i < |r|
      ensures if i % 5 == 4 then r[i] == ' ' else i - i / 5 < |d| && r[i] == d[i - i / 5]
    {
      var j := i - 5;
      assert r[i] == rest[j];
      assert i % 5 == j % 5 && i - i / 5 == 4 + (j - j / 5);
    }
  }

  /** Two strings that both write `d` in groups of four are the same string. */
  lemma GroupingIsUnique(r: string, r2: string, d: string)
    requires GroupedInFours(r, d) && GroupedInFours(r2, d)
    ensures r == r2
  {
    assert forall i :: 0 <= i < |r| ==> r[i] == r2[i];
  }

  /** Taking the spaces out of the grouped digits gives the digits back. */
  lemma {:induction false} UngroupIsDigits(d: string)
    requires AllDigits(d)
    ensures RemoveWhitespace(Group(d)) == d
  {
    if |d| <= 4 {
      KeepAllNonWhitespace(d);
    } else {
      UngroupIsDigits(d[4..]);
      UngroupStep(d, Group(d[4..]));
    }
  }

  /** Removing the whitespace from four digits, a space and an ungroupable rest gives the digits. */
  lemma UngroupStep(d: string, rest: string)
    requires |d| > 4 && AllDigits(d) && RemoveWhitespace(rest) == d[4..]
    ensures RemoveWhitespace(d[..4] + " " + rest) == d
  {
    FilterAppend(d[..4] + " ", rest, NotWhitespace);
    FilterAppend(d[..4], " ", NotWhitespace);
    KeepAllNonWhitespace(d[..4]);
    assert d[..4] + d[4..] == d;
  }

  lemma KeepAllNonWhitespace(d: string)
    requires AllDigits(d)
    ensures RemoveWhitespace(d) == d
  {
  }

  /** `formatCardNumber`: keep the digits; more than 16 of them are cut to the first 16 with no
      spaces at all, otherwise they are written in groups of four. */
  function FormatCardNumber(value: string): (r: string)
    ensures forall i :: 0 <= i < |r| ==> IsDigit(r[i]) || r[i] == ' '
    ensures |KeepDigits(value)| > 16 ==> r == KeepDigits(value)[..16]
    ensures |KeepDigits(value)| <= 16 ==> GroupedInFours(r, KeepDigits(value))
    ensures |KeepDigits(value)| <= 16 ==> RemoveWhitespace(r) == KeepDigits(value)
    ensures |r| <= 19
  {
    var digits := KeepDigits(RemoveWhitespace(value));
    DigitsIgnoreWhitespace(value);
    if |digits| > 16 then digits[..16]
    else
      UngroupIsDigits(digits);
      var r := Group(digits);
      assert forall i :: 0 <= i < |r| && i % 5 != 4 ==> IsDigit(digits[i - i / 5]);
      r
  }

  /** The grouped number never starts or ends with a space. */
  lemma NoOuterSpaces(value: string)
    requires 0 < |KeepDigits(value)| <= 16
    ensures var r := FormatCardNumber(value); r[0] != ' ' && r[|r| - 1] != ' '
  {
    var d := KeepDigits(value);
    var r := FormatCardNumber(value);
    LastNotSeparator(|d|);
    assert IsDigit(d[0]) && IsDigit(d[|r| - 1 - (|r| - 1) / 5]);
  }

  /** The last position of a grouped run of `n >= 1` digits is not a separator position. */
  lemma LastNotSeparator(n: nat)
    requires n >= 1
    ensures (GroupedLength(n) - 1) % 5 != 4
  {
    var q, t := (n - 1) / 4, (n - 1) % 4;
    assert GroupedLength(n) - 1 == 5 * q + t;
  }

  /** Re-formatting a formatted number changes nothing exactly when it had at most 16 digits;
      past 16 the ungrouped cut is grouped by the next keystroke. */
  lemma FormatCardNumberIdempotentIff(value: string)
    ensures FormatCardNumber(FormatCardNumber(value)) == FormatCardNumber(value)
            <==> |KeepDigits(value)| <= 16
  {
    var d := KeepDigits(value);
    var r := FormatCardNumber(value);
    if |d| <= 16 {
      DigitsIgnoreWhitespace(r);
      KeepDigitsOfDigits(d);
      GroupingIsUnique(FormatCardNumber(r), r, d);
    } else {
      var cut := d[..16];
      assert AllDigits(cut);
      KeepDigitsOfDigits(cut);
      assert |FormatCardNumber(r)| == GroupedLength(16) == 19;
    }
  }

  // ---------------------------------------------------------------- holder name

  /** The holder-name field upper-cases whatever is typed (ASCII letters only in this model): each
      lower-case letter becomes the same letter in upper case, and nothing else changes. */
  function CardNameInput(value: string): (r: string)
    ensures |r| == |value|
    ensures forall i :: 0 <= i < |r| ==> !('a' <= r[i] <= 'z')
    ensures forall i :: 0 <= i < |r| && !('a' <= value[i] <= 'z') ==> r[i] == value[i]
    ensures forall i :: 0 <= i < |r| && 'a' <= value[i] <= 'z' ==> r[i] == (value[i] as int - 32) as char
    ensures ToLowerAscii(r) == ToLowerAscii(value)
    ensures ToUpperAscii(r) == r
  {
    UpperAsciiProperties(value);
    ToUpperAscii(value)
  }

  // ---------------------------------------------------------------- expiry

  /** `formatExpiry`: keep the digits; up to one digit stays as typed, two to four digits get a
      `/` after the second, and more than four are cut to the first four with no `/`. */
  function FormatExpiry(value: string): (r: string)
    ensures |r| <= 5
    ensures KeepDigits(r) == KeepDigits(value)[..Min(|KeepDigits(value)|, 4)]
    ensures forall i :: 0 <= i < |r| && i != 2 ==> IsDigit(r[i])
    ensures forall i :: 0 <= i < |r| ==> IsDigit(r[i]) || r[i] == '/'
    ensures (|r| > 2 && r[2] == '/') <==> 2 <= |KeepDigits(value)| <= 4
    ensures |r| == 5 <==> |KeepDigits(value)| == 4
    ensures |r| == 5 ==> r[2] == '/'
  {
    var digits := KeepDigits(value);
    if |digits| > 4 then
      KeepDigitsOfDigits(digits[..4]);
      digits[..4]
    else if |digits| >= 2 then
      SlashKeepsDigits(digits);
      digits[..2] + "/" + digits[2..]
    else
      KeepDigitsOfDigits(digits);
      digits
  }

  /** Inserting a `/` after the second digit loses no digit. */
  lemma SlashKeepsDigits(digits: string)
    requires |digits| >= 2 && AllDigits(digits)
    ensures KeepDigits(digits[..2] + "/" + digits[2..]) == digits
  {
    FilterAppend(digits[..2] + "/", digits[2..], IsDigitFn);
    FilterAppend(digits[..2], "/", IsDigitFn);
    KeepDigitsOfDigits(digits[..2]);
    KeepDigitsOfDigits(digits[2..]);
    assert digits[..2] + digits[2..] == digits;
  }

  /** Re-formatting a formatted expiry changes nothing exactly when at most four digits were typed. */
  lemma FormatExpiryIdempotentIff(value: string)
    ensures FormatExpiry(FormatExpiry(value)) == FormatExpiry(value) <==> |KeepDigits(value)| <= 4
  {
    var d := KeepDigits(value);
    var r := FormatExpiry(value);
    if |d| <= 4 {
      ExpiryDetermined(FormatExpiry(r), r);
    } else {
      assert |r| == 4;
      assert |FormatExpiry(r)| == 5;
    }
  }

  /** Two expiry outputs with the same digits and the same slash position are equal. */
  lemma ExpiryDetermined(a: string, b: string)
    requires |a| <= 5 && |b| <= 5
    requires KeepDigits(a) == KeepDigits(b)
    requires forall i :: 0 <= i < |a| && i != 2 ==> IsDigit(a[i])
    requires forall i :: 0 <= i < |b| && i != 2 ==> IsDigit(b[i])
    requires (|a| > 2 && a[2] == '/') == (|b| > 2 && b[2] == '/')
    requires |a| > 2 && !IsDigit(a[2]) ==> a[2] == '/'
    requires |b| > 2 && !IsDigit(b[2]) ==> b[2] == '/'
    ensures a == b
  {
    if |a| > 2 && a[2] == '/' {
      SplitDigits(a);
      SplitDigits(b);
    } else {
      KeepDigitsOfDigits(a);
      KeepDigitsOfDigits(b);
    }
  }

  lemma SplitDigits(a: string)
    requires 2 < |a| && a[2] == '/'
    requires forall i :: 0 <= i < |a| && i != 2 ==> IsDigit(a[i])
    ensures |KeepDigits(a)| == |a| - 1
    ensures a == KeepDigits(a)[..2] + "/" + KeepDigits(a)[2..]
  {
    assert a == a[..2] + "/" + a[3..];
    FilterAppend(a[..2] + "/", a[3..], IsDigitFn);
    FilterAppend(a[..2], "/", IsDigitFn);
    KeepDigitsOfDigits(a[..2]);
    KeepDigitsOfDigits(a[3..]);
  }

  // ---------------------------------------------------------------- CVV

  /** The CVV field keeps the first four digits typed. */
  function CvvInput(value: string): (r: string)
    ensures AllDigits(r)
    ensures |r| == Min(|KeepDigits(value)|, 4)
    ensures r == KeepDigits(value)[..|r|]
    ensures KeepDigits(r) == r
  {
    var d := KeepDigits(value);
    var r := d[..Min(|d|, 4)];
    KeepDigitsOfDigits(r);
    r
  }

  // ---------------------------------------------------------------- brand

  datatype Brand = Visa | Mastercard | Amex | Discover

  /** An entry of the card-type table: the literal prefixes its pattern accepts, the display name
      and the preview colour. */
  datatype CardType = CardType(brand: Brand, prefixes: seq<string>, name: string, color: string)

  /** The card-type table in its declaration order: `^4`, `^5[1-5]`, `^3[47]`, `^6(?:011|5)`. */
  const CardTypes: seq<CardType> := [
    CardType(Visa, ["4"], "Visa", "#1a1f71"),
    CardType(Mastercard, ["51", "52", "53", "54", "55"], "Mastercard", "#eb001b"),
    CardType(Amex, ["34", "37"], "American Express", "#006fcf"),
    CardType(Discover, ["6011", "65"], "Discover", "#ff6000")
  ]

  /** The entry's anchored pattern accepts `s`: one of its prefixes starts `s`. */
  predicate Matches(t: CardType, s: string) {
    exists i :: 0 <= i < |t.prefixes| && t.prefixes[i] <= s
  }

  /** The first entry of `types` whose pattern accepts `s`. */
  function FirstMatch(types: seq<CardType>, s: string): (r: Option<CardType>)
    ensures r.None? <==> forall i :: 0 <= i < |types| ==> !Matches(types[i], s)
    ensures r.Some? ==> exists i :: 0 <= i < |types| && types[i] == r.value && Matches(r.value, s)
                          && forall j :: 0 <= j < i ==> !Matches(types[j], s)
  {
    if |types| == 0 then None
    else if Matches(types[0], s) then Some(types[0])
    else
      var r := FirstMatch(types[1..], s);
      assert forall i :: 1 <= i < |types| ==> types[i] == types[1..][i - 1];
      r
  }

  /** The brand the four prefix rules assign, written directly on the characters of `s`. */
  function ReferenceBrand(s: string): Option<Brand> {
    if |s| == 0 then None
    else if s[0] == '4' then Some(Visa)
    else if s[0] == '5' && |s| >= 2 && '1' <= s[1] <= '5' then Some(Mastercard)
    else if s[0] == '3' && |s| >= 2 && (s[1] == '4' || s[1] == '7') then Some(Amex)
    else if s[0] == '6' && ((|s| >= 4 && s[1] == '0' && s[2] == '1' && s[3] == '1') || (|s| >= 2 && s[1] == '5'))
    then Some(Discover)
    else None
  }

  function BrandOf(t: Option<CardType>): Option<Brand> {
    match t
    case None => None
    case Some(c) => Some(c.brand)
  }

  /** The table lookup assigns exactly the brand the prefix rules describe. */
  lemma FirstMatchIsReference(s: string)
    ensures BrandOf(FirstMatch(CardTypes, s)) == ReferenceBrand(s)
  {
    match ReferenceBrand(s)
    case Some(Visa) => VisaFirst(s);
    case Some(Mastercard) => MastercardSecond(s);
    case Some(Amex) => AmexThird(s);
    case Some(Discover) => DiscoverFourth(s);
    case None =>
      forall i | 0 <= i < |CardTypes| ensures !Matches(CardTypes[i], s) {
        NoPrefixMatches(CardTypes[i], s);
      }
  }

  lemma VisaFirst(s: string)
    requires ReferenceBrand(s) == Some(Visa)
    ensures FirstMatch(CardTypes, s) == Some(CardTypes[0])
  {
    assert CardTypes[0].prefixes[0] <= s;
  }

  lemma MastercardSecond(s: string)
    requires ReferenceBrand(s) == Some(Mastercard)
    ensures FirstMatch(CardTypes, s) == Some(CardTypes[1])
  {
    var k := s[1] as int - '1' as int;
    assert s[..2] == CardTypes[1].prefixes[k];
    assert !Matches(CardTypes[0], s);
    assert Matches(CardTypes[1], s);
  }

  lemma AmexThird(s: string)
    requires ReferenceBrand(s) == Some(Amex)
    ensures FirstMatch(CardTypes, s) == Some(CardTypes[2])
  {
    var k := if s[1] == '4' then 0 else 1;
    assert s[..2] == CardTypes[2].prefixes[k];
    assert !Matches(CardTypes[0], s);
    assert !Matches(CardTypes[1], s);
    assert Matches(CardTypes[2], s);
  }

  lemma DiscoverFourth(s: string)
    requires ReferenceBrand(s) == Some(Discover)
    ensures FirstMatch(CardTypes, s) == Some(CardTypes[3])
  {
    var k := if |s| >= 4 && s[1] == '0' && s[2] == '1' && s[3] == '1' then 0 else 1;
    assert s[..|CardTypes[3].prefixes[k]|] == CardTypes[3].prefixes[k];
    assert !Matches(CardTypes[0], s);
    assert !Matches(CardTypes[1], s);
    assert !Matches(CardTypes[2], s);
    assert Matches(CardTypes[3], s);
  }

  lemma NoPrefixMatches(t: CardType, s: string)
    requires t in CardTypes
    requires ReferenceBrand(s).None?
    ensures !Matches(t, s)
  {
  }

  /** No number is accepted by two entries of the table: the patterns differ in the first digit. */
  lemma PatternsDisjoint(s: string, i: nat, j: nat)
    requires i < j < |CardTypes|
    ensures !(Matches(CardTypes[i], s) && Matches(CardTypes[j], s))
  {
    if Matches(CardTypes[i], s) {
      MatchFixesFirstDigit(i, s);
      if Matches(CardTypes[j], s) {
        MatchFixesFirstDigit(j, s);
      }
    }
  }

  /** Every prefix of entry `i` starts with the same digit: 4, 5, 3 and 6 in table order. */
  lemma MatchFixesFirstDigit(i: nat, s: string)
    requires i < |CardTypes| && Matches(CardTypes[i], s)
    ensures |s| > 0 && s[0] == "4536"[i]
  {
    var a :| 0 <= a < |CardTypes[i].prefixes| && CardTypes[i].prefixes[a] <= s;
    assert CardTypes[i].prefixes[a][0] == "4536"[i];
  }

  /** The brand-detection effect, run whenever the card number changes: an empty number clears the
      brand; otherwise the whitespace-free number is looked up in the table and the first entry
      that accepts it becomes the brand, while a number no entry accepts leaves `prev` in place. */
  function DetectCardType(prev: Option<CardType>, cardNumber: string): (r: Option<CardType>)
    ensures cardNumber == "" ==> r == None
    ensures cardNumber != "" && ReferenceBrand(RemoveWhitespace(cardNumber)).Some? ==>
              r.Some? && r.value in CardTypes && BrandOf(r) == ReferenceBrand(RemoveWhitespace(cardNumber))
    ensures cardNumber != "" && ReferenceBrand(RemoveWhitespace(cardNumber)).None? ==> r == prev
  {
    if cardNumber == "" then None
    else
      var s := RemoveWhitespace(cardNumber);
      FirstMatchIsReference(s);
      match FirstMatch(CardTypes, s)
      case Some(t) => Some(t)
      case None => prev
  }

  /** The display name of each brand. */
  function BrandName(b: Brand): string {
    match b
    case Visa => "Visa"
    case Mastercard => "Mastercard"
    case Amex => "American Express"
    case Discover => "Discover"
  }

  /** The heading of the card preview: the detected entry's name, or `Tarjeta` when no brand is
      known. A table entry is always shown by its brand's name, never as `Tarjeta`. */
  function PreviewLabel(t: Option<CardType>): (r: string)
    ensures t.None? ==> r == "Tarjeta"
    ensures t.Some? && t.value in CardTypes ==> r == BrandName(t.value.brand) && r != "Tarjeta"
  {
    match t
    case Some(c) => c.name
    case None => "Tarjeta"
  }

  /** What the preview heading shows after the number changes: `Tarjeta` for an empty number, the
      brand's name for a number the prefix rules recognise, and the previous heading otherwise. */
  lemma PreviewFollowsNumber(prev: Option<CardType>, cardNumber: string)
    requires prev.None? || prev.value in CardTypes
    ensures cardNumber == "" ==> PreviewLabel(DetectCardType(prev, cardNumber)) == "Tarjeta"
    ensures cardNumber != "" && ReferenceBrand(RemoveWhitespace(cardNumber)).Some? ==>
              PreviewLabel(DetectCardType(prev, cardNumber)) == BrandName(ReferenceBrand(RemoveWhitespace(cardNumber)).value)
    ensures cardNumber != "" && ReferenceBrand(RemoveWhitespace(cardNumber)).None? ==>
              PreviewLabel(DetectCardType(prev, cardNumber)) == PreviewLabel(prev)
  {
  }
}
