/** The single-buyer purchase form: its validation schema, and the submit step that stores the
    purchase (total at Q125 per ticket, birth date as `DD/MM/YYYY`) and moves on to the payment page. */
module PurchaseForm {
  import opened Optional
  import opened Numerals
  import opened JsText
  import opened Calendar
  import opened Session
  import PurchaseDetails

  datatype CompraForm = CompraForm(
    nombre: string,
    apellido: string,
    correo: string,
    fechaNacimiento: Option<Date>,
    distancia: string,
    cantidad: string)

  /** Price of one ticket in quetzales. */
  const TicketPrice: nat := 125

  /** The distance values the form's select offers. */
  const DistanceOptions: seq<string> := ["5k", "10k"]

  /** A first or last name: between 2 and 50 characters. */
  predicate NameOk(s: string) {
    2 <= |s| <= 50
  }

  /** A birth date must be given and the whole-year age on `today` must lie in 5..100; a date
      after `today` gives an age of zero or less and is refused. */
  predicate BirthDateOk(b: Option<Date>, today: Date) {
    b.Some? && NotAfter(b.value, today) && 5 <= WholeYears(b.value, today) <= 100
  }

  predicate DistanceOk(s: string) {
    |s| >= 1
  }

  /** The quantity must be non-empty and `parseInt` of it must lie in 1..10. */
  predicate QuantityOk(s: string) {
    |s| >= 1 && ParseInt(s).Num? && 1 <= ParseInt(s).value <= 10
  }

  datatype Field = Nombre | Apellido | Correo | FechaNacimiento | Distancia | Cantidad

  /** The outcome of each field's rule, in schema order. */
  datatype Checks = Checks(nombre: bool, apellido: bool, correo: bool,
                           fechaNacimiento: bool, distancia: bool, cantidad: bool)

  /** The fields whose rule failed. */
  function Flagged(c: Checks): (r: set<Field>)
    ensures Nombre in r <==> !c.nombre
    ensures Apellido in r <==> !c.apellido
    ensures Correo in r <==> !c.correo
    ensures FechaNacimiento in r <==> !c.fechaNacimiento
    ensures Distancia in r <==> !c.distancia
    ensures Cantidad in r <==> !c.cantidad
  {
    (if c.nombre then {} else {Nombre})
    + (if c.apellido then {} else {Apellido})
    + (if c.correo then {} else {Correo})
    + (if c.fechaNacimiento then {} else {FechaNacimiento})
    + (if c.distancia then {} else {Distancia})
    + (if c.cantidad then {} else {Cantidad})
  }

  /** The fields the schema flags, each with its own message under the field; `isEmail` stands
      for the library's e-mail check. */
  function Errors(f: CompraForm, today: Date, isEmail: string -> bool): (r: set<Field>)
    ensures Nombre in r <==> !(2 <= |f.nombre| <= 50)
    ensures Apellido in r <==> !(2 <= |f.apellido| <= 50)
    ensures Correo in r <==> !isEmail(f.correo)
    ensures FechaNacimiento in r <==> !BirthDateOk(f.fechaNacimiento, today)
    ensures Distancia in r <==> f.distancia == ""
    ensures Cantidad in r <==> !QuantityOk(f.cantidad)
  {
    Flagged(Checks(NameOk(f.nombre), NameOk(f.apellido), isEmail(f.correo),
                   BirthDateOk(f.fechaNacimiento, today), DistanceOk(f.distancia),
                   QuantityOk(f.cantidad)))
  }

  predicate SchemaOk(f: CompraForm, today: Date, isEmail: string -> bool) {
    Errors(f, today, isEmail) == {}
  }

  /** The age rule read on the calendar: the fifth birthday has been reached and the
      hundred-and-first has not. */
  lemma BirthDateWindow(b: Date, today: Date)
    ensures BirthDateOk(Some(b), today)
            <==> NotAfter(AddYears(b, 5), today) && Before(today, AddYears(b, 101))
  {
    if NotAfter(b, today) {
      AgeAtLeast(b, today, 5);
      AgeAtLeast(b, today, 101);
    }
  }

  /** The day before, and the day of, a birthday; and a 29 February birthday, which is reached on
      28 February in a common year. */
  lemma AgeExamples()
    ensures WholeYears(Ymd(2010, 10, 10), Ymd(2023, 10, 9)) == 12
    ensures WholeYears(Ymd(2010, 10, 10), Ymd(2023, 10, 10)) == 13
    ensures WholeYears(Ymd(2008, 2, 29), Ymd(2013, 2, 28)) == 5
    ensures WholeYears(Ymd(2008, 2, 29), Ymd(2013, 2, 27)) == 4
  {
  }

  /** Every option of the quantity select passes the rule and parses to its own number. */
  lemma QuantityOptionsAccepted(n: nat)
    requires 1 <= n <= 10
    ensures ParseInt(ToDecimal(n)) == Num(n)
    ensures QuantityOk(ToDecimal(n))
  {
    ParseIntOfDecimalPrefix(n, "");
    assert ToDecimal(n) + "" == ToDecimal(n);
  }

  /** `parseInt` reads a leading number and ignores what follows it, so an option followed by
      any text that does not continue the number (for instance "3 tickets") passes. */
  lemma QuantityTrailingTextAccepted(n: nat, rest: string)
    requires 1 <= n <= 10
    requires |rest| == 0 || !IsDigit(rest[0])
    ensures ParseInt(ToDecimal(n) + rest) == Num(n) && QuantityOk(ToDecimal(n) + rest)
  {
    ParseIntOfDecimalPrefix(n, rest);
  }

  /** A `0x` prefix is read as hexadecimal: `0x` followed by hexadecimal digits worth 1..10 (such
      as "0xA", ten tickets) and by anything that does not continue them passes. */
  lemma QuantityHexAccepted(h: string, rest: string)
    requires |h| >= 1 && forall i :: 0 <= i < |h| ==> IsRadixDigit(h[i], 16)
    requires |rest| == 0 || !IsRadixDigit(rest[0], 16)
    requires 1 <= Value(h, 16) <= 10
    ensures ParseInt("0x" + h + rest) == Num(Value(h, 16)) && QuantityOk("0x" + h + rest)
  {
    ParseIntOfHex(h, rest);
  }

  /** In particular "0xA" asks for ten tickets. */
  lemma QuantityHexExample()
    ensures ParseInt("0xA") == Num(10) && QuantityOk("0xA")
  {
    assert Value("A", 16) == 10 by {
      assert "A"[..0] == "";
    }
    QuantityHexAccepted("A", "");
    assert "0x" + "A" + "" == "0xA";
  }

  /** Numbers outside 1..10 are refused. */
  lemma QuantityOutOfRangeRefused(n: nat)
    requires n == 0 || n > 10
    ensures !QuantityOk(ToDecimal(n))
  {
    ParseIntOfDecimalPrefix(n, "");
    assert ToDecimal(n) + "" == ToDecimal(n);
  }

  /** Text with no digit at all is refused. */
  lemma QuantityWithoutDigitsRefused(s: string)
    requires forall i :: 0 <= i < |s| ==> !IsDigit(s[i])
    ensures !QuantityOk(s)
  {
    ParseIntWithoutDigits(s);
  }

  /** The non-empty clause of the quantity adds nothing: a string that parses to 1..10 is never empty. */
  lemma QuantityRangeImpliesNonEmpty(s: string)
    requires ParseInt(s).Num? && 1 <= ParseInt(s).value <= 10
    ensures QuantityOk(s)
  {
    if |s| == 0 {
      ParseIntWithoutDigits(s);
    }
  }

  /** Both distance codes the form offers pass the schema but are priced 0 by the catalogue,
      which knows only the upper-case codes. */
  lemma FormDistancesMissCatalogue()
    ensures forall i :: 0 <= i < |DistanceOptions| ==>
              DistanceOk(DistanceOptions[i]) && PurchaseDetails.ObtenerPrecio(DistanceOptions[i]) == 0
  {
  }

  /** The record written to the session store. */
  datatype StoredPurchase = StoredPurchase(
    nombre: string,
    apellido: string,
    correo: string,
    fechaNacimiento: string,
    distancia: string,
    cantidad: string,
    total: IntParse,
    timestamp: string)

  /** The stored birth date: `DD/MM/YYYY` when a date was chosen, empty otherwise. */
  function BirthDateText(b: Option<Date>): (r: string)
    ensures b.Some? ==> ParseDmy(r) == b
    ensures b.None? ==> r == ""
  {
    match b
    case Some(d) => DmyRoundTrip(d); FormatDmy(d)
    case None => ""
  }

  /** The stored total, `parseInt(cantidad) * 125`: NaN when the quantity does not parse, a
      multiple of 125 otherwise, and 125..1250 for a quantity the schema accepts. */
  function TotalFor(cantidad: string): (r: IntParse)
    ensures r.NaN? <==> ParseInt(cantidad).NaN?
    ensures r.Num? ==> r.value == ParseInt(cantidad).value * TicketPrice && r.value % TicketPrice == 0
    ensures QuantityOk(cantidad) ==> r.Num? && TicketPrice <= r.value <= 10 * TicketPrice
  {
    match ParseInt(cantidad)
    case NaN => NaN
    case Num(n) => MultipleOfPrice(n); Num(n * TicketPrice)
  }

  lemma MultipleOfPrice(n: int)
    ensures (n * TicketPrice) % TicketPrice == 0
  {
  }

  /** The stored record: the form's fields, the birth date as `DD/MM/YYYY` (empty when absent),
      the total at Q125 per ticket and the submission instant `now`. */
  function PurchaseRecord(f: CompraForm, now: string): (r: StoredPurchase)
    ensures ParseInt(f.cantidad).Num? ==> r.total == Num(ParseInt(f.cantidad).value * TicketPrice)
    ensures QuantityOk(f.cantidad) ==>
              r.total.Num? && TicketPrice <= r.total.value <= 10 * TicketPrice && r.total.value % TicketPrice == 0
    ensures f.fechaNacimiento.Some? ==> ParseDmy(r.fechaNacimiento) == f.fechaNacimiento
    ensures f.fechaNacimiento.None? ==> r.fechaNacimiento == ""
    ensures r.nombre == f.nombre && r.apellido == f.apellido && r.correo == f.correo
    ensures r.distancia == f.distancia && r.cantidad == f.cantidad && r.timestamp == now
  {
    StoredPurchase(f.nombre, f.apellido, f.correo, BirthDateText(f.fechaNacimiento), f.distancia,
                   f.cantidad, TotalFor(f.cantidad), now)
  }

  datatype SubmitResult = SubmitResult(store: Store, navigate: Option<string>)

  /** Submitting the form: only a record that passes the whole schema is encoded with `encode`
      (standing for `JSON.stringify`) under `purchaseData`, followed by navigation to `/pagar`;
      otherwise nothing is stored and the page stays. */
  function Submit(f: CompraForm, today: Date, isEmail: string -> bool, now: string,
                  encode: StoredPurchase -> string, store: Store): (r: SubmitResult)
    ensures !SchemaOk(f, today, isEmail) ==> r.store == store && r.navigate == None
    ensures SchemaOk(f, today, isEmail) ==> r.navigate == Some(PaymentRoute)
    ensures SchemaOk(f, today, isEmail) ==>
              PurchaseDataKey in r.store && r.store[PurchaseDataKey] == encode(PurchaseRecord(f, now))
    ensures forall k :: k != PurchaseDataKey ==> (k in r.store <==> k in store)
    ensures forall k :: k != PurchaseDataKey && k in r.store ==> r.store[k] == store[k]
  {
    if SchemaOk(f, today, isEmail) then
      SubmitResult(SetItem(store, PurchaseDataKey, encode(PurchaseRecord(f, now))), Some(PaymentRoute))
    else
      SubmitResult(store, None)
  }

  /** A submitted purchase of `n` tickets stores a total of `125 * n` for some `n` in 1..10. */
  lemma StoredTotalIsQuantityTimesPrice(f: CompraForm, today: Date, isEmail: string -> bool, now: string)
    requires SchemaOk(f, today, isEmail)
    ensures exists n :: 1 <= n <= 10 && ParseInt(f.cantidad) == Num(n)
                        && PurchaseRecord(f, now).total == Num(n * TicketPrice)
  {
    assert QuantityOk(f.cantidad) by {
      assert Cantidad !in Errors(f, today, isEmail);
    }
    var n := ParseInt(f.cantidad).value;
    var r := PurchaseRecord(f, now);
    assert ParseInt(f.cantidad) == Num(n) && r.total == Num(n * TicketPrice);
  }
}
