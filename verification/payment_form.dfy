/** The payment page: its contact and card fields, the eight-clause validity check that enables
    the pay button, the pay handler, and the mount step that loads the purchase or sends the
    visitor back to the purchase page. */
module PaymentForm {
  import opened Optional
  import opened JsText
  import opened Session
  import CardEntry

  /** The four contact fields the personal-data panel edits, by the names it passes. */
  datatype ContactField = Telefono | Direccion | Nombre | Email

  datatype Contact = Contact(telefono: string, direccion: string, nombre: string, email: string)

  function Field(c: Contact, campo: ContactField): string {
    match campo
    case Telefono => c.telefono
    case Direccion => c.direccion
    case Nombre => c.nombre
    case Email => c.email
  }

  /** `handleInputChange(campo, valor)`: a copy of the contact record with one field replaced. */
  function HandleInputChange(c: Contact, campo: ContactField, valor: string): (r: Contact)
    ensures Field(r, campo) == valor
    ensures forall other :: other != campo ==> Field(r, other) == Field(c, other)
  {
    match campo
    case Telefono => c.(telefono := valor)
    case Direccion => c.(direccion := valor)
    case Nombre => c.(nombre := valor)
    case Email => c.(email := valor)
  }

  datatype Form = Form(
    datosPago: Contact,
    cardNumber: string,
    cardName: string,
    cardExpiry: string,
    cardCvv: string)

  const EmptyForm: Form := Form(Contact("", "", "", ""), "", "", "", "")

  /** `validarFormulario`: every contact field and the holder name non-blank, at least 13 card
      characters besides whitespace, a 5-character expiry and a CVV of at least 3 characters. A
      valid form has no blank contact field and at least 13, 5 and 3 characters in the three card
      fields; the empty form is not valid. */
  function ValidarFormulario(f: Form): (r: bool)
    ensures r ==> forall campo :: !IsBlank(Field(f.datosPago, campo))
    ensures r ==> !IsBlank(f.cardName) && |f.cardNumber| >= 13 && |f.cardExpiry| == 5 && |f.cardCvv| >= 3
  {
    BlankFields(f.datosPago);
    && !IsBlank(f.datosPago.nombre)
    && !IsBlank(f.datosPago.email)
    && !IsBlank(f.datosPago.telefono)
    && !IsBlank(f.datosPago.direccion)
    && |RemoveWhitespace(f.cardNumber)| >= 13
    && !IsBlank(f.cardName)
    && |f.cardExpiry| == 5
    && |f.cardCvv| >= 3
  }

  /** The four contact fields, one clause each. */
  lemma BlankFields(c: Contact)
    ensures !IsBlank(c.telefono) && !IsBlank(c.direccion) && !IsBlank(c.nombre) && !IsBlank(c.email) ==>
              forall campo :: !IsBlank(Field(c, campo))
  {
    if !IsBlank(c.telefono) && !IsBlank(c.direccion) && !IsBlank(c.nombre) && !IsBlank(c.email) {
      forall campo ensures !IsBlank(Field(c, campo)) {
        match campo
        case Telefono =>
        case Direccion =>
        case Nombre =>
        case Email =>
      }
    }
  }

  /** The empty form the page starts with is not valid. */
  lemma EmptyFormInvalid()
    ensures !ValidarFormulario(EmptyForm)
  {
    assert |EmptyForm.cardCvv| == 0;
  }

  predicate HasVisible(s: string) {
    exists i :: 0 <= i < |s| && !IsWhitespace(s[i])
  }

  /** The form is valid exactly when each contact field and the holder name contain a character
      other than whitespace, the card number has at least 13 characters besides whitespace, the
      expiry has exactly 5 characters and the CVV at least 3. */
  lemma ValidIffClauses(f: Form)
    ensures ValidarFormulario(f) <==>
      && (forall campo :: HasVisible(Field(f.datosPago, campo)))
      && |RemoveWhitespace(f.cardNumber)| >= 13
      && HasVisible(f.cardName)
      && |f.cardExpiry| == 5
      && |f.cardCvv| >= 3
  {
    var c := f.datosPago;
    BlankIffHidden(c.telefono);
    BlankIffHidden(c.direccion);
    BlankIffHidden(c.nombre);
    BlankIffHidden(c.email);
    BlankIffHidden(f.cardName);
    if HasVisible(c.telefono) && HasVisible(c.direccion) && HasVisible(c.nombre) && HasVisible(c.email) {
      forall campo ensures HasVisible(Field(c, campo)) {
        match campo
        case Telefono =>
        case Direccion =>
        case Nombre =>
        case Email =>
      }
    } else {
      assert !HasVisible(Field(c, Telefono)) || !HasVisible(Field(c, Direccion))
          || !HasVisible(Field(c, Nombre)) || !HasVisible(Field(c, Email));
    }
  }

  lemma BlankIffHidden(s: string)
    ensures IsBlank(s) <==> !HasVisible(s)
  {
    BlankIffAllWhitespace(s);
  }

  /** The phone clause asks only for something other than whitespace: replacing a non-blank phone
      by any other non-blank text, digits or not, never changes validity. */
  lemma PhoneOnlyNeedsNonBlank(f: Form, telefono: string)
    requires !IsBlank(f.datosPago.telefono) && !IsBlank(telefono)
    ensures ValidarFormulario(f.(datosPago := f.datosPago.(telefono := telefono))) == ValidarFormulario(f)
  {
  }

  /** For the values the card panel produces, the card clauses are conditions on the number of
      digits typed: at least 13 for the number, exactly 4 for the expiry, at least 3 for the CVV. */
  lemma FormattedCardClauses(number: string, expiry: string, cvv: string)
    ensures |RemoveWhitespace(CardEntry.FormatCardNumber(number))| >= 13 <==> |KeepDigits(number)| >= 13
    ensures |CardEntry.FormatExpiry(expiry)| == 5 <==> |KeepDigits(expiry)| == 4
    ensures |CardEntry.CvvInput(cvv)| >= 3 <==> |KeepDigits(cvv)| >= 3
  {
    var r := CardEntry.FormatCardNumber(number);
    if |KeepDigits(number)| > 16 {
      KeepAllDigits(KeepDigits(number)[..16]);
    }
  }

  lemma KeepAllDigits(d: string)
    requires AllDigits(d)
    ensures RemoveWhitespace(d) == d
  {
  }

  /** The payment page's state; `P` is whatever the stored purchase parses to. */
  datatype Page<P> = Page(datosCompra: Option<P>, isSubmitting: bool, isLoading: bool, form: Form)

  /** The pay button's `disabled` flag: on while a payment is in flight, and while the form is
      invalid. */
  function PayButtonDisabled<P>(page: Page<P>): (r: bool)
    ensures page.isSubmitting ==> r
    ensures !r ==> ValidarFormulario(page.form) && |page.form.cardNumber| >= 13
    ensures !page.isSubmitting && ValidarFormulario(page.form) ==> !r
  {
    page.isSubmitting || !ValidarFormulario(page.form)
  }

  /** A click on an enabled pay button always pays: the purchase key is gone, the browser goes to
      `/`, and the button stays disabled while the payment is processed, so a second click in
      that time does nothing. */
  lemma EnabledButtonPays<P>(page: Page<P>, store: Store)
    requires !PayButtonDisabled(page)
    ensures var r := HandlePagar(page, store);
            && r.navigate == Some(HomeRoute)
            && DatosCompraKey !in r.store
            && PayButtonDisabled(r.during)
  {
  }

  /** A freshly loaded payment page starts with an empty form, so its pay button is disabled. */
  lemma LoadedPageStartsDisabled<P>(store: Store, parse: string -> Option<P>)
    ensures Mount(store, parse).Loaded? ==> PayButtonDisabled(Mount(store, parse).value)
  {
    EmptyFormInvalid();
  }

  /** Mount: a missing or empty `datosCompra` entry, or one `parse` (standing for `JSON.parse`)
      rejects, sends the visitor to `/compra`; otherwise the parsed purchase is loaded and the
      loading flag cleared, with an empty form. */
  function Mount<P>(store: Store, parse: string -> Option<P>): (r: MountOutcome<Page<P>>)
    ensures r.Redirect? ==> r.target == PurchaseRoute
    ensures r.Loaded? <==> DatosCompraKey in store && store[DatosCompraKey] != ""
                           && parse(store[DatosCompraKey]).Some?
    ensures r.Loaded? ==> r.value == Page(parse(store[DatosCompraKey]), false, false, EmptyForm)
  {
    var saved := GetItem(store, DatosCompraKey);
    if Truthy(saved) then
      match parse(saved.value)
      case Some(datos) => Loaded(Page(Some(datos), false, false, EmptyForm))
      case None => Redirect(PurchaseRoute)
    else Redirect(PurchaseRoute)
  }

  /** What a click on pay leads to: the state while the simulated processing runs, the state after
      it, the store after it and where the browser goes. */
  datatype PayResult<P> = PayResult(during: Page<P>, after: Page<P>, store: Store, navigate: Option<string>)

  /** `handlePagar`: an invalid form is left as it is, with the store untouched and no navigation;
      a valid one sets the submitting flag while the simulated processing runs, then removes
      `datosCompra` from the store, goes to `/` and clears the flag. */
  function HandlePagar<P>(page: Page<P>, store: Store): (r: PayResult<P>)
    ensures !ValidarFormulario(page.form) ==>
              r.during == page && r.after == page && r.store == store && r.navigate == None
    ensures ValidarFormulario(page.form) ==>
              && r.during == page.(isSubmitting := true) && PayButtonDisabled(r.during)
              && RemovedExactly(store, r.store, {DatosCompraKey})
              && r.navigate == Some(HomeRoute)
              && r.after == page.(isSubmitting := false)
  {
    if !ValidarFormulario(page.form) then PayResult(page, page, store, None)
    else
      var during := page.(isSubmitting := true);
      PayResult(during, during.(isSubmitting := false), RemoveItem(store, DatosCompraKey), Some(HomeRoute))
  }

  /** Whatever the form, the pay handler never touches any key but `datosCompra`. */
  lemma PayTouchesOnlyPurchaseKey<P>(page: Page<P>, store: Store, k: string)
    requires k != DatosCompraKey
    ensures var r := HandlePagar(page, store); (k in r.store <==> k in store) && (k in store ==> r.store[k] == store[k])
  {
  }
}
