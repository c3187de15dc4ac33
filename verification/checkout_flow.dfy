/** How the pages meet through the session store: what one page writes or removes and what the
    next page's mount step then does. */
module CheckoutFlow {
  import opened Optional
  import opened Session
  import opened Calendar
  import PurchaseForm
  import PaymentForm
  import Confirmation

  /** The purchase form stores its record under `purchaseData`, while the payment page reads
      `datosCompra`: starting from a store without `datosCompra`, a successful submission leads to
      `/pagar`, and the payment page sends the visitor straight back to `/compra`. */
  lemma SubmitThenPaymentMountRedirects<P>(
    f: PurchaseForm.CompraForm, today: Date, isEmail: string -> bool, now: string,
    encode: PurchaseForm.StoredPurchase -> string, store: Store, parse: string -> Option<P>)
    requires DatosCompraKey !in store
    requires PurchaseForm.SchemaOk(f, today, isEmail)
    ensures PurchaseForm.Submit(f, today, isEmail, now, encode, store).navigate == Some(PaymentRoute)
    ensures PaymentForm.Mount(PurchaseForm.Submit(f, today, isEmail, now, encode, store).store, parse)
            == Redirect(PurchaseRoute)
  {
    var r := PurchaseForm.Submit(f, today, isEmail, now, encode, store);
    assert DatosCompraKey != PurchaseDataKey;
    assert DatosCompraKey !in r.store;
  }

  /** Whatever the submission, it never supplies the key the payment page needs: the payment page
      loads after submitting exactly when it would have loaded before. */
  lemma SubmitLeavesPaymentMountAsIs<P>(
    f: PurchaseForm.CompraForm, today: Date, isEmail: string -> bool, now: string,
    encode: PurchaseForm.StoredPurchase -> string, store: Store, parse: string -> Option<P>)
    ensures PaymentForm.Mount(PurchaseForm.Submit(f, today, isEmail, now, encode, store).store, parse)
            == PaymentForm.Mount(store, parse)
  {
    var r := PurchaseForm.Submit(f, today, isEmail, now, encode, store);
    assert DatosCompraKey != PurchaseDataKey;
    assert GetItem(r.store, DatosCompraKey) == GetItem(store, DatosCompraKey);
  }

  /** Paying removes `datosCompra`, so afterwards the payment page and both confirmation pages
      send the visitor to `/compra`. */
  lemma PaymentEndsEveryMount<P, D, R>(
    page: PaymentForm.Page<P>, store: Store,
    parse: string -> Option<P>, parseDatos: string -> Option<D>, parseData: string -> Option<R>)
    requires PaymentForm.ValidarFormulario(page.form)
    ensures var after := PaymentForm.HandlePagar(page, store).store;
            && PaymentForm.Mount(after, parse) == Redirect(PurchaseRoute)
            && Confirmation.MountCompleted(after, parseDatos) == Redirect(PurchaseRoute)
            && Confirmation.MountPending(after, parseDatos, parseData) == Redirect(PurchaseRoute)
  {
    var after := PaymentForm.HandlePagar(page, store).store;
    assert DatosCompraKey !in after;
  }
}
