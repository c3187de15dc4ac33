/** The two confirmation pages: the pending-payment page (a purchase waiting for payment through
    an external link) and the completed-purchase page. Each mounts by loading from the session
    store or redirecting to the purchase page, shows a per-participant price, and offers a
    finish button that clears the checkout keys and goes home. */
module Confirmation {
  import opened Optional
  import opened Session
  import PurchaseDetails

  /** What the pending-payment page holds once loaded: the purchase, the payment link and, when
      one was stored, the parsed registration response. */
  datatype PendingView<D, R> = PendingView(datosCompra: D, paymentUrl: string, paymentData: Option<R>)

  /** Mount of the pending-payment page. Both `datosCompra` and `zigiPaymentUrl` must hold a
      non-empty string, else the page goes to `/compra`. The purchase is parsed, and the stored
      response too when it is a non-empty string; a parse failure of either also goes to `/compra`.
      `parseDatos` and `parseData` stand for `JSON.parse` on the two entries. */
  function MountPending<D, R>(store: Store, parseDatos: string -> Option<D>, parseData: string -> Option<R>)
    : (r: MountOutcome<PendingView<D, R>>)
    ensures r.Redirect? ==> r.target == PurchaseRoute
    ensures !Truthy(GetItem(store, DatosCompraKey)) ==> r.Redirect?
    ensures !Truthy(GetItem(store, PaymentUrlKey)) ==> r.Redirect?
    ensures Truthy(GetItem(store, DatosCompraKey)) && parseDatos(store[DatosCompraKey]).None? ==> r.Redirect?
    ensures Truthy(GetItem(store, PaymentDataKey)) && parseData(store[PaymentDataKey]).None? ==> r.Redirect?
    ensures r.Loaded? ==>
              && Some(r.value.datosCompra) == parseDatos(store[DatosCompraKey])
              && r.value.paymentUrl == store[PaymentUrlKey] != ""
              && (r.value.paymentData.Some? <==> Truthy(GetItem(store, PaymentDataKey)))
              && (r.value.paymentData.Some? ==> r.value.paymentData == parseData(store[PaymentDataKey]))
  {
    var datos := GetItem(store, DatosCompraKey);
    var url := GetItem(store, PaymentUrlKey);
    var data := GetItem(store, PaymentDataKey);
    if Truthy(datos) && Truthy(url) then
      match parseDatos(datos.value)
      case None => Redirect(PurchaseRoute)
      case Some(d) =>
        if Truthy(data) then
          match parseData(data.value)
          case None => Redirect(PurchaseRoute)
          case Some(p) => Loaded(PendingView(d, url.value, Some(p)))
        else Loaded(PendingView(d, url.value, None))
    else Redirect(PurchaseRoute)
  }

  /** The pending-payment page loads whenever both required entries are present and parse and the
      optional response is absent, empty or parses. */
  lemma PendingLoadsWhenComplete<D, R>(store: Store, parseDatos: string -> Option<D>, parseData: string -> Option<R>)
    requires Truthy(GetItem(store, DatosCompraKey)) && Truthy(GetItem(store, PaymentUrlKey))
    requires parseDatos(store[DatosCompraKey]).Some?
    requires Truthy(GetItem(store, PaymentDataKey)) ==> parseData(store[PaymentDataKey]).Some?
    ensures MountPending(store, parseDatos, parseData).Loaded?
  {
  }

  /** Mount of the completed-purchase page: only `datosCompra` is required; missing, empty or
      unparseable, the page goes to `/compra`. */
  function MountCompleted<D>(store: Store, parseDatos: string -> Option<D>): (r: MountOutcome<D>)
    ensures r.Redirect? ==> r.target == PurchaseRoute
    ensures r.Loaded? <==> Truthy(GetItem(store, DatosCompraKey)) && parseDatos(store[DatosCompraKey]).Some?
    ensures r.Loaded? ==> Some(r.value) == parseDatos(store[DatosCompraKey])
  {
    var datos := GetItem(store, DatosCompraKey);
    if Truthy(datos) then
      match parseDatos(datos.value)
      case Some(d) => Loaded(d)
      case None => Redirect(PurchaseRoute)
    else Redirect(PurchaseRoute)
  }

  /** The completed page asks less than the pending one: whenever the pending page loads, the
      completed page loads the same purchase, and it ignores the two payment keys entirely. */
  lemma CompletedNeedsNoPaymentKeys<D, R>(store: Store, parseDatos: string -> Option<D>, parseData: string -> Option<R>, url: string, data: string)
    ensures MountPending(store, parseDatos, parseData).Loaded? ==>
              MountCompleted(store, parseDatos) == Loaded(MountPending(store, parseDatos, parseData).value.datosCompra)
    ensures MountCompleted(store, parseDatos) ==
              MountCompleted(store[PaymentUrlKey := url][PaymentDataKey := data], parseDatos)
  {
    var s2 := store[PaymentUrlKey := url][PaymentDataKey := data];
    assert GetItem(s2, DatosCompraKey) == GetItem(store, DatosCompraKey);
  }

  /** `handleFinalizarCompra` of both pages: the three checkout keys are removed, everything else
      in the store is kept, and the browser goes to `/`. */
  function Finalize(store: Store): (r: (Store, string))
    ensures RemovedExactly(store, r.0, {DatosCompraKey, PaymentUrlKey, PaymentDataKey})
    ensures r.1 == HomeRoute
  {
    var s := RemoveItem(store, DatosCompraKey);
    var s := RemoveItem(s, PaymentUrlKey);
    var s := RemoveItem(s, PaymentDataKey);
    (s, HomeRoute)
  }

  /** After finishing, neither page can load again: both mounts go to `/compra`. */
  lemma FinalizeEndsCheckout<D, R>(store: Store, parseDatos: string -> Option<D>, parseData: string -> Option<R>)
    ensures MountCompleted(Finalize(store).0, parseDatos) == Redirect(PurchaseRoute)
    ensures MountPending(Finalize(store).0, parseDatos, parseData) == Redirect(PurchaseRoute)
  {
  }

  /** The price printed beside each participant on both pages: 100 for `5K`, 180 for any other code. */
  function ShownPrice(distancia: string): (r: nat)
    ensures r == 100 || r == 180
    ensures r == 100 <==> distancia == "5K"
  {
    if distancia == "5K" then 100 else 180
  }

  /** The confirmation pages and the payment page's summary print the same price exactly for the
      two catalogue codes; for every other code (lower-case `5k`/`10k` included) the summary shows
      0 and the confirmation pages show 180. */
  lemma ShownPriceAgreesOnlyOnCatalogue(distancia: string)
    ensures ShownPrice(distancia) == PurchaseDetails.ObtenerPrecio(distancia)
            <==> distancia == "5K" || distancia == "10K"
    ensures distancia != "5K" && distancia != "10K" ==>
              PurchaseDetails.ObtenerPrecio(distancia) == 0 && ShownPrice(distancia) == 180
  {
  }
}
