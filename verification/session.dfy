/** The browser's per-tab `sessionStorage`, modelled as a map from keys to strings that the
    pages read and return, together with the keys and routes the checkout pages share. */
module Session {
  import opened Optional

  type Store = map<string, string>

  /** Key of the participants-and-total record the payment and confirmation pages read. */
  const DatosCompraKey: string := "datosCompra"
  /** Key of the external payment link kept for the pending-payment page. */
  const PaymentUrlKey: string := "zigiPaymentUrl"
  /** Key of the raw payment-registration response kept for the pending-payment page. */
  const PaymentDataKey: string := "zigiPaymentData"
  /** Key the single-buyer purchase form writes. */
  const PurchaseDataKey: string := "purchaseData"

  /** Route of the purchase entry page. */
  const PurchaseRoute: string := "/compra"
  /** Route of the payment page. */
  const PaymentRoute: string := "/pagar"
  /** Route of the home page. */
  const HomeRoute: string := "/"

  /** `sessionStorage.getItem(key)`: `null` is `None`. */
  function GetItem(store: Store, key: string): (r: Option<string>)
    ensures r.Some? <==> key in store
    ensures r.Some? ==> r.value == store[key]
  {
    if key in store then Some(store[key]) else None
  }

  /** JavaScript truthiness of a `getItem` result: both `null` and the empty string are false. */
  predicate Truthy(v: Option<string>) {
    v.Some? && v.value != ""
  }

  /** `sessionStorage.removeItem(key)` */
  function RemoveItem(store: Store, key: string): (r: Store)
    ensures key !in r
    ensures forall k :: k != key ==> (k in r <==> k in store)
    ensures forall k :: k in r ==> r[k] == store[k]
  {
    store - {key}
  }

  /** `sessionStorage.setItem(key, value)` */
  function SetItem(store: Store, key: string, value: string): (r: Store)
    ensures key in r && r[key] == value
    ensures forall k :: k != key ==> (k in r <==> k in store)
    ensures forall k :: k != key && k in r ==> r[k] == store[k]
  {
    store[key := value]
  }

  /** `store2` is `store` with exactly the keys in `gone` removed. */
  ghost predicate RemovedExactly(store: Store, store2: Store, gone: set<string>) {
    && (forall k :: k in store2 <==> k in store && k !in gone)
    && (forall k :: k in store2 ==> store2[k] == store[k])
  }

  /** What a page's mount effect ends with: either it navigates to `target` or it has loaded `value`. */
  datatype MountOutcome<+T> = Redirect(target: string) | Loaded(value: T)
}
