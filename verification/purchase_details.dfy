/** The purchase summary shown beside the payment form: per-participant catalogue price and the
    subtotal / service fee / total block, over the participant records the page is given. */
module PurchaseDetails {

  datatype Participant = Participant(
    id: int,
    nombre: string,
    apellido: string,
    distancia: string,
    fechaNacimiento: string,
    ipu: string)

  /** Catalogue price of a distance code (`obtenerPrecio`); the codes compare case-sensitively. */
  function ObtenerPrecio(distancia: string): (r: nat)
    ensures r == 0 || r == 100 || r == 180
    ensures r == 100 <==> distancia == "5K"
    ensures r == 180 <==> distancia == "10K"
  {
    match distancia
    case "5K" => 100
    case "10K" => 180
    case _ => 0
  }

  /** The price printed on each participant's card of the summary. */
  function LinePrices(participantes: seq<Participant>): (r: seq<nat>)
    ensures |r| == |participantes|
    ensures forall i :: 0 <= i < |r| ==> r[i] == ObtenerPrecio(participantes[i].distancia)
  {
    seq(|participantes|, i requires 0 <= i < |participantes| => ObtenerPrecio(participantes[i].distancia))
  }

  datatype Totals = Totals(subtotal: int, commission: int, total: int)

  /** The totals block: subtotal and total both print the stored total; the service fee is zero. */
  function Summary(participantes: seq<Participant>, total: int): (r: Totals)
    ensures r.subtotal == r.total == total
    ensures r.commission == 0
    ensures r.subtotal + r.commission == r.total
  {
    Totals(total, 0, total)
  }

  /** The totals do not depend on the participants: the stored total is shown as it is, never
      recomputed from the line prices. */
  lemma SummaryIgnoresParticipants(ps: seq<Participant>, qs: seq<Participant>, total: int)
    ensures Summary(ps, total) == Summary(qs, total)
  {
  }

  /** Sum of a sequence of prices. */
  function Sum(xs: seq<nat>): nat {
    if |xs| == 0 then 0 else Sum(xs[..|xs| - 1]) + xs[|xs| - 1]
  }

  /** How many participants carry the distance code `code`. */
  function CountCode(ps: seq<Participant>, code: string): (k: nat)
    ensures k <= |ps|
  {
    if |ps| == 0 then 0
    else CountCode(ps[..|ps| - 1], code) + (if ps[|ps| - 1].distancia == code then 1 else 0)
  }

  /** The line prices add up to 100 for every `5K` participant and 180 for every `10K` one; every
      other code adds nothing. */
  lemma {:induction false} LineSumByCode(ps: seq<Participant>)
    ensures Sum(LinePrices(ps)) == 100 * CountCode(ps, "5K") + 180 * CountCode(ps, "10K")
  {
    if |ps| > 0 {
      var init := ps[..|ps| - 1];
      LineSumByCode(init);
      assert LinePrices(ps)[..|ps| - 1] == LinePrices(init);
    }
  }

  /** The distance codes the purchase form offers are lower-case. */
  predicate FormCode(distancia: string) {
    distancia == "5k" || distancia == "10k"
  }

  lemma {:induction false} NoCatalogueCode(ps: seq<Participant>, code: string)
    requires code == "5K" || code == "10K"
    requires forall i :: 0 <= i < |ps| ==> FormCode(ps[i].distancia)
    ensures CountCode(ps, code) == 0
  {
    if |ps| > 0 {
      NoCatalogueCode(ps[..|ps| - 1], code);
    }
  }

  /** The total printed under the lines equals their sum exactly when the total handed to the
      summary counts 100 per `5K` participant and 180 per `10K` one. */
  lemma SummaryMatchesLinesIff(ps: seq<Participant>, total: int)
    ensures Summary(ps, total).total == Sum(LinePrices(ps))
            <==> total == 100 * CountCode(ps, "5K") + 180 * CountCode(ps, "10K")
  {
    LineSumByCode(ps);
  }

  /** Participants carrying the purchase form's lower-case codes would be priced 0 on every line,
      so the lines would add up to 0 and agree with the printed total only if that total were 0. */
  lemma FormCodesLinesMissTotal(ps: seq<Participant>, total: int)
    requires forall i :: 0 <= i < |ps| ==> FormCode(ps[i].distancia)
    ensures forall i :: 0 <= i < |ps| ==> LinePrices(ps)[i] == 0
    ensures Sum(LinePrices(ps)) == 0
    ensures Summary(ps, total).total == Sum(LinePrices(ps)) <==> total == 0
  {
    LineSumByCode(ps);
    NoCatalogueCode(ps, "5K");
    NoCatalogueCode(ps, "10K");
  }
}
