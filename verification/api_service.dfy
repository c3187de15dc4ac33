/** The ticket service: the addresses of its two endpoints and the helpers that turn a ticket's
    numeric state and platform into labels and a badge colour. */
module ApiService {
  import opened Optional
  import opened JsText
  import opened EnvConfig

  /** The service file's own copy of `buildApiUrl`, read as a case split on the seam: when
      exactly one side brings a slash the two parts are simply concatenated, when neither does a
      slash is inserted, and when both do the endpoint's is dropped. It is the same function as
      the configuration module's helper. */
  function BuildApiUrl(viteApiBaseUrl: Option<string>, endpoint: string): (r: string)
    ensures r == EnvConfig.BuildApiUrl(viteApiBaseUrl, endpoint)
  {
    var base := ApiBaseUrl(viteApiBaseUrl);
    match (EndsWithSlash(base), StartsWithSlash(endpoint))
    case (false, false) => base + "/" + endpoint
    case (true, false) => base + endpoint
    case (false, true) => base + endpoint
    case (true, true) => base + endpoint[1..]
  }

  /** Path of the ticket resource; a ticket id follows it. */
  const TicketPath: string := "api/v1/productcarrera/"

  /** Address `getTicketInfo` fetches for `ticketId`. */
  function TicketUrl(viteApiBaseUrl: Option<string>, ticketId: string): (r: string)
    ensures var b := DropTrailingSlash(ApiBaseUrl(viteApiBaseUrl));
            r == b + "/" + TicketPath + ticketId
  {
    var b := DropTrailingSlash(ApiBaseUrl(viteApiBaseUrl));
    assert DropLeadingSlash(TicketPath + ticketId) == TicketPath + ticketId by {
      assert (TicketPath + ticketId)[0] == 'a';
    }
    BuildApiUrl(viteApiBaseUrl, TicketPath + ticketId)
  }

  /** The endpoint `registerPayment` posts to. */
  const RegisterPaymentPath: string := "api/v1/productcarrera/register-payment"

  /** The payment endpoint sits under the ticket path, as the id `register-payment`. */
  lemma RegisterPaymentUnderTicketPath()
    ensures RegisterPaymentPath == TicketPath + "register-payment"
  {
    var t := TicketPath + "register-payment";
    assert |t| == |RegisterPaymentPath|;
    forall i | 0 <= i < |t| ensures t[i] == RegisterPaymentPath[i] {
      if i < |TicketPath| {
        assert t[i] == TicketPath[i];
      } else {
        assert t[i] == "register-payment"[i - |TicketPath|];
      }
    }
  }

  /** Address `registerPayment` posts to. */
  function RegisterPaymentUrl(viteApiBaseUrl: Option<string>): (r: string)
    ensures r == TicketUrl(viteApiBaseUrl, "register-payment")
  {
    RegisterPaymentUnderTicketPath();
    BuildApiUrl(viteApiBaseUrl, RegisterPaymentPath)
  }

  /** Different ticket ids are looked up at different addresses, and the only id whose lookup
      address is the payment endpoint is `register-payment` itself. */
  lemma TicketUrlInjective(env: Option<string>, id1: string, id2: string)
    ensures TicketUrl(env, id1) == TicketUrl(env, id2) <==> id1 == id2
    ensures TicketUrl(env, id1) == RegisterPaymentUrl(env) <==> id1 == "register-payment"
  {
    var b := DropTrailingSlash(ApiBaseUrl(env));
    var p := b + "/" + TicketPath;
    if TicketUrl(env, id1) == TicketUrl(env, id2) {
      assert TicketUrl(env, id1) == p + id1;
      assert TicketUrl(env, id2) == p + id2;
      assert (p + id1)[|p|..] == id1;
      assert (p + id2)[|p|..] == id2;
    }
    if TicketUrl(env, id1) == TicketUrl(env, "register-payment") {
      assert TicketUrl(env, id1) == p + id1;
      assert TicketUrl(env, "register-payment") == p + "register-payment";
      assert (p + id1)[|p|..] == id1;
      assert (p + "register-payment")[|p|..] == "register-payment";
    }
  }

  // ---------------------------------------------------------------- labels

  /** `getEstadoTexto`: the label of a ticket state; states other than 1..4 are unknown. */
  function EstadoTexto(estado: int): (r: string)
    ensures estado == 1 ==> r == "Activo"
    ensures estado == 2 ==> r == "Inactivo"
    ensures estado == 3 ==> r == "Vendido"
    ensures estado == 4 ==> r == "Pendiente de Pago"
    ensures 1 <= estado <= 4 <==> r != "Desconocido"
  {
    match estado
    case 1 => "Activo"
    case 2 => "Inactivo"
    case 3 => "Vendido"
    case 4 => "Pendiente de Pago"
    case _ => "Desconocido"
  }

  /** The four known states have four different labels. */
  lemma EstadoTextoInjective(m: int, n: int)
    requires 1 <= m <= 4 && 1 <= n <= 4
    ensures EstadoTexto(m) == EstadoTexto(n) <==> m == n
  {
  }

  /** `getPlatformTexto`: 1 is a physical ticket, 2 a digital one, anything else unknown. */
  function PlatformTexto(platform: int): (r: string)
    ensures platform == 1 ==> r == "Físico"
    ensures platform == 2 ==> r == "Digital"
    ensures 1 <= platform <= 2 <==> r != "Desconocida"
  {
    match platform
    case 1 => "Físico"
    case 2 => "Digital"
    case _ => "Desconocida"
  }

  /** The two known platforms have different labels. */
  lemma PlatformTextoInjective(m: int, n: int)
    requires 1 <= m <= 2 && 1 <= n <= 2
    ensures PlatformTexto(m) == PlatformTexto(n) <==> m == n
  {
  }

  // ---------------------------------------------------------------- badge colour

  const Gray: string := "bg-gray-100 text-gray-800"
  const Green: string := "bg-green-100 text-green-800"
  const Blue: string := "bg-blue-100 text-blue-800"
  const Yellow: string := "bg-yellow-100 text-yellow-800"

  /** `getEstadoClass`: an empty label is gray; otherwise the label, lower-cased, selects green for
      `activo`, blue for `vendido`, yellow for `pendiente de pago` and gray for anything else. */
  function EstadoClass(estado: string): (r: string)
    ensures r == Green <==> ToLowerAscii(estado) == "activo"
    ensures r == Blue <==> ToLowerAscii(estado) == "vendido"
    ensures r == Yellow <==> ToLowerAscii(estado) == "pendiente de pago"
    ensures r == Gray || r == Green || r == Blue || r == Yellow
  {
    if estado == "" then Gray
    else
      match ToLowerAscii(estado)
      case "activo" => Green
      case "inactivo" => Gray
      case "vendido" => Blue
      case "pendiente de pago" => Yellow
      case _ => Gray
  }

  /** The colour ignores letter case: labels that agree up to case share a colour. */
  lemma EstadoClassIgnoresCase(s: string, t: string)
    requires ToLowerAscii(s) == ToLowerAscii(t)
    ensures EstadoClass(s) == EstadoClass(t)
  {
    assert s == "" <==> t == "";
  }

  /** In particular an upper-cased label has the label's colour. */
  lemma EstadoClassOfUpper(s: string)
    ensures EstadoClass(ToUpperAscii(s)) == EstadoClass(s)
  {
    UpperAsciiProperties(s);
    EstadoClassIgnoresCase(ToUpperAscii(s), s);
  }

  /** The labels lower-cased are the words the badge colour compares against. */
  lemma LowerLabels()
    ensures ToLowerAscii(EstadoTexto(1)) == "activo"
    ensures ToLowerAscii(EstadoTexto(2)) == "inactivo"
    ensures ToLowerAscii(EstadoTexto(3)) == "vendido"
    ensures ToLowerAscii(EstadoTexto(4)) == "pendiente de pago"
    ensures ToLowerAscii(EstadoTexto(0)) == "desconocido"
  {
  }

  /** Labels and colours fit together: active is green, sold is blue, awaiting payment is yellow,
      and inactive as well as every unknown state is gray. */
  lemma EstadoClassOfTexto(n: int)
    ensures n == 1 ==> EstadoClass(EstadoTexto(n)) == Green
    ensures n == 3 ==> EstadoClass(EstadoTexto(n)) == Blue
    ensures n == 4 ==> EstadoClass(EstadoTexto(n)) == Yellow
    ensures n != 1 && n != 3 && n != 4 ==> EstadoClass(EstadoTexto(n)) == Gray
  {
    LowerLabels();
    if n < 1 || n > 4 {
      assert EstadoTexto(n) == EstadoTexto(0);
    }
  }
}
