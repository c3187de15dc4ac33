# Carrera Margarita Tejada checkout, modelled in Dafny

The web site sells tickets for the Margarita Tejada race. Most of it is presentation. The logic
that decides what a visitor can submit, and what the browser's session storage holds between
pages, is small and deterministic. This project models that logic as pure Dafny functions and
proves properties of it:

- the card-details panel of the payment page: the card-number grouper, the `MM/YY` expiry
  formatter, the CVV filter, holder-name upper-casing and the ordered prefix table that picks
  the card brand (`CardEntry`, `card_entry.dfy`);
- the payment page: the eight-clause validity check, the one-field contact update, the pay
  handler and the mount step that loads the purchase or goes back to `/compra` (`PaymentForm`);
- the single-buyer purchase form: the validation schema (name lengths, an age window of 5..100
  whole years, the quantity 1..10 read with JavaScript's `parseInt`), and the submit step that
  stores the total at Q125 per ticket and the birth date as `DD/MM/YYYY` (`PurchaseForm`);
- the purchase summary: the case-sensitive price lookup and the totals block (`PurchaseDetails`);
- the two confirmation pages: mount over the `datosCompra`, `zigiPaymentUrl` and
  `zigiPaymentData` keys, the finish button, and the inline per-participant price
  (`Confirmation`);
- the service helpers without I/O: the API base address and its default, URL joining, and the
  state/platform label tables and state badge colour (`EnvConfig`, `ApiService`);
- how the pages meet through the session store (`CheckoutFlow`).

Support modules: `Optional` (an option type), `Numerals` (digit values, fixed-width decimal
rendering and its inverse), `JsText` (JavaScript's `\s` and `\d` classes, `trim`, ASCII case
mapping and `parseInt`), `Session` (the store as `map<string, string>`, its keys and routes, the
truthiness test a page applies to a stored value), `Calendar` (dates, whole years between two
dates as dayjs counts them, `DD/MM/YYYY`).

Session storage is a map threaded through the functions; navigation is a returned route.
`JSON.parse` and `JSON.stringify` are function parameters (`string -> Option<T>` and
`T -> string`), the e-mail check is a parameter `isEmail`, and the current date is a parameter
`today`.

Two behaviours of the code are worth knowing before reading the model:

- `validarFormulario` (src/components/FormularioPago.tsx:84-95) checks only that the phone is
  not blank (the input's `maxLength` of 8 is a browser limit), that the expiry has five
  characters and that the card number has at least 13 non-space characters; the purchase
  schema (src/components/FormularioCompra.tsx:46-53) accepts ages 5 to 100;
- `FormularioCompra` writes the purchase under `purchaseData`, while `FormularioPago` and
  `ConfirmacionPago` read `datosCompra` (`CheckoutFlow.SubmitThenPaymentMountRedirects`).

## Model

| member | source | states |
|---|---|---|
| CardEntry.Group | src/components/InformacionTarjeta.tsx:73 | the digits written in groups of four: a space at every position `i % 5 == 4`, digit `d[i - i/5]` elsewhere, length `n + (n-1)/4` |
| CardEntry.UngroupIsDigits | src/components/InformacionTarjeta.tsx:73 | removing the spaces from the grouped digits gives the digits back |
| CardEntry.GroupingIsUnique | src/components/InformacionTarjeta.tsx:73 | at most one string writes a given digit string in groups of four |
| CardEntry.FormatCardNumber | src/components/InformacionTarjeta.tsx:70-74 | output holds only digits and spaces; more than 16 digits give exactly the first 16 with no space; otherwise the digits grouped in fours, the spaces removable to give the digits back, at most 19 characters |
| CardEntry.NoOuterSpaces | src/components/InformacionTarjeta.tsx:73 | a grouped number of 1..16 digits neither starts nor ends with a space |
| CardEntry.FormatCardNumberIdempotentIff | src/components/InformacionTarjeta.tsx:71-73 | formatting a formatted number changes nothing if and only if the input had at most 16 digits |
| CardEntry.CardNameInput | src/components/InformacionTarjeta.tsx:141 | same length; each lower-case letter becomes the same letter in upper case and every other character is unchanged, so the result lower-cases to what the input lower-cases to; upper-casing again changes nothing |
| CardEntry.FormatExpiry | src/components/InformacionTarjeta.tsx:77-84 | at most 5 characters holding the first four typed digits; a `/` at index 2 exactly when 2..4 digits were typed; 5 characters exactly when 4 digits were typed |
| CardEntry.FormatExpiryIdempotentIff | src/components/InformacionTarjeta.tsx:78-83 | formatting a formatted expiry changes nothing if and only if at most four digits were typed |
| CardEntry.ExpiryDetermined | src/components/InformacionTarjeta.tsx:78-83 | two expiry outputs with the same digits and the same slash position are equal |
| CardEntry.CvvInput | src/components/InformacionTarjeta.tsx:166 | only digits, the first `min(n, 4)` digits typed, filtering again changes nothing |
| CardEntry.FirstMatch | src/components/InformacionTarjeta.tsx:58-63 | no entry is returned exactly when no pattern accepts the number; otherwise the returned entry accepts it and no earlier entry does |
| CardEntry.FirstMatchIsReference | src/components/InformacionTarjeta.tsx:5-30 | the table lookup assigns exactly the brand given by the rules `4`, `5[1-5]`, `3[47]`, `6011`/`65` written on characters |
| CardEntry.PatternsDisjoint | src/components/InformacionTarjeta.tsx:5-30 | no number is accepted by two entries of the table |
| CardEntry.MatchFixesFirstDigit | src/components/InformacionTarjeta.tsx:5-30 | each entry accepts only numbers starting with its own digit: 4, 5, 3, 6 in table order |
| CardEntry.DetectCardType | src/components/InformacionTarjeta.tsx:56-67 | an empty number clears the brand; a number the rules recognise, spaces removed, gets that table entry; a non-empty number no rule recognises keeps the previous brand |
| CardEntry.PreviewLabel | src/components/InformacionTarjeta.tsx:104 | `Tarjeta` when no brand is known; a table entry shows its brand's name, never `Tarjeta` |
| CardEntry.PreviewFollowsNumber | src/components/InformacionTarjeta.tsx:56-67 | after a number change the heading is `Tarjeta` for an empty number, the recognised brand's name, or else the previous heading |
| PaymentForm.HandleInputChange | src/components/FormularioPago.tsx:76-81 | the named field gets the new value and the other three fields keep theirs |
| PaymentForm.ValidarFormulario | src/components/FormularioPago.tsx:84-95 | a valid form has no blank contact field, a non-blank holder name, at least 13 card-number characters, a 5-character expiry and at least 3 CVV characters |
| PaymentForm.ValidIffClauses | src/components/FormularioPago.tsx:84-95 | the form is valid if and only if all four contact fields and the holder name contain a non-whitespace character, the card number has at least 13 non-space characters, the expiry exactly 5 characters and the CVV at least 3 |
| PaymentForm.PhoneOnlyNeedsNonBlank | src/components/FormularioPago.tsx:88 | any non-blank phone, digits or not, leaves validity unchanged |
| PaymentForm.FormattedCardClauses | src/components/FormularioPago.tsx:90-93 | on values the card panel produces, the card clauses mean at least 13 digits, exactly 4 expiry digits and at least 3 CVV digits |
| PaymentForm.Mount | src/components/FormularioPago.tsx:57-74 | loads exactly when `datosCompra` holds a non-empty string that parses, with loading cleared and an empty form; otherwise goes to `/compra` |
| PaymentForm.HandlePagar | src/components/FormularioPago.tsx:97-120 | an invalid form changes nothing and navigates nowhere; a valid one shows the same page with only the submitting flag set while processing, removes only `datosCompra`, goes to `/`, and leaves the same page with the flag cleared |
| PaymentForm.PayButtonDisabled | src/components/FormularioPago.tsx:195 | the button is disabled while submitting; when it is enabled the form is valid, and a valid form with no payment in flight enables it |
| PaymentForm.EnabledButtonPays | src/components/FormularioPago.tsx:97-120 | a click on an enabled button removes `datosCompra`, goes to `/`, and leaves the button disabled while the payment is processed |
| PaymentForm.LoadedPageStartsDisabled | src/components/FormularioPago.tsx:57-74 | a page that has just loaded has its pay button disabled, because the empty form is invalid |
| PaymentForm.PayTouchesOnlyPurchaseKey | src/components/FormularioPago.tsx:109 | every key other than `datosCompra` keeps its presence and value |
| PurchaseForm.Errors | src/components/FormularioCompra.tsx:37-59 | each field is flagged exactly when its rule fails: names outside 2..50 characters, a rejected e-mail, a birth date outside the age window, an empty distance, a quantity failing the 1..10 test |
| PurchaseForm.BirthDateWindow | src/components/FormularioCompra.tsx:47-53 | a birth date passes exactly when the fifth anniversary has been reached and the hundred-and-first has not |
| PurchaseForm.AgeExamples | src/components/FormularioCompra.tsx:51 | the age turns on the birthday itself, and a 29 February birthday is reached on 28 February of a common year |
| PurchaseForm.QuantityOptionsAccepted | src/components/FormularioCompra.tsx:56-58 | every option 1..10 of the select parses to its own number and passes |
| PurchaseForm.QuantityTrailingTextAccepted | src/components/FormularioCompra.tsx:58 | an accepted number followed by text that does not continue it still passes |
| PurchaseForm.QuantityHexAccepted | src/components/FormularioCompra.tsx:58 | `0x` followed by hexadecimal digits worth 1..10, and by any text that does not continue them, is read in radix 16 and passes |
| PurchaseForm.QuantityHexExample | src/components/FormularioCompra.tsx:58 | `0xA` is read as ten and passes |
| JsText.ParseIntOfHex | src/components/FormularioCompra.tsx:58 | `parseInt` of `0x`, a run of hexadecimal digits and text that does not continue them is the run's value in radix 16 |
| PurchaseForm.QuantityOutOfRangeRefused | src/components/FormularioCompra.tsx:58 | decimal numbers outside 1..10 are refused |
| PurchaseForm.QuantityWithoutDigitsRefused | src/components/FormularioCompra.tsx:58 | text without any digit is refused |
| PurchaseForm.QuantityRangeImpliesNonEmpty | src/components/FormularioCompra.tsx:56-58 | the non-empty check is implied by the range check |
| PurchaseForm.FormDistancesMissCatalogue | src/components/FormularioCompra.tsx:210-211 | both distance values the select offers pass the schema and are priced 0 by the catalogue |
| PurchaseForm.BirthDateText | src/components/FormularioCompra.tsx:89 | a chosen date is stored as text that reads back to the date; no date is stored as the empty string |
| PurchaseForm.TotalFor | src/components/FormularioCompra.tsx:90 | the total is NaN exactly when the quantity does not parse, otherwise the parsed value times 125; for a quantity the schema accepts it lies in 125..1250 |
| PurchaseForm.PurchaseRecord | src/components/FormularioCompra.tsx:87-92 | the total is the parsed quantity times 125, and for an accepted quantity a multiple of 125 in 125..1250; the stored date reads back to the chosen date; the other fields are copied |
| PurchaseForm.Submit | src/components/FormularioCompra.tsx:83-105 | only a record passing the whole schema is stored under `purchaseData`, followed by navigation to `/pagar`; no other key changes |
| PurchaseForm.StoredTotalIsQuantityTimesPrice | src/components/FormularioCompra.tsx:90 | a submitted record's total is 125 times a quantity in 1..10 |
| PurchaseDetails.ObtenerPrecio | src/components/DetallesCompra.tsx:20-26 | the price is 0, 100 or 180; 100 exactly for `5K`, 180 exactly for `10K` |
| PurchaseDetails.LineSumByCode | src/components/DetallesCompra.tsx:35-48 | the line prices add up to 100 per `5K` participant plus 180 per `10K` participant; every other code adds nothing |
| PurchaseDetails.SummaryMatchesLinesIff | src/components/DetallesCompra.tsx:48-77 | the printed total equals the sum of the printed line prices if and only if the given total is 100 per `5K` participant plus 180 per `10K` participant |
| PurchaseDetails.FormCodesLinesMissTotal | src/components/DetallesCompra.tsx:48-77 | participants with the purchase form's codes `5k`/`10k` would get 0 on every line and a line sum of 0, which matches the printed total only when that total is 0 |
| PurchaseDetails.Summary | src/components/DetallesCompra.tsx:64-80 | subtotal and total both equal the given total, and the service fee is 0 |
| PurchaseDetails.SummaryIgnoresParticipants | src/components/DetallesCompra.tsx:69-77 | the totals never depend on the participants |
| Confirmation.MountPending | src/components/ConfirmacionPago.tsx:26-48 | redirects to `/compra` without `datosCompra` or `zigiPaymentUrl`, or when either stored purchase or a present response fails to parse; when loaded, the view holds the parsed purchase, the link, and a parsed response exactly when one is stored |
| Confirmation.PendingLoadsWhenComplete | src/components/ConfirmacionPago.tsx:33-39 | the page loads whenever both required keys are present and parse and the response is absent, empty or parses |
| Confirmation.MountCompleted | src/components/ConfirmacionExitosa.tsx:27-43 | loads exactly when `datosCompra` holds a non-empty string that parses, otherwise goes to `/compra` |
| Confirmation.CompletedNeedsNoPaymentKeys | src/components/ConfirmacionExitosa.tsx:29-43 | whenever the pending page loads the completed page loads the same purchase, and the payment keys never affect it |
| Confirmation.Finalize | src/components/ConfirmacionPago.tsx:60-68 | removes exactly the three checkout keys, keeps every other key, and goes to `/`; the completed page's handler at ConfirmacionExitosa.tsx:45-52 is the same |
| Confirmation.FinalizeEndsCheckout | src/components/ConfirmacionExitosa.tsx:45-52 | after finishing, both confirmation pages redirect to `/compra` |
| Confirmation.ShownPrice | src/components/ConfirmacionPago.tsx:135 | 100 exactly for `5K`, 180 for every other code (ConfirmacionExitosa.tsx:119 is the same expression) |
| Confirmation.ShownPriceAgreesOnlyOnCatalogue | src/components/ConfirmacionExitosa.tsx:119 | the confirmation price equals the catalogue price if and only if the code is `5K` or `10K`; other codes show 180 there and 0 in the summary |
| EnvConfig.ApiBaseUrl | src/config/env.ts:4 | the environment value when set and non-empty, otherwise the fixed default host |
| EnvConfig.JoinUrl | src/config/env.ts:16-20 | the base without one trailing slash, then `/`, then the endpoint without one leading slash |
| EnvConfig.BuildApiUrl | src/config/env.ts:16-20 | with no slash at the seam the result is base, `/`, endpoint |
| EnvConfig.JoinIgnoresOneSlash | src/config/env.ts:17-18 | one slash at the end of the base or the front of the endpoint makes no difference |
| EnvConfig.JoinKeepsExtraSlashes | src/config/env.ts:17-18 | only one slash is removed per side: doubled slashes survive as a doubled slash |
| EnvConfig.JoinDeterminesEndpoint | src/config/env.ts:18-19 | two endpoints give the same address if and only if they agree after removing one leading slash |
| EnvConfig.DefaultAddress | src/config/env.ts:4 | with no environment value, addresses are the default host, `/`, endpoint |
| ApiService.BuildApiUrl | src/services/api.ts:55-59 | the service file's copy, read as a case split on the seam, gives the same address as the configuration helper for every base and endpoint |
| ApiService.TicketUrl | src/services/api.ts:64 | the ticket address is the base without trailing slash, `/api/v1/productcarrera/`, then the id |
| ApiService.RegisterPaymentUnderTicketPath | src/services/api.ts:64-91 | the payment endpoint's path is the ticket path followed by `register-payment` |
| ApiService.RegisterPaymentUrl | src/services/api.ts:91 | the payment address is the ticket address of the id `register-payment` |
| ApiService.TicketUrlInjective | src/services/api.ts:64 | different ids give different addresses; only the id `register-payment` collides with the payment endpoint |
| ApiService.EstadoTexto | src/services/api.ts:123-131 | 1 is `Activo`, 2 `Inactivo`, 3 `Vendido`, 4 `Pendiente de Pago`; the label is something other than `Desconocido` exactly for states 1..4 |
| ApiService.EstadoTextoInjective | src/services/api.ts:123-131 | the four known states have four different labels |
| ApiService.PlatformTexto | src/services/api.ts:134-140 | 1 is `Físico`, 2 `Digital`; the label is something other than `Desconocida` exactly for platforms 1 and 2 |
| ApiService.PlatformTextoInjective | src/services/api.ts:134-140 | the two known platforms have different labels |
| ApiService.EstadoClass | src/services/api.ts:143-158 | green exactly for `activo`, blue exactly for `vendido`, yellow exactly for `pendiente de pago`, compared in lower case; gray otherwise, including the empty label |
| ApiService.EstadoClassIgnoresCase | src/services/api.ts:146 | labels that agree up to ASCII case get the same colour |
| ApiService.EstadoClassOfUpper | src/services/api.ts:146 | an upper-cased label gets the label's colour |
| ApiService.LowerLabels | src/services/api.ts:123-146 | the four labels, lower-cased, are `activo`, `inactivo`, `vendido` and `pendiente de pago`, and the unknown label is `desconocido` |
| ApiService.EstadoClassOfTexto | src/services/api.ts:123-158 | the colour of state `n`'s label: green for 1, blue for 3, yellow for 4, gray for 2 and every unknown state |
| CheckoutFlow.SubmitThenPaymentMountRedirects | src/components/FormularioCompra.tsx:94-97 | from a store without `datosCompra`, a successful submission goes to `/pagar` and the payment page sends the visitor back to `/compra` |
| CheckoutFlow.SubmitLeavesPaymentMountAsIs | src/components/FormularioPago.tsx:59-73 | a submission never changes whether the payment page loads |
| CheckoutFlow.PaymentEndsEveryMount | src/components/FormularioPago.tsx:109-112 | after paying, the payment page and both confirmation pages redirect to `/compra` |
| JsText.FilterTwice | src/components/InformacionTarjeta.tsx:71 | filtering by a weaker test and then a stronger one equals filtering by the stronger one alone |
| JsText.DigitsIgnoreWhitespace | src/components/InformacionTarjeta.tsx:71 | removing whitespace before keeping the digits changes nothing |
| JsText.KeepDigits | src/components/InformacionTarjeta.tsx:78 | only digits are kept, never more than the input; a string of digits is kept whole, and a single character is kept exactly when it is a digit |
| JsText.KeepDigitsAppend | src/components/InformacionTarjeta.tsx:78 | the digits of a concatenation are the digits of the first part followed by those of the second, so every digit is kept in order |
| JsText.BlankIffAllWhitespace | src/components/FormularioPago.tsx:86 | a string trims to empty exactly when every character is whitespace |
| JsText.UpperAsciiProperties | src/components/InformacionTarjeta.tsx:141 | upper-casing leaves no lower-case letter, keeps other characters, is idempotent, and lower-casing undoes its effect |
| JsText.ParseInt | src/components/FormularioCompra.tsx:58 | NaN exactly when no digit follows the leading whitespace, the sign and a `0x` prefix; otherwise the magnitude is the value of the digits read (hexadecimal after `0x`), negative only after a `-` |
| JsText.ParseIntOfDecimalPrefix | src/components/FormularioCompra.tsx:58 | `parseInt` of a decimal rendering followed by a non-digit reads back the number |
| JsText.ParseIntWithoutDigits | src/components/FormularioCompra.tsx:58 | `parseInt` of text without digits is NaN |
| Calendar.WholeYears | src/components/FormularioCompra.tsx:51 | the age is the number of anniversaries reached: the age-th one is not after today and the next one is after today |
| Calendar.AgeAtLeast | src/components/FormularioCompra.tsx:51-52 | the age is at least `k` exactly when the `k`-th anniversary is not after today |
| Calendar.FormatDmy | src/components/FormularioCompra.tsx:89 | at least ten characters, `/` at positions 2 and 5, digits elsewhere |
| Calendar.DmyRoundTrip | src/components/FormularioCompra.tsx:89 | reading a rendered date back gives the date |
| Calendar.FormatDmyInjective | src/components/FormularioCompra.tsx:89 | different dates render differently |
| Numerals.FixedRoundTrip | src/components/FormularioCompra.tsx:89 | a zero-padded rendering of a number below `10^w` reads back to the number |

## Left out

- The fetch calls of `getTicketInfo` and `registerPayment`, and the server route that forwards
  the payment: network I/O; only the addresses they use are modelled.
- The two-second simulated payment delay, `alert`, the clipboard, `window.open` and QR code
  rendering: side effects with no logic; the state during and after the delay is modelled.
- The JSON grammar: `JSON.parse` and `JSON.stringify` are parameters. A purchase stored as any
  falsy JSON value (`null`, `false`, `0`, `""`) parses without error but leaves the pages in a
  not-found view; the model treats every successful parse as a loaded purchase.
- The date picker's value: an invalid date gives dayjs a NaN age, which the birth-date rule
  refuses; the model represents it, like an empty picker, as no date (`None`).
- The e-mail rule of the purchase schema: a library regular expression, modelled as the
  parameter `isEmail`.
- Locale date display (`es-GT`) on the confirmation pages: presentation only.
- CardEntry.CardNameInput: upper-cases ASCII letters only; JavaScript's `toUpperCase` also maps
  other letters (such as `ñ`) and can lengthen a string (`ß` becomes `SS`).
- ApiService.EstadoClass: lower-cases ASCII letters only. For this function the result is the
  same as with full Unicode lower-casing, since no other character lower-cases to a letter of
  the four state words.
- String lengths count characters, not UTF-16 code units; they differ only for characters
  outside the Basic Multilingual Plane.
- JsText.ParseInt: returns the exact integer; JavaScript's result is a double, which loses
  precision past 2^53 (far beyond the quantities checked here).
- Calendar.WholeYears: counts whole calendar years on dates; the time of day, time zones and
  daylight saving are not modelled, and years are non-negative.
- The `maxLength` limits of the card number (19) and expiry (5) inputs: browser input limits,
  not modelled as such; the formatters' own length bounds are proved instead.
- The submitting flag of the purchase form and its error path (`alert` on an exception): neither
  changes the store or the navigation.
- The card preview's colour and logo, and every purely presentational component (menus,
  banners, counters, sold-out and time-out pages, the payment-method selector, the personal-data
  panel beyond the four field names it passes, the QR modal).
- The `isDevelopment`, `isProduction`, `appName` and `appVersion` settings: constants that no
  modelled logic reads.
