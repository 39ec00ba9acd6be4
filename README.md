# Bill-payment adapters: a verified Dafny model

This project models the decision-making core of a payment-aggregation
backend written in Rust. The backend forwards bill payments to three
processors: airtime top-up, DSTV (Multichoice) lookup and payment
confirmation, and Bluecode QR payments. It then maps each processor's answer
onto one shared error taxonomy and a fixed set of JSON answers. The model
covers these parts:

- **DSTV confirmation with fallback requery** (`DstvService`). A
  confirmation POST is sent once. A 2xx reply whose body is not blank is
  returned verbatim. Every other outcome, including a transport failure,
  leads to exactly one requery GET keyed by the merchant reference. The
  requery classifies the first element of the returned JSON array: status
  1 is success, -1 is pending, anything else is a failure. A blank body, a
  parse failure and an empty array are errors of their own.
- **DSTV account lookup** (`DstvService`). A loop over the `CustomFields`
  list fills a key-to-value map, where later duplicates win. It also
  captures the last `SURNAME` and the last `DSTV_CUSTOMER_NUMBER`, and
  wraps them in the fixed success answer.
- **Bluecode register and status** (`BluecodeService`). Two credential
  checks run in a fixed order before anything is sent. The base URL has a
  default. The reply is then mapped onto `ApiError`.
- **Airtime purchase** (`AirtimeService`). Three configuration values are
  resolved in order before any request exists. The model also gives the
  purchase URL, the three-entry header map and the reply mapping.
- **The `/dstv` route handlers** (`DstvRoutes`). Each one maps an adapter
  result to a JSON answer and replaces every error with a fixed failure
  shape. This module also builds the Bluecode register request, with its
  environment defaults and the `TXN-` prefix.

Shared pieces:

- `Common`: Option, Result, `u32`/`i32`/`i64` and the environment as a
  partial map.
- `Text`: Rust's `trim` over exactly the Unicode White_Space set that
  `char::is_whitespace` uses. It is proved that the trimmed text is empty
  exactly when every character is white space.
- `Http`: one HTTP exchange, as a transport failure or a status and an
  optionally readable body.
- `Errors`: `ApiError`.

I/O becomes parameters. Each adapter gets an `Upstream` value. It holds the
vendor's reply to each request it could send, and the verdict of the
JSON/XML parser on each body. Each adapter returns the list of requests it
sent next to its outcome. That makes "nothing is sent before the
configuration checks" and "the requery runs exactly once" statements about
that list. Environment reads are a `map<string, string>`. The UUID used
for Bluecode transaction ids is a `token` parameter.

Some behaviours of the code are easy to miss. The model follows the code in
each:

- The Bluecode status call and the airtime purchase never look at the HTTP
  status. Any body that decodes is returned.
- In those two calls, and in the lookup's send and read, a failure surfaces
  as `RequestError`, because `reqwest::Error` converts into it. It is not a
  separate decode error.
- The DSTV requery does not look at the HTTP status either.
- The lookup answer carries `custom_fields`, as the service sets it, even
  though the record declared at src/models/dstv.rs:9-14 omits that field.

## Model

| member | source | states |
|---|---|---|
| `Text.Trim` | src/services/dstv.rs:184 | `trim()` is empty exactly when the text is all white space; otherwise the result starts and ends with a non-white-space character; it is always a slice of the text with only white space cut before and after it |
| `DstvService.ConfirmPayload` | src/services/dstv.rs:45-60 | the confirmation document asks for 40000 cents, has exactly one custom field `BasketId = basket_id`, is a SINGLE `MCA_ACCOUNT_SQ_NG` transaction for NG, and copies merchant reference and customer id unchanged |
| `DstvService.ConfirmPayloadIgnoresAmount` | src/services/dstv.rs:43-52 | the amount the caller passes does not affect the confirmation document |
| `DstvService.ConfirmCallFor` | src/services/dstv.rs:69-83 | the confirmation is posted as a form to the single-payment endpoint with the vendor credential, carrying the confirmation document |
| `DstvService.ConfirmDstvPayment` | src/services/dstv.rs:85-110 | the confirmation is sent first; a 2xx reply with a non-blank body is returned verbatim and nothing else is sent; otherwise exactly one requery for the same merchant reference follows and its outcome is the result |
| `DstvService.ConfirmSuccessHasSource` | src/services/dstv.rs:93-94 | a successful confirmation result is either the vendor's confirmation body or the body of a requery whose verdict was success |
| `DstvService.RequeryKeyedByReference` | src/services/dstv.rs:163-166 | requery requests for two merchant references are equal exactly when the references are equal |
| `DstvService.ClassifyRequery` | src/services/dstv.rs:192-209 | only the first element is consulted: status 1 gives the raw body, -1 the pending error, any other value the failed-status error carrying that status; an empty array is its own error |
| `DstvService.FirstElementOnly` | src/services/dstv.rs:192 | two arrays whose first elements share a status get the same verdict |
| `DstvService.RequeryVerdict` | src/services/dstv.rs:184-190 | a blank body is the empty-response error and an unparseable one the parse error, never a success; a parsed array is classified |
| `DstvService.RequeryDstvConfirmation` | src/services/dstv.rs:161-210 | a send failure or an unreadable body is an error; the HTTP status is not consulted; a body that was read is judged by its verdict |
| `DstvService.RequeryOkIsParsedSuccess` | src/services/dstv.rs:184-209 | the requery succeeds exactly when a readable, non-blank body parsed to a non-empty array whose first status is 1, and then it returns that body verbatim |
| `DstvService.RetryDstvConfirmation` | src/services/dstv.rs:117-151 | the manual retry reports success exactly when the confirmation flow succeeds, with message "Manual confirmation sent." and the raw text; otherwise "Manual retry failed." and no text |
| `DstvService.LookupCallFor` | src/services/dstv.rs:214-241 | the lookup goes to `DSTV_LOOKUP_URL` when set, else to the demo lookup endpoint, with the vendor credential, and carries the customer id unchanged in the fixed ACCOUNT_LOOKUP envelope (`test`, `ref-123`, `MCA_ACCOUNT_SQ_NG`, `NG`) |
| `DstvService.FieldsOf` | src/services/dstv.rs:285 | an answer without a `CustomFields` element contributes no fields |
| `DstvService.FieldMap` | src/services/dstv.rs:283-287 | the extracted map's keys are exactly the keys of the custom fields |
| `DstvService.FieldMapLastWins` | src/services/dstv.rs:286-287 | each key of the map holds the value of the last field with that key, and a key is present exactly when some field has it |
| `DstvService.LastValue` | src/services/dstv.rs:281-293 | the captured value for a key is `None` exactly when no field has that key |
| `DstvService.LastValueIsLastOccurrence` | src/services/dstv.rs:286-293 | the value of the last field with a key is the captured value, so a later duplicate overwrites an earlier one |
| `DstvService.LastValueOccurs` | src/services/dstv.rs:286-293 | a captured value always comes from a field with that key after which the key does not recur |
| `DstvService.SuccessfulLookup` | src/services/dstv.rs:298-304 | a successful lookup has success true, message "Success", the last SURNAME as account name, the last DSTV_CUSTOMER_NUMBER as customer id, and the map of all custom fields |
| `DstvService.NoCustomFields` | src/services/dstv.rs:285-304 | with no custom fields the map is empty and both captured values are `None` |
| `DstvService.LookupExample` | tests/dstv_lookup_test.rs:12-58 | SURNAME=AKINTAYO and DSTV_CUSTOMER_NUMBER=300115673 give exactly those values, success true and message "Success" |
| `DstvService.ExtractCustomFields` | src/services/dstv.rs:281-295 | the loop yields the map of all fields with later duplicates winning, the last SURNAME as account name and the last DSTV_CUSTOMER_NUMBER as customer id |
| `DstvService.LookupDstvAccount` | src/services/dstv.rs:212-305 | exactly one lookup request is sent; a send or read failure is a request error; a blank or unparseable body is an internal server error; otherwise the result is the success answer built from the extracted fields |
| `DstvService.LookupIsRepeatable` | src/services/dstv.rs:212-305 | two lookups with the same input against the same upstream give the same answer |
| `BluecodeService.Credentials` | src/services/bluecode.rs:16-19 | a missing access value is reported first, then a missing secret; with both present they are returned as given |
| `BluecodeService.EndpointUrls` | src/services/bluecode.rs:11-14 | the base URL defaults to the integration host when unset; the register and status URLs are the base followed by `/v4/register` and `/v4/status` |
| `BluecodeService.RegisterOutcome` | src/services/bluecode.rs:33-53 | a transport failure is a request error; a non-2xx status is an internal server error whatever the body, and so is a 2xx body that does not parse; otherwise the inner payment object is returned and the envelope's `result` is dropped |
| `BluecodeService.InitiateQrPayment` | src/services/bluecode.rs:7-54 | a credential error is returned before anything is sent; otherwise exactly one register request goes to the register URL carrying the caller's request, and its reply decides the result |
| `BluecodeService.InitiateChecksConfigFirst` | src/services/bluecode.rs:16-31 | nothing is sent exactly when a credential is missing; the missing one is named, the access value first; at most one request is sent |
| `BluecodeService.RegisterExample` | src/services/bluecode.rs:40-44 | the envelope `{result: OK, payment: {TXN-1, C1, PENDING}}` yields its inner payment unchanged |
| `BluecodeService.StatusOutcome` | src/services/bluecode.rs:71-80 | any reply whose body reads and decodes is returned whole, whatever its status; every failure is a request error |
| `BluecodeService.RequeryTransaction` | src/services/bluecode.rs:57-80 | the same credential checks precede exactly one request to the status URL carrying exactly the given transaction id |
| `AirtimeService.ResolveConfig` | src/services/airtime.rs:10-17 | configuration is checked in the order base URL, API key, access id, and the error names the first missing one |
| `AirtimeService.PurchaseUrl` | src/services/airtime.rs:20 | the request URL is the base URL followed by `/api/Airtime/PurchaseAirtimeWithPin` |
| `AirtimeService.BuildHeaders` | src/services/airtime.rs:22-25 | the header map has exactly three entries: `Content-Type = application/json`, `Ocp-Apim-Subscription-Key = api_key`, `AccessId = access_id` |
| `AirtimeService.PurchaseOutcome` | src/services/airtime.rs:29-38 | any reply whose body reads and decodes is the answer, whatever its status; every failure is a request error |
| `AirtimeService.PurchaseAirtimeWithPin` | src/services/airtime.rs:6-39 | a configuration error is returned and nothing is sent; otherwise exactly one request goes to the purchase URL with the three headers and the caller's request unchanged |
| `DstvRoutes.ConfirmResponseFor` | src/routes/dstv.rs:47-63 | `Ok(x)` gives success true with `raw_xml = x` and "Payment confirmed successfully"; any error gives success false, no text and "DSTV payment confirmation failed" |
| `DstvRoutes.ConfirmPaymentHandler` | src/routes/dstv.rs:33-66 | an accepted confirmation makes the handler report success with the vendor text and "Payment confirmed successfully"; otherwise the answer is the one for the requery's verdict on the same reference |
| `DstvRoutes.RegisterRequestFor` | src/routes/dstv.rs:69-83 | `merchant_tx_id = "TXN-" + token`, `requested_amount = amount`; each of the nine configurable fields is its variable's value when set, and otherwise its default: `""` for the branch id and the four URLs, `blue_code`, `NGN`, `POS001`, `web` |
| `DstvRoutes.RegisterTxIdsDistinct` | src/routes/dstv.rs:69 | distinct tokens give distinct transaction ids |
| `DstvRoutes.InitiateResponseFor` | src/routes/dstv.rs:85-92 | a successful registration passes through unchanged; any error becomes `{"", "", "FAILED"}` |
| `DstvRoutes.InitiatePayment` | src/routes/dstv.rs:68-93 | without both credentials nothing is sent and the answer is the failure shape; with them, a 2xx envelope's inner payment is the answer and anything else is the failure shape |
| `DstvRoutes.LookupResponseFor` | src/routes/dstv.rs:97-106 | a lookup error becomes `{None, None, "Lookup failed", false, None}`; a success passes through |
| `DstvRoutes.LookupHandler` | src/routes/dstv.rs:96-108 | the answer reports success exactly when a readable, non-blank body parsed, and is then the extracted answer; otherwise it is the failure shape |
| `DstvRoutes.RequeryResponseFor` | src/routes/dstv.rs:113-122 | a status error becomes `{result: "ERROR", payment: {state: "UNKNOWN", merchant_tx_id: ""}}`; a success passes through |
| `DstvRoutes.RequeryHandler` | src/routes/dstv.rs:110-124 | the answer is the decoded vendor envelope whenever one was read and decoded, whatever the HTTP status; otherwise the failure shape |

## Left out

- Sending and receiving over HTTP. The vendor's replies are inputs.
- Basic-auth base64 encoding. The model keeps the user:password pair that is encoded.
- XML and JSON parsing and serialisation. Parser verdicts are `Option` inputs and request documents are records.
- The XML declaration prefix of the confirmation document is not modelled.
- `ConfirmDstvPayment`: a failure to serialise the confirmation document (src/services/dstv.rs:64) is not modelled, because serialising a record of strings does not fail.
- `pay_dstv_bill` (src/services/dstv.rs:315-356), including its debug file write. It is not part of this model.
- All `tracing` and `println!` logging.
- The UUID generator. The token is a parameter.
- `std::env::var`'s error for values that are not valid Unicode. A variable is set or not.
- The airtime request's `amount` (an `f64`). The request otherwise travels unchanged.
- `AirtimePurchaseResponse.errorMessages`, whose type is not shown in the source.
- `AirtimeService.BuildHeaders`: header names keep their spelling. `HeaderMap` compares them case-insensitively.
- `AirtimeService.BuildHeaders`: the `parse().unwrap()` panics on header values with invalid characters are not modelled.
- `ApiError::from_http_error`, `HttpError` and `ParseError` are declared but no modelled operation produces them.
- The transaction ledger, server and CORS setup, billers and payments fetchers, the callback acknowledgement handler and the airtime route. They are outside this core.
- URL parsing by `reqwest`: the requery URL is the base followed by the merchant reference as given, without normalisation or percent-encoding.
- Concurrency. Every adapter call is an independent, sequential computation here.
