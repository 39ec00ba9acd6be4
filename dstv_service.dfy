/** The DSTV (Multichoice) adapter: payment confirmation with its fallback
    requery, the requery's three-way status classification, the account
    lookup and its custom-field extraction, and the manual-retry handler. */
module DstvService {
  import opened Common
  import opened Text
  import opened Http
  import opened Errors

  // ---------------------------------------------------------------------------
  // Fixed vendor endpoints, credential and constants

  /** The user:password pair sent base64-encoded in every `Authorization: Basic` header. */
  const VendorCredential := "test:NeRWNtWQMS"
  const PaymentUrl := "https://mcapi-demo.herokuapp.com/vendor/singlepayment"
  const RequeryBaseUrl := "https://mcapi-demo.herokuapp.com/transactions/single/"
  const DefaultLookupUrl := "https://mcapi-demo.herokuapp.com/vendor/lookup"
  const LookupUrlVar := "DSTV_LOOKUP_URL"
  const FormContentType := "application/x-www-form-urlencoded"
  /** What every confirmation asks for, whatever amount the caller passes. */
  const ConfirmAmountInCents: u32 := 40000
  const BasketIdKey := "BasketId"
  const SurnameKey := "SURNAME"
  const CustomerNumberKey := "DSTV_CUSTOMER_NUMBER"

  // ---------------------------------------------------------------------------
  // Data model

  /** One `<Customfield Key=".." Value=".."/>` element. */
  datatype CustomField = CustomField(key: string, value: string)

  /** The confirmation document, `<PayUVasRequest Ver="1.0">..</PayUVasRequest>`. */
  datatype PayUVasRequest = PayUVasRequest(
    version: string,
    merchantId: string,
    merchantReference: string,
    transactionType: string,
    vasId: string,
    countryCode: string,
    amountInCents: u32,
    customerId: string,
    customFields: seq<CustomField>)

  /** The body of the inbound confirm-payment request. */
  datatype DstvConfirmPaymentRequest = DstvConfirmPaymentRequest(
    customerId: string, basketId: string, amount: u32, merchantReference: string)

  /** The confirmation POST: the document travels as the single form field
      `xml`, with basic authentication. */
  datatype ConfirmCall = ConfirmCall(
    url: string, contentType: string, credential: string, payload: PayUVasRequest)

  /** The requery GET, keyed by the merchant reference in its path. */
  datatype RequeryCall = RequeryCall(url: string, credential: string)

  /** The account-lookup document (a fixed template around the customer id). */
  datatype LookupEnvelope = LookupEnvelope(
    merchantId: string,
    merchantReference: string,
    transactionType: string,
    vasId: string,
    countryCode: string,
    customerId: string)

  /** The lookup POST: the envelope as the form field `xml`, with basic authentication. */
  datatype LookupCall = LookupCall(url: string, credential: string, envelope: LookupEnvelope)

  /** One element of the requery's JSON array. */
  datatype RequeryItem = RequeryItem(
    merchantreference: string, smartcard: string, status: i32, basketid: string)

  /** The lookup's XML answer; `CustomFields` may be absent. */
  datatype PayUVasResponse = PayUVasResponse(
    resultCode: string, resultMessage: string, customFields: Option<seq<CustomField>>)

  datatype DstvLookupRequest = DstvLookupRequest(customerId: string)

  datatype DstvLookupResponse = DstvLookupResponse(
    accountName: Option<string>,
    customerId: Option<string>,
    message: string,
    success: bool,
    customFields: Option<map<string, string>>)

  /** The failures of the confirm/requery flow, each with the message the source gives it. */
  datatype DstvError =
    | RequerySendFailed(detail: string)  // "Failed to send requery request"
    | RequeryBodyUnreadable              // the requery body could not be read
    | EmptyRequeryResponse               // "Empty requery response"
    | RequeryParseFailed                 // "Failed to parse requery JSON"
    | StillPending                       // "Transaction is still pending"
    | FailedStatus(status: i32)          // "Requery returned failed status: {status}"
    | EmptyRequeryArray                  // "Requery returned empty array"

  /** What the adapter cannot see into: the vendor's reply to each request,
      and the verdicts of the JSON and XML parsers on a body. */
  datatype Upstream = Upstream(
    confirm: ConfirmCall -> Reply,
    requery: RequeryCall -> Reply,
    lookup: LookupCall -> Reply,
    parseRequery: string -> Option<seq<RequeryItem>>,
    parseLookup: string -> Option<PayUVasResponse>)

  /** An outbound request of the confirmation flow. */
  datatype Call = PostConfirm(confirm: ConfirmCall) | GetRequery(requery: RequeryCall)

  /** One run of the confirmation flow: the requests sent, in order, and the outcome. */
  datatype ConfirmRun = ConfirmRun(sent: seq<Call>, result: Result<string, DstvError>)

  // ---------------------------------------------------------------------------
  // Payment confirmation

  /** The confirmation document for one payment: it asks for 40000 cents,
      carries exactly one custom field, `BasketId`, and copies the merchant
      reference and customer id unchanged. */
  function ConfirmPayload(
    merchantReference: string, customerId: string, basketId: string, amount: u32): (p: PayUVasRequest)
    ensures p.amountInCents == 40000
    ensures p.customFields == [CustomField("BasketId", basketId)]
    ensures p.merchantReference == merchantReference && p.customerId == customerId
    ensures p.transactionType == "SINGLE" && p.vasId == "MCA_ACCOUNT_SQ_NG" && p.countryCode == "NG"
  {
    PayUVasRequest(
      "1.0", "test", merchantReference, "SINGLE", "MCA_ACCOUNT_SQ_NG", "NG",
      ConfirmAmountInCents, customerId, [CustomField(BasketIdKey, basketId)])
  }

  /** The amount the caller passes never reaches the confirmation document. */
  lemma ConfirmPayloadIgnoresAmount(
    merchantReference: string, customerId: string, basketId: string, amount: u32, other: u32)
    ensures ConfirmPayload(merchantReference, customerId, basketId, amount)
         == ConfirmPayload(merchantReference, customerId, basketId, other)
  {
  }

  /** The confirmation is posted as a form to the single-payment endpoint,
      with the vendor credential, carrying the confirmation document. */
  function ConfirmCallFor(
    merchantReference: string, customerId: string, basketId: string, amount: u32): (c: ConfirmCall)
    ensures c.url == "https://mcapi-demo.herokuapp.com/vendor/singlepayment"
    ensures c.contentType == "application/x-www-form-urlencoded"
    ensures c.credential == "test:NeRWNtWQMS"
    ensures c.payload == ConfirmPayload(merchantReference, customerId, basketId, amount)
  {
    ConfirmCall(PaymentUrl, FormContentType, VendorCredential,
                ConfirmPayload(merchantReference, customerId, basketId, amount))
  }

  /** A confirmation reply the flow accepts as final: a 2xx status with a
      body that is not blank. */
  predicate ConfirmAccepted(reply: Reply) {
    reply.Response? && IsSuccess(reply.status) && !Blank(TextOrDefault(reply.body))
  }

  /** `confirm_dstv_payment`: send the confirmation once; an accepted reply is
      returned verbatim and nothing else is sent; any other outcome (transport
      failure, non-2xx status, blank or unreadable body) is followed by
      exactly one requery for the same merchant reference, whose outcome is
      the flow's outcome. */
  function ConfirmDstvPayment(
    merchantReference: string, customerId: string, basketId: string, amount: u32, up: Upstream)
    : (run: ConfirmRun)
    ensures var call := ConfirmCallFor(merchantReference, customerId, basketId, amount);
      var reply := up.confirm(call);
      && |run.sent| >= 1 && run.sent[0] == PostConfirm(call)
      && (ConfirmAccepted(reply) <==> run.sent == [PostConfirm(call)])
      && (ConfirmAccepted(reply) ==> reply.body.Some? && run.result == Ok(reply.body.value))
      && (!ConfirmAccepted(reply) ==>
            && run.sent == [PostConfirm(call), GetRequery(RequeryCallFor(merchantReference))]
            && run.result == RequeryDstvConfirmation(merchantReference, up))
  {
    var call := ConfirmCallFor(merchantReference, customerId, basketId, amount);
    var fallback := ConfirmRun([PostConfirm(call), GetRequery(RequeryCallFor(merchantReference))],
                               RequeryDstvConfirmation(merchantReference, up));
    match up.confirm(call)
    case Response(status, body) =>
      var text := TextOrDefault(body);
      if IsSuccess(status) && Trim(text) != [] then ConfirmRun([PostConfirm(call)], Ok(text))
      else fallback
    case TransportFailure(_) => fallback
  }

  /** A run whose result is a success either returned the accepted
      confirmation body or a successful requery's body; it is never an
      error turned into a success. */
  lemma ConfirmSuccessHasSource(
    merchantReference: string, customerId: string, basketId: string, amount: u32, up: Upstream)
    requires ConfirmDstvPayment(merchantReference, customerId, basketId, amount, up).result.Ok?
    ensures var run := ConfirmDstvPayment(merchantReference, customerId, basketId, amount, up);
      var confirmReply := up.confirm(ConfirmCallFor(merchantReference, customerId, basketId, amount));
      var requeryReply := up.requery(RequeryCallFor(merchantReference));
      || (confirmReply.Response? && confirmReply.body == Some(run.result.value))
      || (requeryReply.Response? && requeryReply.body == Some(run.result.value)
          && RequeryVerdict(requeryReply.body.value, up.parseRequery) == Ok(run.result.value))
  {
  }

  // ---------------------------------------------------------------------------
  // Requery

  function RequeryUrl(reference: string): string {
    RequeryBaseUrl + reference
  }

  function RequeryCallFor(reference: string): RequeryCall {
    RequeryCall(RequeryUrl(reference), VendorCredential)
  }

  /** Different merchant references give different requery request strings. */
  lemma RequeryKeyedByReference(a: string, b: string)
    ensures RequeryCallFor(a) == RequeryCallFor(b) <==> a == b
  {
    if RequeryCallFor(a) == RequeryCallFor(b) {
      assert a == RequeryUrl(a)[|RequeryBaseUrl|..];
      assert b == RequeryUrl(b)[|RequeryBaseUrl|..];
    }
  }

  /** The requery's decision on a parsed array: only the first element's
      status is consulted; 1 is success and yields the raw body, -1 is the
      pending error, any other value the failed-status error; an empty array
      is an error of its own. */
  function ClassifyRequery(body: string, items: seq<RequeryItem>): (r: Result<string, DstvError>)
    ensures r.Ok? <==> |items| > 0 && items[0].status == 1
    ensures r.Ok? ==> r.value == body
    ensures r == Err(StillPending) <==> |items| > 0 && items[0].status == -1
    ensures r == Err(EmptyRequeryArray) <==> items == []
    ensures |items| > 0 && items[0].status != 1 && items[0].status != -1 ==>
              r == Err(FailedStatus(items[0].status))
  {
    if |items| == 0 then Err(EmptyRequeryArray)
    else if items[0].status == 1 then Ok(body)
    else if items[0].status == -1 then Err(StillPending)
    else Err(FailedStatus(items[0].status))
  }

  /** Elements after the first never change the requery's verdict. */
  lemma FirstElementOnly(body: string, xs: seq<RequeryItem>, ys: seq<RequeryItem>)
    requires |xs| > 0 && |ys| > 0 && xs[0].status == ys[0].status
    ensures ClassifyRequery(body, xs) == ClassifyRequery(body, ys)
  {
  }

  /** The requery's decision on a body that was read: blank and unparseable
      bodies are errors, a parsed array is classified. */
  function RequeryVerdict(body: string, parse: string -> Option<seq<RequeryItem>>)
    : (r: Result<string, DstvError>)
    ensures Blank(body) ==> r == Err(EmptyRequeryResponse)
    ensures !Blank(body) && parse(body).None? ==> r == Err(RequeryParseFailed)
    ensures !Blank(body) && parse(body).Some? ==> r == ClassifyRequery(body, parse(body).value)
  {
    if Trim(body) == [] then Err(EmptyRequeryResponse)
    else match parse(body)
      case None => Err(RequeryParseFailed)
      case Some(items) => ClassifyRequery(body, items)
  }

  /** `requery_dstv_confirmation`: one GET keyed by the reference; the HTTP
      status is not consulted; a transport failure or an unreadable body is
      an error, and a body that was read is judged by `RequeryVerdict`. */
  function RequeryDstvConfirmation(reference: string, up: Upstream): (r: Result<string, DstvError>)
    ensures var reply := up.requery(RequeryCallFor(reference));
      && (reply.TransportFailure? ==> r == Err(RequerySendFailed(reply.detail)))
      && (reply.Response? && reply.body.None? ==> r == Err(RequeryBodyUnreadable))
      && (reply.Response? && reply.body.Some? ==> r == RequeryVerdict(reply.body.value, up.parseRequery))
  {
    match up.requery(RequeryCallFor(reference))
    case TransportFailure(detail) => Err(RequerySendFailed(detail))
    case Response(_, None) => Err(RequeryBodyUnreadable)
    case Response(_, Some(body)) => RequeryVerdict(body, up.parseRequery)
  }

  /** A successful requery always read a non-blank body that parsed to a
      non-empty array whose first element has status 1, and returns that body
      verbatim; a blank body, a parse failure or an empty array is never a
      success. */
  lemma RequeryOkIsParsedSuccess(reference: string, up: Upstream)
    ensures var r := RequeryDstvConfirmation(reference, up);
      var reply := up.requery(RequeryCallFor(reference));
      r.Ok? <==>
        && reply.Response? && reply.body.Some?
        && !Blank(reply.body.value)
        && up.parseRequery(reply.body.value).Some?
        && |up.parseRequery(reply.body.value).value| > 0
        && up.parseRequery(reply.body.value).value[0].status == 1
    ensures var r := RequeryDstvConfirmation(reference, up);
      var reply := up.requery(RequeryCallFor(reference));
      r.Ok? ==> (reply.Response? && reply.body == Some(r.value)
                 && RequeryVerdict(r.value, up.parseRequery) == r)
  {
  }

  // ---------------------------------------------------------------------------
  // Manual retry

  /** The JSON answer of the manual-retry handler; `rawXml` absent on failure. */
  datatype RetryResponse = RetryResponse(success: bool, message: string, rawXml: Option<string>)

  /** `retry_dstv_confirmation`: runs the confirmation flow on the request
      body and reports its outcome, the raw vendor text only on success. */
  function RetryDstvConfirmation(body: DstvConfirmPaymentRequest, up: Upstream): (resp: RetryResponse)
    ensures var r := ConfirmDstvPayment(
              body.merchantReference, body.customerId, body.basketId, body.amount, up).result;
      && (resp.success <==> r.Ok?)
      && (r.Ok? ==> resp == RetryResponse(true, "Manual confirmation sent.", Some(r.value)))
      && (r.Err? ==> resp == RetryResponse(false, "Manual retry failed.", None))
  {
    match ConfirmDstvPayment(body.merchantReference, body.customerId, body.basketId, body.amount, up).result
    case Ok(xml) => RetryResponse(true, "Manual confirmation sent.", Some(xml))
    case Err(_) => RetryResponse(false, "Manual retry failed.", None)
  }

  // ---------------------------------------------------------------------------
  // Account lookup

  function LookupEnvelopeFor(customerId: string): LookupEnvelope {
    LookupEnvelope("test", "ref-123", "ACCOUNT_LOOKUP", "MCA_ACCOUNT_SQ_NG", "NG", customerId)
  }

  /** The lookup POST goes to `DSTV_LOOKUP_URL` when it is set and to the
      demo endpoint otherwise, with the vendor credential, and carries the
      customer id unchanged in the fixed ACCOUNT_LOOKUP envelope. */
  function LookupCallFor(req: DstvLookupRequest, env: Env): (c: LookupCall)
    ensures LookupUrlVar in env ==> c.url == env[LookupUrlVar]
    ensures LookupUrlVar !in env ==> c.url == "https://mcapi-demo.herokuapp.com/vendor/lookup"
    ensures c.credential == "test:NeRWNtWQMS"
    ensures c.envelope.customerId == req.customerId
    ensures c.envelope.transactionType == "ACCOUNT_LOOKUP"
    ensures c.envelope.merchantReference == "ref-123" && c.envelope.merchantId == "test"
    ensures c.envelope.vasId == "MCA_ACCOUNT_SQ_NG" && c.envelope.countryCode == "NG"
  {
    LookupCall(EnvVar(env, LookupUrlVar).UnwrapOr(DefaultLookupUrl), VendorCredential,
               LookupEnvelopeFor(req.customerId))
  }

  /** The custom fields of a parsed answer; none when the element is absent. */
  function FieldsOf(parsed: PayUVasResponse): (fields: seq<CustomField>)
    ensures parsed.customFields.None? ==> fields == []
    ensures parsed.customFields.Some? ==> fields == parsed.customFields.value
  {
    parsed.customFields.UnwrapOr([])
  }

  /** The map built by inserting every field in order, so that a later
      duplicate key overwrites an earlier one. Its keys are exactly the
      fields' keys. */
  function FieldMap(fields: seq<CustomField>): (m: map<string, string>)
    ensures m.Keys == set i | 0 <= i < |fields| :: fields[i].key
  {
    if fields == [] then map[]
    else
      var init := fields[..|fields| - 1];
      var last := fields[|fields| - 1];
      assert forall i :: 0 <= i < |init| ==> init[i] == fields[i];
      FieldMap(init)[last.key := last.value]
  }

  /** The value of the last field with this key; `None` exactly when no
      field has the key. */
  function LastValue(fields: seq<CustomField>, key: string): (r: Option<string>)
    ensures r.None? <==> forall i :: 0 <= i < |fields| ==> fields[i].key != key
  {
    if fields == [] then None
    else if fields[|fields| - 1].key == key then Some(fields[|fields| - 1].value)
    else
      var init := fields[..|fields| - 1];
      assert forall i :: 0 <= i < |init| ==> init[i] == fields[i];
      LastValue(init, key)
  }

  /** The field at index `i` is the last with its key exactly when
      `LastValue` yields its value. */
  lemma {:induction false} LastValueIsLastOccurrence(fields: seq<CustomField>, key: string, i: nat)
    requires i < |fields| && fields[i].key == key
    requires forall j :: i < j < |fields| ==> fields[j].key != key
    ensures LastValue(fields, key) == Some(fields[i].value)
  {
    if i < |fields| - 1 {
      var init := fields[..|fields| - 1];
      LastValueIsLastOccurrence(init, key, i);
    }
  }

  /** A last value always comes from a field with that key after which the
      key does not occur again. */
  lemma {:induction false} LastValueOccurs(fields: seq<CustomField>, key: string)
    requires LastValue(fields, key).Some?
    ensures exists i :: 0 <= i < |fields| && fields[i].key == key
                        && fields[i].value == LastValue(fields, key).value
                        && forall j :: i < j < |fields| ==> fields[j].key != key
  {
    var n := |fields| - 1;
    if fields[n].key != key {
      var init := fields[..n];
      LastValueOccurs(init, key);
      var i :| 0 <= i < |init| && init[i].key == key && init[i].value == LastValue(init, key).value
               && forall j :: i < j < |init| ==> init[j].key != key;
      assert fields[i] == init[i];
      assert forall j :: i < j < n ==> fields[j] == init[j];
    }
  }

  /** Every key of the extracted map holds the value of the last field with that key. */
  lemma {:induction false} FieldMapLastWins(fields: seq<CustomField>, key: string)
    ensures key in FieldMap(fields) <==> LastValue(fields, key).Some?
    ensures key in FieldMap(fields) ==> FieldMap(fields)[key] == LastValue(fields, key).value
  {
    if fields != [] {
      FieldMapLastWins(fields[..|fields| - 1], key);
    }
  }

  /** The successful lookup answer for the extracted fields: success, the
      message "Success", the last SURNAME as account name, the last
      DSTV_CUSTOMER_NUMBER as customer id and the whole field map. */
  function SuccessfulLookup(fields: seq<CustomField>): (resp: DstvLookupResponse)
    ensures resp.success && resp.message == "Success"
    ensures resp.accountName == LastValue(fields, "SURNAME")
    ensures resp.customerId == LastValue(fields, "DSTV_CUSTOMER_NUMBER")
    ensures resp.customFields == Some(FieldMap(fields))
  {
    DstvLookupResponse(LastValue(fields, SurnameKey), LastValue(fields, CustomerNumberKey),
                       "Success", true, Some(FieldMap(fields)))
  }

  /** An answer with no `CustomFields` element gives the empty map and
      neither a name nor a customer number. */
  lemma NoCustomFields(parsed: PayUVasResponse)
    requires parsed.customFields.None?
    ensures var resp := SuccessfulLookup(FieldsOf(parsed));
      resp.customFields == Some(map[]) && resp.accountName.None? && resp.customerId.None?
  {
  }

  /** The answer in the repository's lookup test: SURNAME=AKINTAYO and
      DSTV_CUSTOMER_NUMBER=300115673. */
  lemma LookupExample()
    ensures var fields := [CustomField("SURNAME", "AKINTAYO"),
                           CustomField("DSTV_CUSTOMER_NUMBER", "300115673")];
      SuccessfulLookup(fields) ==
        DstvLookupResponse(Some("AKINTAYO"), Some("300115673"), "Success", true,
          Some(map["SURNAME" := "AKINTAYO", "DSTV_CUSTOMER_NUMBER" := "300115673"]))
  {
  }

  /** The extraction loop of `lookup_dstv_account`: insert each field into the
      map and remember the last SURNAME and DSTV_CUSTOMER_NUMBER values. */
  method ExtractCustomFields(fields: seq<CustomField>)
    returns (extracted: map<string, string>, accountName: Option<string>, customerId: Option<string>)
    ensures extracted == FieldMap(fields)
    ensures accountName == LastValue(fields, SurnameKey)
    ensures customerId == LastValue(fields, CustomerNumberKey)
  {
    accountName, customerId := None, None;
    extracted := map[];
    for i := 0 to |fields|
      invariant extracted == FieldMap(fields[..i])
      invariant accountName == LastValue(fields[..i], SurnameKey)
      invariant customerId == LastValue(fields[..i], CustomerNumberKey)
    {
      var field := fields[i];
      assert fields[..i + 1][..i] == fields[..i];
      extracted := extracted[field.key := field.value];
      if field.key == SurnameKey {
        accountName := Some(field.value);
      } else if field.key == CustomerNumberKey {
        customerId := Some(field.value);
      }
    }
    assert fields[..|fields|] == fields;
  }

  /** One lookup: the requests sent and the outcome. */
  datatype LookupExchange = LookupExchange(
    sent: seq<LookupCall>, result: Result<DstvLookupResponse, ApiError>)

  /** `lookup_dstv_account`: exactly one POST; a transport failure or an unreadable
      body is a request error; a blank or unparseable body is an internal
      server error; otherwise the custom fields are extracted into the
      success answer. The HTTP status is not consulted. */
  method LookupDstvAccount(req: DstvLookupRequest, env: Env, up: Upstream)
    returns (x: LookupExchange)
    ensures x.sent == [LookupCallFor(req, env)]
    ensures var reply := up.lookup(LookupCallFor(req, env));
      && (reply.TransportFailure? ==> x.result == Err(RequestError(Transport(reply.detail))))
      && (reply.Response? && reply.body.None? ==> x.result == Err(RequestError(BodyUnreadable)))
      && (reply.Response? && reply.body.Some? ==>
            var body := reply.body.value;
            && (Blank(body) || up.parseLookup(body).None? ==> x.result == Err(InternalServerError))
            && (!Blank(body) && up.parseLookup(body).Some? ==>
                  x.result == Ok(SuccessfulLookup(FieldsOf(up.parseLookup(body).value)))))
  {
    var call := LookupCallFor(req, env);
    match up.lookup(call) {
      case TransportFailure(detail) =>
        return LookupExchange([call], Err(RequestError(Transport(detail))));
      case Response(_, None) =>
        return LookupExchange([call], Err(RequestError(BodyUnreadable)));
      case Response(_, Some(body)) =>
        if Trim(body) == [] {
          return LookupExchange([call], Err(InternalServerError));
        }
        match up.parseLookup(body) {
          case None =>
            return LookupExchange([call], Err(InternalServerError));
          case Some(parsed) =>
            var extracted, accountName, customerId := ExtractCustomFields(FieldsOf(parsed));
            var answer := DstvLookupResponse(accountName, customerId, "Success", true, Some(extracted));
            return LookupExchange([call], Ok(answer));
        }
    }
  }

  /** Two lookups with the same input against an unchanged upstream give the
      same answer: the adapter keeps no state between calls. */
  method LookupIsRepeatable(req: DstvLookupRequest, env: Env, up: Upstream)
    returns (first: LookupExchange, second: LookupExchange)
    ensures first == second
  {
    first := LookupDstvAccount(req, env, up);
    second := LookupDstvAccount(req, env, up);
  }
}
