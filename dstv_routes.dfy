/** The `/dstv` route handlers: each runs one adapter and turns its result
    into a JSON answer, replacing every error with a fixed failure shape. */
module DstvRoutes {
  import opened Common
  import opened Errors
  import opened Http
  import opened Text
  import Dstv = DstvService
  import Bluecode = BluecodeService

  // ---------------------------------------------------------------------------
  // POST /dstv/confirm-payment

  datatype DstvConfirmPaymentResponse = DstvConfirmPaymentResponse(
    success: bool, rawXml: Option<string>, message: Option<string>)

  /** The answer for a confirmation outcome. */
  function ConfirmResponseFor(r: Result<string, Dstv.DstvError>): (resp: DstvConfirmPaymentResponse)
    ensures resp.success <==> r.Ok?
    ensures r.Ok? ==> resp == DstvConfirmPaymentResponse(
                               true, Some(r.value), Some("Payment confirmed successfully"))
    ensures r.Err? ==> resp == DstvConfirmPaymentResponse(
                                false, None, Some("DSTV payment confirmation failed"))
  {
    match r
    case Ok(xml) => DstvConfirmPaymentResponse(true, Some(xml), Some("Payment confirmed successfully"))
    case Err(_) => DstvConfirmPaymentResponse(false, None, Some("DSTV payment confirmation failed"))
  }

  /** `confirm_payment_handler`: the confirmation flow on the request body.
      When the vendor accepts the confirmation, the handler reports success
      and hands back the vendor's text verbatim; when it does not, the answer
      is exactly the requery's verdict on the same merchant reference. */
  function ConfirmPaymentHandler(body: Dstv.DstvConfirmPaymentRequest, up: Dstv.Upstream)
    : (resp: DstvConfirmPaymentResponse)
    ensures var reply := up.confirm(Dstv.ConfirmCallFor(
              body.merchantReference, body.customerId, body.basketId, body.amount));
      && (Dstv.ConfirmAccepted(reply) ==>
            resp.success && resp.rawXml == reply.body
            && resp.message == Some("Payment confirmed successfully"))
      && (!Dstv.ConfirmAccepted(reply) ==>
            resp == ConfirmResponseFor(Dstv.RequeryDstvConfirmation(body.merchantReference, up)))
  {
    ConfirmResponseFor(Dstv.ConfirmDstvPayment(
      body.merchantReference, body.customerId, body.basketId, body.amount, up).result)
  }

  // ---------------------------------------------------------------------------
  // POST /dstv/initiate-payment

  datatype PaymentInitRequest = PaymentInitRequest(amount: i64)

  /** The register request for an inbound payment; `token` is the freshly
      generated UUID in its textual form. The transaction id is "TXN-"
      followed by the token, the amount is the inbound amount, and each of
      the nine configurable fields is its variable's value when set and its
      default otherwise. */
  function RegisterRequestFor(payload: PaymentInitRequest, token: string, env: Env)
    : (req: Bluecode.BluecodeRegisterRequest)
    ensures req.merchantTxId == "TXN-" + token
    ensures req.requestedAmount == payload.amount
    ensures "BLUECODE_BRANCH_EXT_ID" in env ==> req.branchExtId == env["BLUECODE_BRANCH_EXT_ID"]
    ensures "BLUECODE_BRANCH_EXT_ID" !in env ==> req.branchExtId == ""
    ensures "BLUECODE_SCHEME" in env ==> req.scheme == env["BLUECODE_SCHEME"]
    ensures "BLUECODE_SCHEME" !in env ==> req.scheme == "blue_code"
    ensures "BLUECODE_CURRENCY" in env ==> req.currency == env["BLUECODE_CURRENCY"]
    ensures "BLUECODE_CURRENCY" !in env ==> req.currency == "NGN"
    ensures "BLUECODE_TERMINAL" in env ==> req.terminal == env["BLUECODE_TERMINAL"]
    ensures "BLUECODE_TERMINAL" !in env ==> req.terminal == "POS001"
    ensures "BLUECODE_SOURCE" in env ==> req.source == env["BLUECODE_SOURCE"]
    ensures "BLUECODE_SOURCE" !in env ==> req.source == "web"
    ensures "BLUECODE_CALLBACK_URL" in env ==> req.merchantCallbackUrl == env["BLUECODE_CALLBACK_URL"]
    ensures "BLUECODE_CALLBACK_URL" !in env ==> req.merchantCallbackUrl == ""
    ensures "BLUECODE_REDIRECT_URL" in env ==> req.returnUrlFailure == env["BLUECODE_REDIRECT_URL"]
    ensures "BLUECODE_REDIRECT_URL" !in env ==> req.returnUrlFailure == ""
    ensures "BLUECODE_SUCESS_URL" in env ==> req.returnUrlSuccess == env["BLUECODE_SUCESS_URL"]
    ensures "BLUECODE_SUCESS_URL" !in env ==> req.returnUrlSuccess == ""
    ensures "BLUECODE_CANCEL_URL" in env ==> req.returnUrlCancel == env["BLUECODE_CANCEL_URL"]
    ensures "BLUECODE_CANCEL_URL" !in env ==> req.returnUrlCancel == ""
  {
    Bluecode.BluecodeRegisterRequest(
      "TXN-" + token,
      EnvVar(env, "BLUECODE_BRANCH_EXT_ID").UnwrapOr(""),
      EnvVar(env, "BLUECODE_SCHEME").UnwrapOr("blue_code"),
      payload.amount,
      EnvVar(env, "BLUECODE_CURRENCY").UnwrapOr("NGN"),
      EnvVar(env, "BLUECODE_TERMINAL").UnwrapOr("POS001"),
      EnvVar(env, "BLUECODE_SOURCE").UnwrapOr("web"),
      EnvVar(env, "BLUECODE_CALLBACK_URL").UnwrapOr(""),
      EnvVar(env, "BLUECODE_REDIRECT_URL").UnwrapOr(""),
      EnvVar(env, "BLUECODE_SUCESS_URL").UnwrapOr(""),
      EnvVar(env, "BLUECODE_CANCEL_URL").UnwrapOr(""))
  }

  /** Different tokens give different transaction ids. */
  lemma RegisterTxIdsDistinct(payload: PaymentInitRequest, a: string, b: string, env: Env)
    requires a != b
    ensures RegisterRequestFor(payload, a, env).merchantTxId != RegisterRequestFor(payload, b, env).merchantTxId
  {
    assert ("TXN-" + a)[4..] == a;
    assert ("TXN-" + b)[4..] == b;
  }

  /** The fixed answer that replaces every register error. */
  const FailedRegistration := Bluecode.BluecodeRegisterResponse("", "", "FAILED")

  function InitiateResponseFor(r: Result<Bluecode.BluecodeRegisterResponse, ApiError>)
    : (resp: Bluecode.BluecodeRegisterResponse)
    ensures r.Ok? ==> resp == r.value
    ensures r.Err? ==> resp == Bluecode.BluecodeRegisterResponse("", "", "FAILED")
  {
    match r
    case Ok(response) => response
    case Err(_) => FailedRegistration
  }

  /** `initiate_payment`: registers the payment and passes the inner payment
      object through, or answers the fixed failure. Without both Bluecode
      credentials nothing is sent and the answer is the failure shape; with
      them, a 2xx envelope's inner payment is the answer and anything else is
      the failure shape. */
  function InitiatePayment(payload: PaymentInitRequest, token: string, env: Env, up: Bluecode.Upstream)
    : (resp: Bluecode.BluecodeRegisterResponse)
    ensures var req := RegisterRequestFor(payload, token, env);
      && (Bluecode.AccessVar !in env || Bluecode.SecretVar !in env ==>
            Bluecode.InitiateQrPayment(req, env, up).sent == [] && resp == FailedRegistration)
      && (Bluecode.AccessVar in env && Bluecode.SecretVar in env ==>
            var reply := up.send(Bluecode.Call(Bluecode.RegisterUrl(env),
                           env[Bluecode.AccessVar], env[Bluecode.SecretVar], Bluecode.Register(req)));
            var parsed := up.parseRegister(TextOrDefault(if reply.Response? then reply.body else None));
            resp == if reply.Response? && IsSuccess(reply.status) && parsed.Some?
                    then parsed.value.payment else FailedRegistration)
  {
    InitiateResponseFor(Bluecode.InitiateQrPayment(RegisterRequestFor(payload, token, env), env, up).result)
  }

  // ---------------------------------------------------------------------------
  // POST /dstv/lookup

  /** The fixed answer that replaces every lookup error. */
  const FailedLookup := Dstv.DstvLookupResponse(None, None, "Lookup failed", false, None)

  function LookupResponseFor(r: Result<Dstv.DstvLookupResponse, ApiError>): (resp: Dstv.DstvLookupResponse)
    ensures r.Ok? ==> resp == r.value
    ensures r.Err? ==> resp == Dstv.DstvLookupResponse(None, None, "Lookup failed", false, None)
  {
    match r
    case Ok(data) => data
    case Err(_) => FailedLookup
  }

  /** `lookup_handler`: the answer reports success exactly when the vendor
      sent a readable, non-blank body that parsed, and then it is the
      extracted answer; otherwise it is the fixed failure. */
  method LookupHandler(payload: Dstv.DstvLookupRequest, env: Env, up: Dstv.Upstream)
    returns (resp: Dstv.DstvLookupResponse)
    ensures var reply := up.lookup(Dstv.LookupCallFor(payload, env));
      var parsed := if reply.Response? && reply.body.Some? && !Blank(reply.body.value)
                    then up.parseLookup(reply.body.value) else None;
      && (resp.success <==> parsed.Some?)
      && (parsed.Some? ==> resp == Dstv.SuccessfulLookup(Dstv.FieldsOf(parsed.value)))
      && (parsed.None? ==> resp == Dstv.DstvLookupResponse(None, None, "Lookup failed", false, None))
  {
    var x := Dstv.LookupDstvAccount(payload, env, up);
    resp := LookupResponseFor(x.result);
  }

  // ---------------------------------------------------------------------------
  // GET /dstv/requery/{merchant_tx_id}

  /** The fixed answer that replaces every status error. */
  const FailedStatus := Bluecode.BluecodeStatusResponseWrapper(
    "ERROR", Bluecode.BluecodeStatusResponse("UNKNOWN", ""))

  function RequeryResponseFor(r: Result<Bluecode.BluecodeStatusResponseWrapper, ApiError>)
    : (resp: Bluecode.BluecodeStatusResponseWrapper)
    ensures r.Ok? ==> resp == r.value
    ensures r.Err? ==> resp == Bluecode.BluecodeStatusResponseWrapper(
                                 "ERROR", Bluecode.BluecodeStatusResponse("UNKNOWN", ""))
  {
    match r
    case Ok(response) => response
    case Err(_) => FailedStatus
  }

  /** `requery_handler`: the Bluecode status for the transaction id, or the
      fixed failure. The answer is the decoded vendor envelope whenever one
      was received and decoded, whatever the HTTP status; otherwise the
      failure. */
  function RequeryHandler(merchantTxId: string, env: Env, up: Bluecode.Upstream)
    : (resp: Bluecode.BluecodeStatusResponseWrapper)
    ensures Bluecode.AccessVar !in env || Bluecode.SecretVar !in env ==> resp == FailedStatus
    ensures Bluecode.AccessVar in env && Bluecode.SecretVar in env ==>
      var reply := up.send(Bluecode.Call(Bluecode.StatusUrl(env),
                     env[Bluecode.AccessVar], env[Bluecode.SecretVar], Bluecode.Status(merchantTxId)));
      resp == if reply.Response? && reply.body.Some? && up.parseStatus(reply.body.value).Some?
              then up.parseStatus(reply.body.value).value else FailedStatus
  {
    RequeryResponseFor(Bluecode.RequeryTransaction(merchantTxId, env, up).result)
  }
}
