/** The Bluecode adapter: QR-payment registration and transaction status,
    both behind the same two credential checks. */
module BluecodeService {
  import opened Common
  import opened Http
  import opened Errors

  const BaseUrlVar := "BLUECODE_API_BASE_URL"
  const DefaultBaseUrl := "https://merchant-api.acq.int.bluecode.ng"
  const AccessVar := "BLUECODE_MERCHANT_ACCESS"
  const SecretVar := "BLUECODE_MERCHANT_SECRET"

  datatype BluecodeRegisterRequest = BluecodeRegisterRequest(
    merchantTxId: string,
    branchExtId: string,
    scheme: string,
    requestedAmount: i64,
    currency: string,
    terminal: string,
    source: string,
    merchantCallbackUrl: string,
    returnUrlFailure: string,
    returnUrlSuccess: string,
    returnUrlCancel: string)

  datatype BluecodeRegisterResponse = BluecodeRegisterResponse(
    merchantTxId: string, checkinCode: string, state: string)

  /** The register envelope `{result, payment: {...}}`. */
  datatype BluecodeRegisterResponseWrapper = BluecodeRegisterResponseWrapper(
    result: string, payment: BluecodeRegisterResponse)

  datatype BluecodeStatusResponse = BluecodeStatusResponse(state: string, merchantTxId: string)

  datatype BluecodeStatusResponseWrapper = BluecodeStatusResponseWrapper(
    result: string, payment: BluecodeStatusResponse)

  /** The JSON body of a request. */
  datatype Body =
    | Register(request: BluecodeRegisterRequest)
    | Status(merchantTxId: string)

  /** One POST with basic authentication. */
  datatype Call = Call(url: string, username: string, password: string, body: Body)

  /** The vendor's reply to each request, and the JSON parser's verdicts. */
  datatype Upstream = Upstream(
    send: Call -> Reply,
    parseRegister: string -> Option<BluecodeRegisterResponseWrapper>,
    parseStatus: string -> Option<BluecodeStatusResponseWrapper>)

  /** One adapter call: the requests sent and the outcome. */
  datatype Exchange<T> = Exchange(sent: seq<Call>, result: Result<T, ApiError>)

  /** The API base, `BLUECODE_API_BASE_URL` or the integration default. */
  function BaseUrl(env: Env): (url: string)
  {
    EnvVar(env, BaseUrlVar).UnwrapOr(DefaultBaseUrl)
  }

  /** The access and secret values, the access checked first. */
  function Credentials(env: Env): (r: Result<(string, string), ApiError>)
    ensures AccessVar !in env ==> r == Err(EnvVarMissing("BLUECODE_MERCHANT_ACCESS"))
    ensures AccessVar in env && SecretVar !in env ==> r == Err(EnvVarMissing("BLUECODE_MERCHANT_SECRET"))
    ensures r.Ok? <==> AccessVar in env && SecretVar in env
    ensures r.Ok? ==> r.value == (env[AccessVar], env[SecretVar])
  {
    match EnvVar(env, AccessVar)
    case None => Err(EnvVarMissing(AccessVar))
    case Some(username) =>
      match EnvVar(env, SecretVar)
      case None => Err(EnvVarMissing(SecretVar))
      case Some(password) => Ok((username, password))
  }

  /** The register and status URLs are the base URL, defaulted when unset,
      followed by the endpoint path. */
  lemma EndpointUrls(env: Env)
    ensures BaseUrlVar !in env ==> BaseUrl(env) == "https://merchant-api.acq.int.bluecode.ng"
    ensures BaseUrlVar in env ==> BaseUrl(env) == env[BaseUrlVar]
    ensures RegisterUrl(env) == BaseUrl(env) + "/v4/register"
    ensures StatusUrl(env) == BaseUrl(env) + "/v4/status"
  {
  }

  function RegisterUrl(env: Env): string {
    BaseUrl(env) + "/v4/register"
  }

  function StatusUrl(env: Env): string {
    BaseUrl(env) + "/v4/status"
  }

  /** The register call's outcome from its reply: a transport failure is a
      request error; a non-2xx status is an internal server error whatever the
      body; a 2xx body that is not the envelope is an internal server error
      too; otherwise the inner payment object, with `result` discarded. */
  function RegisterOutcome(reply: Reply, parse: string -> Option<BluecodeRegisterResponseWrapper>)
    : (r: Result<BluecodeRegisterResponse, ApiError>)
    ensures reply.TransportFailure? ==> r == Err(RequestError(Transport(reply.detail)))
    ensures reply.Response? && !IsSuccess(reply.status) ==> r == Err(InternalServerError)
    ensures r.Ok? <==> reply.Response? && IsSuccess(reply.status) && parse(TextOrDefault(reply.body)).Some?
    ensures r.Ok? ==> r.value == parse(TextOrDefault(reply.body)).value.payment
    ensures r.Err? && reply.Response? ==> r == Err(InternalServerError)
  {
    match reply
    case TransportFailure(detail) => Err(RequestError(Transport(detail)))
    case Response(status, body) =>
      if IsSuccess(status) then
        match parse(TextOrDefault(body))
        case None => Err(InternalServerError)
        case Some(wrapper) => Ok(wrapper.payment)
      else Err(InternalServerError)
  }

  /** `initiate_qr_payment`: a missing credential fails before anything is
      sent; otherwise exactly one register request goes to the register URL
      carrying the caller's request unchanged, and its reply decides the outcome. */
  function InitiateQrPayment(req: BluecodeRegisterRequest, env: Env, up: Upstream)
    : (x: Exchange<BluecodeRegisterResponse>)
    ensures Credentials(env).Err? ==> x == Exchange([], Err(Credentials(env).error))
    ensures Credentials(env).Ok? ==>
      var call := Call(RegisterUrl(env), env[AccessVar], env[SecretVar], Register(req));
      x == Exchange([call], RegisterOutcome(up.send(call), up.parseRegister))
  {
    match Credentials(env)
    case Err(e) => Exchange([], Err(e))
    case Ok((username, password)) =>
      var call := Call(RegisterUrl(env), username, password, Register(req));
      Exchange([call], RegisterOutcome(up.send(call), up.parseRegister))
  }

  /** Nothing is sent without both credentials, and the missing one is named,
      the access value first. */
  lemma InitiateChecksConfigFirst(req: BluecodeRegisterRequest, env: Env, up: Upstream)
    ensures var x := InitiateQrPayment(req, env, up);
      && (x.sent == [] <==> AccessVar !in env || SecretVar !in env)
      && (AccessVar !in env ==> x.result == Err(EnvVarMissing("BLUECODE_MERCHANT_ACCESS")))
      && (AccessVar in env && SecretVar !in env ==>
            x.result == Err(EnvVarMissing("BLUECODE_MERCHANT_SECRET")))
      && (|x.sent| <= 1)
  {
  }

  /** The repository's example envelope yields its inner payment unchanged. */
  lemma RegisterExample(env: Env, req: BluecodeRegisterRequest, up: Upstream, body: string)
    requires AccessVar in env && SecretVar in env
    requires up.send(Call(RegisterUrl(env), env[AccessVar], env[SecretVar], Register(req)))
             == Response(200, Some(body))
    requires up.parseRegister(body) == Some(BluecodeRegisterResponseWrapper(
               "OK", BluecodeRegisterResponse("TXN-1", "C1", "PENDING")))
    ensures InitiateQrPayment(req, env, up).result
            == Ok(BluecodeRegisterResponse("TXN-1", "C1", "PENDING"))
  {
  }

  /** The status call's outcome from its reply. The status code is not
      consulted: any reply whose body reads and decodes as the status
      envelope is returned whole; a transport failure, an unreadable body or
      a body that does not decode is a request error. */
  function StatusOutcome(reply: Reply, parse: string -> Option<BluecodeStatusResponseWrapper>)
    : (r: Result<BluecodeStatusResponseWrapper, ApiError>)
    ensures r.Ok? <==> reply.Response? && reply.body.Some? && parse(reply.body.value).Some?
    ensures r.Ok? ==> r.value == parse(reply.body.value).value
    ensures r.Err? ==> r.error.RequestError?
    ensures reply.TransportFailure? ==> r == Err(RequestError(Transport(reply.detail)))
  {
    match reply
    case TransportFailure(detail) => Err(RequestError(Transport(detail)))
    case Response(_, None) => Err(RequestError(BodyUnreadable))
    case Response(_, Some(text)) =>
      match parse(text)
      case None => Err(RequestError(Undecodable))
      case Some(wrapper) => Ok(wrapper)
  }

  /** `requery_transaction`: the same credential checks, then exactly one
      request to the status URL carrying exactly the given transaction id. */
  function RequeryTransaction(merchantTxId: string, env: Env, up: Upstream)
    : (x: Exchange<BluecodeStatusResponseWrapper>)
    ensures Credentials(env).Err? ==> x == Exchange([], Err(Credentials(env).error))
    ensures Credentials(env).Ok? ==>
      var call := Call(StatusUrl(env), env[AccessVar], env[SecretVar], Status(merchantTxId));
      x == Exchange([call], StatusOutcome(up.send(call), up.parseStatus))
  {
    match Credentials(env)
    case Err(e) => Exchange([], Err(e))
    case Ok((username, password)) =>
      var call := Call(StatusUrl(env), username, password, Status(merchantTxId));
      Exchange([call], StatusOutcome(up.send(call), up.parseStatus))
  }
}
