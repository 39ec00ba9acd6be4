/** The airtime adapter: configuration resolved in a fixed order before any
    request exists, then one POST with three headers. */
module AirtimeService {
  import opened Common
  import opened Http
  import opened Errors

  const BaseUrlVar := "AIRTIME_API_BASE_URL"
  const ApiKeyVar := "AIRTIME_API_KEY"
  const AccessIdVar := "ACCESS_ID"
  const PurchasePath := "/api/Airtime/PurchaseAirtimeWithPin"

  /** The purchase request, forwarded unchanged (its `amount` is not modelled). */
  datatype AirtimeRequestWithPin = AirtimeRequestWithPin(
    clientTransactionReference: string,
    accountNumber: string,
    cif: string,
    network: string,
    phoneNumber: string,
    pin: string,
    channelId: string,
    securityInfo: string,
    isForPoint: bool)

  datatype AirtimePurchaseResult = AirtimePurchaseResult(
    status: Option<string>,
    message: Option<string>,
    narration: Option<string>,
    transactionReference: Option<string>,
    platformTransactionReference: Option<string>,
    transactionStan: Option<string>,
    orinalTxnTransactionDate: Option<string>)

  datatype AirtimePurchaseResponse = AirtimePurchaseResponse(
    result: Option<AirtimePurchaseResult>,
    errorMessage: Option<string>,
    hasError: bool,
    timeGenerated: Option<string>)

  /** The three configuration values, all present. */
  datatype AirtimeConfig = AirtimeConfig(baseUrl: string, apiKey: string, accessId: string)

  /** One POST with its header map and JSON body. */
  datatype Call = Call(url: string, headers: map<string, string>, body: AirtimeRequestWithPin)

  /** The vendor's reply to each request, and the JSON parser's verdict. */
  datatype Upstream = Upstream(
    send: Call -> Reply,
    parse: string -> Option<AirtimePurchaseResponse>)

  /** One adapter call: the requests sent and the outcome. */
  datatype Exchange = Exchange(sent: seq<Call>, result: Result<AirtimePurchaseResponse, ApiError>)

  /** The configuration, checked in the order base URL, API key, access id;
      the error names the first one missing. */
  function ResolveConfig(env: Env): (r: Result<AirtimeConfig, ApiError>)
    ensures BaseUrlVar !in env ==> r == Err(EnvVarMissing("AIRTIME_API_BASE_URL"))
    ensures BaseUrlVar in env && ApiKeyVar !in env ==> r == Err(EnvVarMissing("AIRTIME_API_KEY"))
    ensures BaseUrlVar in env && ApiKeyVar in env && AccessIdVar !in env ==>
              r == Err(EnvVarMissing("ACCESS_ID"))
    ensures r.Ok? <==> BaseUrlVar in env && ApiKeyVar in env && AccessIdVar in env
    ensures r.Ok? ==> r.value == AirtimeConfig(env[BaseUrlVar], env[ApiKeyVar], env[AccessIdVar])
  {
    match EnvVar(env, BaseUrlVar)
    case None => Err(EnvVarMissing(BaseUrlVar))
    case Some(baseUrl) =>
      match EnvVar(env, ApiKeyVar)
      case None => Err(EnvVarMissing(ApiKeyVar))
      case Some(apiKey) =>
        match EnvVar(env, AccessIdVar)
        case None => Err(EnvVarMissing(AccessIdVar))
        case Some(accessId) => Ok(AirtimeConfig(baseUrl, apiKey, accessId))
  }

  /** The purchase endpoint under the configured base URL. */
  function PurchaseUrl(baseUrl: string): (url: string)
    ensures |url| == |baseUrl| + |PurchasePath|
    ensures url[..|baseUrl|] == baseUrl
    ensures url[|baseUrl|..] == "/api/Airtime/PurchaseAirtimeWithPin"
  {
    baseUrl + PurchasePath
  }

  /** The header map, filled by three inserts into an empty map: exactly
      Content-Type, the subscription key and the access id. */
  method BuildHeaders(apiKey: string, accessId: string) returns (headers: map<string, string>)
    ensures headers.Keys == {"Content-Type", "Ocp-Apim-Subscription-Key", "AccessId"}
    ensures |headers| == 3
    ensures headers["Content-Type"] == "application/json"
    ensures headers["Ocp-Apim-Subscription-Key"] == apiKey
    ensures headers["AccessId"] == accessId
  {
    headers := map[];
    headers := headers["Content-Type" := "application/json"];
    headers := headers["Ocp-Apim-Subscription-Key" := apiKey];
    headers := headers["AccessId" := accessId];
  }

  /** The purchase call's outcome from its reply. The status code is not
      consulted: a body that reads and decodes is the answer; a transport
      failure, an unreadable body or a body that does not decode is a
      request error. */
  function PurchaseOutcome(reply: Reply, parse: string -> Option<AirtimePurchaseResponse>)
    : (r: Result<AirtimePurchaseResponse, ApiError>)
    ensures r.Ok? <==> reply.Response? && reply.body.Some? && parse(reply.body.value).Some?
    ensures r.Ok? ==> r.value == parse(reply.body.value).value
    ensures r.Err? ==> r.error.RequestError?
    ensures reply.TransportFailure? ==> r == Err(RequestError(Transport(reply.detail)))
  {
    match reply
    case TransportFailure(detail) => Err(RequestError(Transport(detail)))
    case Response(_, None) => Err(RequestError(BodyUnreadable))
    case Response(_, Some(text)) =>
      match parse(text)
      case None => Err(RequestError(Undecodable))
      case Some(response) => Ok(response)
  }

  /** `purchase_airtime_with_pin`: a missing configuration value fails with
      its name and nothing is sent; otherwise exactly one request goes to the
      purchase URL with the three headers and the caller's request as body. */
  method PurchaseAirtimeWithPin(request: AirtimeRequestWithPin, env: Env, up: Upstream)
    returns (x: Exchange)
    ensures ResolveConfig(env).Err? ==> x == Exchange([], Err(ResolveConfig(env).error))
    ensures ResolveConfig(env).Ok? ==>
      && |x.sent| == 1
      && x.sent[0].url == env[BaseUrlVar] + "/api/Airtime/PurchaseAirtimeWithPin"
      && x.sent[0].headers == map["Content-Type" := "application/json",
                                  "Ocp-Apim-Subscription-Key" := env[ApiKeyVar],
                                  "AccessId" := env[AccessIdVar]]
      && x.sent[0].body == request
      && x.result == PurchaseOutcome(up.send(x.sent[0]), up.parse)
  {
    var config := ResolveConfig(env);
    if config.Err? {
      return Exchange([], Err(config.error));
    }
    var url := PurchaseUrl(config.value.baseUrl);
    var headers := BuildHeaders(config.value.apiKey, config.value.accessId);
    var call := Call(url, headers, request);
    x := Exchange([call], PurchaseOutcome(up.send(call), up.parse));
  }
}
