/** The request layer: URL and header construction for billing requests, the
    response check, and the two billing endpoints (src/index.js:1-40). The
    transport (`fetchImpl`) is a parameter: whatever it answers for the
    request it is handed is what the layer sees. */
module BillingClient {
  import opened Wrappers
  import Json

  type Headers = map<string, string>

  /** A thrown `Error`, identified by its message. */
  datatype Error = Error(message: string)

  const BaseUrlRequired: string := "apiBaseUrl is required."
  const RequestFailedMessage: string := "Billing request failed."

  const ContentType: string := "Content-Type"
  const Authorization: string := "Authorization"
  const JsonMediaType: string := "application/json"
  const BearerPrefix: string := "Bearer "

  const StatusPath: string := "/system/billing"
  const CancelPath: string := "/system/billing/cancel"

  /** JavaScript truthiness of an optional string: absent and "" are falsy. */
  predicate Present(s: Option<string>)
  {
    s.Some? && s.value != ""
  }

  predicate EndsWithSlash(s: string)
  {
    |s| > 0 && s[|s| - 1] == '/'
  }

  predicate StartsWithSlash(s: string)
  {
    |s| > 0 && s[0] == '/'
  }

  /** The base URL with one trailing slash removed, if it has one. */
  function NormalizeBase(base: string): (nb: string)
    ensures EndsWithSlash(base) ==> nb + "/" == base
    ensures !EndsWithSlash(base) ==> nb == base
  {
    if EndsWithSlash(base) then base[..|base| - 1] else base
  }

  /** The path with a slash put in front of it unless it already starts with one. */
  function NormalizePath(path: string): (np: string)
    ensures StartsWithSlash(np)
    ensures StartsWithSlash(path) ==> np == path
    ensures !StartsWithSlash(path) ==> np == "/" + path
  {
    if StartsWithSlash(path) then path else "/" + path
  }

  /** The path without its first character if that is a slash. */
  function DropLeadingSlash(path: string): (rest: string)
    ensures StartsWithSlash(path) ==> path == "/" + rest
    ensures !StartsWithSlash(path) ==> rest == path
  {
    if StartsWithSlash(path) then
      assert path == [path[0]] + path[1..];
      path[1..]
    else path
  }

  /** `buildUrl`: a missing or empty base URL is an error; otherwise the URL
      is the base without its trailing slash, exactly one joining slash, and
      the path without its leading slash. */
  function BuildUrl(baseUrl: Option<string>, path: string): (r: Result<string, Error>)
    ensures r.Failure? <==> !Present(baseUrl)
    ensures r.Failure? ==> r.error == Error(BaseUrlRequired)
    ensures r.Success? ==> r.value == NormalizeBase(baseUrl.value) + "/" + DropLeadingSlash(path)
  {
    if !Present(baseUrl) then Failure(Error(BaseUrlRequired))
    else
      Success(NormalizeBase(baseUrl.value) + NormalizePath(path))
  }

  /** Only one trailing slash of the base is removed and only one leading
      slash of the path is kept: everything before and after the joining
      slash comes back unchanged. */
  lemma BuildUrlSplits(baseUrl: Option<string>, path: string)
    requires Present(baseUrl)
    ensures var url := BuildUrl(baseUrl, path).value;
            var n := |NormalizeBase(baseUrl.value)|;
            && n < |url|
            && url[..n] == NormalizeBase(baseUrl.value)
            && url[n] == '/'
            && url[n + 1..] == DropLeadingSlash(path)
            && (StartsWithSlash(path) ==> url[n..] == path)
  {
  }

  predicate EndsWithDoubleSlash(s: string)
  {
    |s| >= 2 && s[|s| - 2] == '/' && s[|s| - 1] == '/'
  }

  predicate StartsWithDoubleSlash(s: string)
  {
    |s| >= 2 && s[0] == '/' && s[1] == '/'
  }

  /** When the base does not end in two slashes and the path does not start
      with two, the joined URL holds no double slash at the join. */
  lemma BuildUrlSingleSlashAtJoin(baseUrl: Option<string>, path: string)
    requires Present(baseUrl)
    requires !EndsWithDoubleSlash(baseUrl.value)
    requires !StartsWithDoubleSlash(path)
    ensures var url := BuildUrl(baseUrl, path).value;
            var n := |NormalizeBase(baseUrl.value)|;
            && url[n] == '/'
            && (n > 0 ==> url[n - 1] != '/')
            && (n + 1 < |url| ==> url[n + 1] != '/')
  {
  }

  /** The documented example: no double slash between the base and the status path. */
  lemma BuildUrlExample()
    ensures BuildUrl(Some("https://api.example.com/"), "/system/billing")
         == Success("https://api.example.com/system/billing")
  {
    var base := "https://api.example.com/";
    assert EndsWithSlash(base);
    assert NormalizeBase(base) == "https://api.example.com";
    assert StartsWithSlash("/system/billing");
    assert "https://api.example.com" + "/system/billing" == "https://api.example.com/system/billing";
  }

  /** `buildHeaders`: JSON content type always; a bearer token only when the
      token accessor yields a non-empty token. `token` is what `getAccessToken`
      returned (None when there is no accessor or it returned nothing). */
  function BuildHeaders(token: Option<string>): (h: Headers)
    ensures ContentType in h && h[ContentType] == JsonMediaType
    ensures Authorization in h <==> Present(token)
    ensures Authorization in h ==> h[Authorization] == BearerPrefix + token.value
    ensures h.Keys == {ContentType} + (if Present(token) then {Authorization} else {})
  {
    var headers := map[ContentType := JsonMediaType];
    if Present(token) then headers[Authorization := BearerPrefix + token.value] else headers
  }

  /** The header merge of `request`: the caller's headers (`options.headers ?? {}`)
      are spread over the defaults, so the caller wins on a shared key. */
  function MergeHeaders(defaults: Headers, overrides: Option<Headers>): (h: Headers)
    ensures overrides.None? ==> h == defaults
    ensures overrides.Some? ==> h.Keys == defaults.Keys + overrides.value.Keys
    ensures overrides.Some? ==> forall k :: k in overrides.value ==> h[k] == overrides.value[k]
    ensures forall k :: k in defaults && (overrides.None? || k !in overrides.value) ==> h[k] == defaults[k]
  {
    match overrides
    case None => defaults
    case Some(o) => defaults + o
  }

  /** The part of `options` the model keeps: the HTTP method (`verb`) and extra headers. */
  datatype RequestOptions = RequestOptions(verb: Option<string>, headers: Option<Headers>)

  const NoOptions: RequestOptions := RequestOptions(None, None)

  /** What is handed to the transport: the URL and the request init object.
      A verb of None leaves the transport's default (GET). */
  datatype HttpRequest = HttpRequest(url: string, verb: Option<string>, headers: Headers)

  /** A transport response: its `ok` flag and its already parsed JSON body. */
  datatype Response = Response(ok: bool, body: Json.Value)

  /** The transport: it either answers with a response or rejects. */
  type Transport = HttpRequest -> Result<Response, Error>

  /** The configuration of `createBillingClient`. */
  datatype ClientConfig = ClientConfig(apiBaseUrl: Option<string>)

  /** The request `request(path, options)` hands to the transport. */
  function PrepareRequest(config: ClientConfig, token: Option<string>, path: string, options: RequestOptions)
    : (r: Result<HttpRequest, Error>)
    ensures r.Failure? <==> !Present(config.apiBaseUrl)
    ensures r.Failure? ==> r.error == Error(BaseUrlRequired)
    ensures r.Success? ==> r.value.verb == options.verb
    ensures r.Success? ==> r.value.url == BuildUrl(config.apiBaseUrl, path).value
    ensures r.Success? ==> r.value.headers == MergeHeaders(BuildHeaders(token), options.headers)
  {
    match BuildUrl(config.apiBaseUrl, path)
    case Failure(e) => Failure(e)
    case Success(url) =>
      Success(HttpRequest(url, options.verb, MergeHeaders(BuildHeaders(token), options.headers)))
  }

  /** Final headers of a request: every header the caller passed keeps the
      caller's value; the JSON content type and the bearer token survive
      unless the caller passed that header itself. */
  lemma RequestHeaders(config: ClientConfig, token: Option<string>, path: string, options: RequestOptions)
    requires Present(config.apiBaseUrl)
    ensures var h := PrepareRequest(config, token, path, options).value.headers;
            && (options.headers.Some? ==> forall k :: k in options.headers.value ==> k in h && h[k] == options.headers.value[k])
            && (options.headers.None? || ContentType !in options.headers.value ==> h[ContentType] == JsonMediaType)
            && (Present(token) && (options.headers.None? || Authorization !in options.headers.value) ==>
                  h[Authorization] == BearerPrefix + token.value)
            && (!Present(token) && (options.headers.None? || Authorization !in options.headers.value) ==>
                  Authorization !in h)
  {
  }

  /** The ok-check of `request`: a response that is not ok is the generic
      request failure, whatever its body; an ok response yields its body. */
  function CheckResponse(response: Response): (r: Result<Json.Value, Error>)
    ensures r.Failure? <==> !response.ok
    ensures r.Failure? ==> r.error == Error(RequestFailedMessage)
    ensures r.Success? ==> r.value == response.body
  {
    if !response.ok then Failure(Error(RequestFailedMessage)) else Success(response.body)
  }

  /** `request(path, options)`: an error from URL construction or from the
      transport is propagated unchanged; otherwise the response is checked. */
  function Request(config: ClientConfig, token: Option<string>, path: string, options: RequestOptions,
                   transport: Transport): (r: Result<Json.Value, Error>)
    ensures !Present(config.apiBaseUrl) ==> r == Failure(Error(BaseUrlRequired))
    ensures Present(config.apiBaseUrl) ==>
      var sent := transport(PrepareRequest(config, token, path, options).value);
      && (sent.Failure? ==> r == Failure(sent.error))
      && (sent.Success? && !sent.value.ok ==> r == Failure(Error(RequestFailedMessage)))
      && (sent.Success? && sent.value.ok ==> r == Success(sent.value.body))
  {
    match PrepareRequest(config, token, path, options)
    case Failure(e) => Failure(e)
    case Success(req) =>
      match transport(req)
      case Failure(e) => Failure(e)
      case Success(response) => CheckResponse(response)
  }

  /** `getBillingStatus`: GET of the status path, with no explicit method. */
  function GetBillingStatus(config: ClientConfig, token: Option<string>, transport: Transport)
    : (r: Result<Json.Value, Error>)
    ensures !Present(config.apiBaseUrl) ==> r == Failure(Error(BaseUrlRequired))
    ensures Present(config.apiBaseUrl) ==>
      var sent := transport(HttpRequest(NormalizeBase(config.apiBaseUrl.value) + StatusPath, None, BuildHeaders(token)));
      && (sent.Failure? ==> r == Failure(sent.error))
      && (sent.Success? ==> r == CheckResponse(sent.value))
  {
    if Present(config.apiBaseUrl) then
      EndpointRequests(config, token);
      Request(config, token, StatusPath, NoOptions, transport)
    else
      Request(config, token, StatusPath, NoOptions, transport)
  }

  /** `cancelSubscription`: POST to the cancel path. */
  function CancelSubscription(config: ClientConfig, token: Option<string>, transport: Transport)
    : (r: Result<Json.Value, Error>)
    ensures !Present(config.apiBaseUrl) ==> r == Failure(Error(BaseUrlRequired))
    ensures Present(config.apiBaseUrl) ==>
      var sent := transport(HttpRequest(NormalizeBase(config.apiBaseUrl.value) + CancelPath, Some("POST"), BuildHeaders(token)));
      && (sent.Failure? ==> r == Failure(sent.error))
      && (sent.Success? ==> r == CheckResponse(sent.value))
  {
    if Present(config.apiBaseUrl) then
      EndpointRequests(config, token);
      Request(config, token, CancelPath, RequestOptions(Some("POST"), None), transport)
    else
      Request(config, token, CancelPath, RequestOptions(Some("POST"), None), transport)
  }

  /** What the two endpoints send: the status request carries no method and
      the cancel request is a POST; both carry exactly the default headers
      and go to the base URL (without its trailing slash) plus their path. */
  lemma EndpointRequests(config: ClientConfig, token: Option<string>)
    requires Present(config.apiBaseUrl)
    ensures var status := PrepareRequest(config, token, StatusPath, NoOptions).value;
            && status.url == NormalizeBase(config.apiBaseUrl.value) + StatusPath
            && status.verb == None
            && status.headers == BuildHeaders(token)
    ensures var cancel := PrepareRequest(config, token, CancelPath, RequestOptions(Some("POST"), None)).value;
            && cancel.url == NormalizeBase(config.apiBaseUrl.value) + CancelPath
            && cancel.verb == Some("POST")
            && cancel.headers == BuildHeaders(token)
  {
  }

  /** Both endpoints hand the transport's answer back through the ok-check. */
  lemma EndpointOutcomes(config: ClientConfig, token: Option<string>, transport: Transport)
    requires Present(config.apiBaseUrl)
    ensures var sent := transport(PrepareRequest(config, token, StatusPath, NoOptions).value);
            sent.Success? ==> GetBillingStatus(config, token, transport) == CheckResponse(sent.value)
    ensures var sent := transport(PrepareRequest(config, token, CancelPath, RequestOptions(Some("POST"), None)).value);
            sent.Success? ==> CancelSubscription(config, token, transport) == CheckResponse(sent.value)
  {
  }
}
