/** The shared HTTP client's three interceptors, as decisions over request,
    response and error values: attach the bearer token, unwrap the backend's
    `{success, statusCode, message, data, timestamp}` envelope, and end the
    session on 401/403. Sending requests is not modelled. */
module Api {
  import opened Wrappers
  import opened Js
  import opened Strings
  import opened Browser

  /** `process.env.NEXT_PUBLIC_API_URL || "http://10.168.81.25:3000"`. */
  const DefaultApiUrl: string := "http://10.168.81.25:3000"

  function ApiUrl(env: Option<string>): (r: string)
    ensures Truthy(env) ==> r == env.value
    ensures !Truthy(env) ==> r == DefaultApiUrl
  {
    if Truthy(env) then env.value else DefaultApiUrl
  }

  const AuthorizationHeader: string := "Authorization"
  const BearerPrefix: string := "Bearer "

  datatype RequestConfig = RequestConfig(url: string, headers: map<string, string>)

  /** The request interceptor, given the value of `getCookie("token")`: with a truthy `token` cookie the Authorization
      header becomes `Bearer <token>`; otherwise the config goes out unchanged. */
  function AttachToken(config: RequestConfig, token: Option<string>): (r: RequestConfig)
    ensures r.url == config.url
    ensures AuthorizationHeader in r.headers <==> Truthy(token) || AuthorizationHeader in config.headers
    ensures forall h :: h in config.headers && h != AuthorizationHeader ==> h in r.headers && r.headers[h] == config.headers[h]
    ensures forall h :: h in r.headers ==> h in config.headers || h == AuthorizationHeader
    ensures !Truthy(token) ==> r == config
  {
    if Truthy(token) then
      config.(headers := config.headers[AuthorizationHeader := BearerPrefix + token.value])
    else config
  }

  /** What a server reading the Authorization header recovers from it. */
  function BearerToken(header: string): Option<string> {
    if StartsWith(header, BearerPrefix) then Some(header[|BearerPrefix|..]) else None
  }

  /** The token the interceptor attaches is the token the server reads back. */
  lemma BearerRoundTrip(config: RequestConfig, token: Option<string>)
    requires Truthy(token)
    ensures AuthorizationHeader in AttachToken(config, token).headers
    ensures BearerToken(AttachToken(config, token).headers[AuthorizationHeader]) == token
  {
    var h := BearerPrefix + token.value;
    assert h[..|BearerPrefix|] == BearerPrefix;
    assert h[|BearerPrefix|..] == token.value;
  }

  /** A JSON value as a response body carries it. */
  datatype Json =
    | JNull
    | JBool(b: bool)
    | JNumber(n: int)
    | JString(s: string)
    | JArray(items: seq<Json>)
    | JObject(fields: map<string, Json>)

  /** JavaScript truthiness of a JSON value. */
  predicate JsonTruthy(j: Json)
    ensures !JsonTruthy(j) <==> j == JNull || j == JBool(false) || j == JNumber(0) || j == JString("")
  {
    match j
    case JNull => false
    case JBool(b) => b
    case JNumber(n) => n != 0
    case JString(s) => s != ""
    case _ => true
  }

  /** `j?.key`: None stands for `undefined`, which is also what a
      non-object gives. */
  function Member(j: Json, key: string): (r: Option<Json>)
    ensures !j.JObject? ==> r.None?
    ensures r.Some? ==> r.value in j.fields.Values
    ensures j.JObject? && key in j.fields ==> r == Some(j.fields[key])
  {
    if j.JObject? && key in j.fields then Some(j.fields[key]) else None
  }

  datatype Response = Response(status: int, data: Json)

  /** The response interceptor: `data` is replaced by `data.data` when `data` is
      truthy and `data.data` is not undefined (a null inner value is unwrapped
      too); otherwise the response passes through. */
  function UnwrapEnvelope(resp: Response): (r: Response)
    ensures r.status == resp.status
    ensures JsonTruthy(resp.data) && Member(resp.data, "data").Some? ==> r.data == resp.data.fields["data"]
    ensures !(JsonTruthy(resp.data) && Member(resp.data, "data").Some?) ==> r == resp
  {
    if JsonTruthy(resp.data) && Member(resp.data, "data").Some? then
      resp.(data := Member(resp.data, "data").value)
    else resp
  }

  /** The backend's envelope around a payload. */
  function Envelope(success: bool, statusCode: int, message: string, payload: Json, timestamp: string): Json {
    JObject(map[
      "success" := JBool(success),
      "statusCode" := JNumber(statusCode),
      "message" := JString(message),
      "data" := payload,
      "timestamp" := JString(timestamp)])
  }

  /** Whatever the payload, null included, the client sees exactly the payload. */
  lemma UnwrapEnvelopeRoundTrip(status: int, success: bool, statusCode: int, message: string, payload: Json, timestamp: string)
    ensures UnwrapEnvelope(Response(status, Envelope(success, statusCode, message, payload, timestamp))) == Response(status, payload)
  {
  }

  /** Bodies that are not envelopes (null, false, 0, "", or an object without
      `data`) reach the caller untouched. */
  lemma NonEnvelopePassesThrough(resp: Response)
    requires !resp.data.JObject? || "data" !in resp.data.fields
    ensures UnwrapEnvelope(resp) == resp
  {
  }

  /** A rejected request: the error's message and the response, if any. */
  datatype HttpError = HttpError(message: string, response: Option<Response>)

  /** The error interceptor ends the session exactly for a 401 or 403 response
      received while the page is not under `/login`. */
  predicate EndsSession(err: HttpError, pathname: string)
    ensures EndsSession(err, pathname) ==> err.response.Some? && err.response.value.status in {401, 403}
    ensures StartsWith(pathname, "/login") ==> !EndsSession(err, pathname)
  {
    err.response.Some? &&
    (err.response.value.status == 401 || err.response.value.status == 403) &&
    !StartsWith(pathname, "/login")
  }

  /** The error interceptor: on 401/403 away from `/login` it deletes both
      session cookies and sends the browser to `/login`; in every case the
      error is rejected again, unchanged. `window` is null during server
      rendering, where nothing is cleared. */
  method InterceptError(window: Window?, err: HttpError) returns (rejected: HttpError)
    modifies window
    ensures rejected == err
    ensures window != null && EndsSession(err, old(window.pathname)) ==>
      window.cookies == old(window.cookies) - {"token", "user"} && window.pathname == "/login"
    ensures window != null && !EndsSession(err, old(window.pathname)) ==>
      window.cookies == old(window.cookies) && window.pathname == old(window.pathname)
  {
    if err.response.Some? && (err.response.value.status == 401 || err.response.value.status == 403) {
      if window != null && !StartsWith(window.pathname, "/login") {
        window.DeleteCookie("token");
        window.DeleteCookie("user");
        window.Navigate("/login");
      }
    }
    rejected := err;
  }

  /** Once the interceptor has redirected, a further 401/403 does not redirect
      again: there is no redirect loop on the login page. */
  lemma NoRedirectFromLogin(err: HttpError, pathname: string)
    requires StartsWith(pathname, "/login")
    ensures !EndsSession(err, pathname)
  {
  }
}
