/** The shared HTTP client's two interceptors (src/shared/services/api-client.ts):
    outgoing requests get a bearer header from the `auth-token` cookie, and
    failed responses are flattened to `{ status, data, headers }`. */
module ApiClient {
  import opened Wrappers
  import opened AuthToken

  const AuthorizationHeader := "Authorization"

  type Headers = map<string, string>

  /** The request config the interceptor receives and hands on; only its
      headers matter here. */
  class RequestConfig {
    var headers: Option<Headers>

    constructor (headers: Option<Headers>)
      ensures this.headers == headers
    {
      this.headers := headers;
    }
  }

  /** The headers after the request interceptor, given the cookie token: with
      a token, `config.headers ?? {}` gains `Authorization: Bearer <token>`
      unless it already has one; without a token nothing changes. */
  function Authorized(headers: Option<Headers>, token: Option<string>): (r: Option<Headers>)
    ensures !Truthy(token) ==> r == headers
    ensures Truthy(token) ==> r.Some? && AuthorizationHeader in r.value
    ensures Truthy(token) && headers.Some? && AuthorizationHeader in headers.value ==> r == headers
    ensures Truthy(token) && (headers.None? || AuthorizationHeader !in headers.value)
            ==> r.value[AuthorizationHeader] == "Bearer " + token.value
    ensures Truthy(token) ==> forall k :: k in headers.GetOr(map[]) ==> k in r.value && r.value[k] == headers.GetOr(map[])[k]
    ensures Truthy(token) ==> r.value.Keys == headers.GetOr(map[]).Keys + {AuthorizationHeader}
  {
    if !Truthy(token) then headers
    else
      var h := headers.GetOr(map[]);
      if AuthorizationHeader in h then Some(h) else Some(h[AuthorizationHeader := "Bearer " + token.value])
  }

  /** Running the interceptor twice adds nothing the first run did not. */
  lemma AuthorizedTwice(headers: Option<Headers>, token: Option<string>)
    ensures Authorized(Authorized(headers, token), token) == Authorized(headers, token)
  {
  }

  /** The request interceptor. Outside a browser the config is handed on
      untouched; otherwise its headers become `Authorized(...)` of the cookie
      token. The same config object is returned. */
  method InterceptRequest(config: RequestConfig, doc: Document) returns (out: RequestConfig)
    requires doc.Valid()
    modifies config`headers
    ensures out == config
    ensures config.headers == if doc.inBrowser then Authorized(old(config.headers), doc.CookieToken()) else old(config.headers)
  {
    if !doc.inBrowser {
      return config;
    }
    var token := doc.GetAuthTokenFromCookie();
    if Truthy(token) {
      var headers := config.headers.GetOr(map[]);
      if AuthorizationHeader !in headers {
        headers := headers[AuthorizationHeader := "Bearer " + token.value];
      }
      config.headers := Some(headers);
    }
    return config;
  }

  /** An HTTP response as the error carries it; the body is kept opaque. */
  datatype HttpResponse<Body> = HttpResponse(status: int, data: Body, headers: Headers)

  /** A failed request: with a response when the server answered. */
  datatype HttpError<Body> = HttpError(message: string, response: Option<HttpResponse<Body>>)

  /** What the response interceptor rejects with. */
  datatype Rejection<Body> =
    | Flattened(status: int, data: Body, headers: Headers)
    | Unchanged(error: HttpError<Body>)

  /** The error half of the response interceptor: an error with a response
      becomes the plain object of its status, data and headers; any other
      error is rejected as it came. Successful responses are not touched. */
  function RejectError<Body>(e: HttpError<Body>): (r: Rejection<Body>)
    ensures r.Flattened? <==> e.response.Some?
    ensures r.Flattened? ==> r.status == e.response.value.status && r.data == e.response.value.data
                              && r.headers == e.response.value.headers
    ensures r.Unchanged? ==> r.error == e
  {
    match e.response
    case Some(resp) => Flattened(resp.status, resp.data, resp.headers)
    case None => Unchanged(e)
  }
}
