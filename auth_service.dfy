/** The auth endpoints (src/features/auth/services/auth-service.ts): each
    posts or gets, returns the response body unchanged, and turns any
    failure into an `Error` whose message `handleAuthError` chooses. */
module AuthService {
  import opened Wrappers
  import opened AuthTypes
  import opened LoginSchema
  import opened RegisterSchema
  import opened ApiClient

  const FallbackMessage := "Unable to complete request. Please try again."

  /** A failure as `handleAuthError` sees it: an Axios error, with the
      `message` of its response body when there is one, or anything else. */
  datatype RawError = AxiosError(responseMessage: Option<string>) | OtherError

  /** The message of the thrown `Error`: the server's message, kept even
      when empty since only a nullish one falls back; otherwise the fallback. */
  function HandleAuthError(e: RawError): (message: string)
    ensures e.AxiosError? && e.responseMessage.Some? ==> message == e.responseMessage.value
    ensures !(e.AxiosError? && e.responseMessage.Some?) ==> message == FallbackMessage
  {
    match e
    case AxiosError(Some(m)) => m
    case _ => FallbackMessage
  }

  /** Only an Axios error with a response message changes the message. */
  lemma FallbackUnlessServerSays(e: RawError)
    ensures HandleAuthError(e) != FallbackMessage ==> e.AxiosError? && e.responseMessage.Some?
    ensures HandleAuthError(AxiosError(Some(""))) == ""
  {
  }

  /** The error an auth call hands `handleAuthError` after a failed request
      through `apiClient`, as the code is written. The response interceptor
      has already replaced an error that has a response by a plain object of
      its status, data and headers, and `axios.isAxiosError` does not
      recognise a plain object. An error without a response is still an
      Axios error, but it has no response body to read a message from. */
  function RejectionAsWritten<Body>(r: Rejection<Body>): (e: RawError)
    ensures r.Flattened? <==> e == OtherError
    ensures r.Unchanged? ==> e == AxiosError(None)
  {
    match r
    case Flattened(_, _, _) => OtherError
    case Unchanged(_) => AxiosError(None)
  }

  /** As written, every failed auth call reports the fallback message:
      the server's message never reaches the user. */
  lemma ServerMessageLost<Body>(e: HttpError<Body>)
    ensures HandleAuthError(RejectionAsWritten(RejectError(e))) == FallbackMessage
  {
  }

  /** The classification the message lookup is written for: the server's
      answer, in whatever shape the interceptor passed it on, offers the
      `message` of its body (`bodyMessage` reads that field). */
  function RejectionIntended<Body>(r: Rejection<Body>, bodyMessage: Body -> Option<string>): (e: RawError)
    ensures e.AxiosError?
    ensures r.Unchanged? ==> e.responseMessage.None?
    ensures r.Flattened? ==> e.responseMessage == bodyMessage(r.data)
  {
    match r
    case Flattened(_, data, _) => AxiosError(bodyMessage(data))
    case Unchanged(_) => AxiosError(None)
  }

  /** With the intended classification, a server message is shown verbatim
      and only its absence falls back. */
  lemma ServerMessageShown<Body>(e: HttpError<Body>, bodyMessage: Body -> Option<string>)
    ensures HandleAuthError(RejectionIntended(RejectError(e), bodyMessage))
            == if e.response.Some? && bodyMessage(e.response.value.data).Some?
               then bodyMessage(e.response.value.data).value
               else FallbackMessage
  {
  }

  /** A 401 carrying "Invalid credentials": hidden as written, shown as intended. */
  lemma InvalidCredentials()
    ensures var e := HttpError("Request failed with status code 401",
                               Some(HttpResponse(401, Some("Invalid credentials"), map[])));
            && HandleAuthError(RejectionAsWritten(RejectError(e))) == FallbackMessage
            && HandleAuthError(RejectionIntended(RejectError(e), (m: Option<string>) => m)) == "Invalid credentials"
  {
  }

  /** How an awaited call ended: with a body, or by throwing. A thrown
      error is whatever the response interceptor rejected with, as
      `handleAuthError` classifies it. */
  datatype Outcome<+T> = Responded(body: T) | Threw(error: RawError)

  /** The `try { ... return data } catch (error) { handleAuthError(error) }`
      shape shared by all three calls. */
  function Settle<T>(o: Outcome<T>): (r: Result<T, string>)
    ensures o.Responded? <==> r.Ok?
    ensures o.Responded? ==> r.value == o.body
    ensures o.Threw? ==> r.error == HandleAuthError(o.error)
  {
    match o
    case Responded(body) => Ok(body)
    case Threw(e) => Err(HandleAuthError(e))
  }

  /** The bodies the auth calls send. */
  datatype AuthBody =
    | LoginBody(email: string, password: string)
    | RegisterBody(name: string, email: string, password: string)

  datatype AuthRequest = Post(url: string, body: AuthBody) | Get(url: string)

  /** `login(payload)`: the payload is posted as it is. */
  function LoginRequest(payload: LoginValues): AuthRequest
  {
    Post("/api/auth/login", LoginBody(payload.email, payload.password))
  }

  /** `register(payload)`: only name, email and password are posted. */
  function RegisterRequest(payload: RegisterValues): (r: AuthRequest)
    ensures r.url == "/api/auth/register" && r.Post? && r.body.RegisterBody?
    ensures r.body.name == payload.name && r.body.email == payload.email && r.body.password == payload.password
  {
    Post("/api/auth/register", RegisterBody(payload.name, payload.email, payload.password))
  }

  /** The confirmation never leaves the browser. */
  lemma RegisterDropsConfirmation(payload: RegisterValues, other: string)
    ensures RegisterRequest(payload) == RegisterRequest(payload.(confirmPassword := other))
  {
  }

  /** `getCurrentUser()` */
  const MeRequest := Get("/api/auth/me")
}
