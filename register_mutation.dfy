/** `useRegisterMutation` (src/features/auth/queries/use-register-mutation.ts):
    register first; when registration hands back no token, log in with the
    same email and password; then store the token and user. The awaited
    calls' outcomes are parameters, and the calls made are returned in order. */
module RegisterMutation {
  import opened Wrappers
  import opened AuthTypes
  import opened LoginSchema
  import opened RegisterSchema
  import opened AuthService
  import opened SessionStore
  import opened Text
  import opened CookieJar
  import opened AuthToken

  /** The mutation's result: the register response with the token, refresh
      token and user it ended up with. */
  datatype RegisterResult = RegisterResult(message: string, user: AuthUser, accessToken: string, refreshToken: Option<string>)

  /** `mutationFn(payload)`. */
  method MutationFn(payload: RegisterValues, registerOutcome: Outcome<RegisterResponse>, loginOutcome: Outcome<LoginResponse>)
    returns (calls: seq<AuthRequest>, result: Result<RegisterResult, string>)
    ensures |calls| >= 1 && calls[0] == RegisterRequest(payload)
    ensures registerOutcome.Threw? ==> calls == [RegisterRequest(payload)] && result == Err(HandleAuthError(registerOutcome.error))
    ensures registerOutcome.Responded? && Truthy(registerOutcome.body.accessToken) ==>
              var reg := registerOutcome.body;
              calls == [RegisterRequest(payload)]
              && result == Ok(RegisterResult(reg.message, reg.user, reg.accessToken.value, reg.refreshToken))
    ensures registerOutcome.Responded? && !Truthy(registerOutcome.body.accessToken) ==>
              calls == [RegisterRequest(payload), LoginRequest(LoginValues(payload.email, payload.password))]
    ensures registerOutcome.Responded? && !Truthy(registerOutcome.body.accessToken) && loginOutcome.Threw? ==>
              result == Err(HandleAuthError(loginOutcome.error))
    ensures registerOutcome.Responded? && !Truthy(registerOutcome.body.accessToken) && loginOutcome.Responded? ==>
              var log := loginOutcome.body;
              result == Ok(RegisterResult(registerOutcome.body.message, log.user, log.accessToken, log.refreshToken))
  {
    calls := [RegisterRequest(payload)];
    var registered := Settle(registerOutcome);
    if registered.Err? {
      return calls, Err(registered.error);
    }
    var registerResponse := registered.value;
    var accessToken := registerResponse.accessToken.GetOr("");
    var refreshToken := registerResponse.refreshToken;
    var user := registerResponse.user;
    if !Truthy(registerResponse.accessToken) {
      var loginPayload := LoginValues(payload.email, payload.password);
      calls := calls + [LoginRequest(loginPayload)];
      var loggedIn := Settle(loginOutcome);
      if loggedIn.Err? {
        return calls, Err(loggedIn.error);
      }
      accessToken := loggedIn.value.accessToken;
      refreshToken := loggedIn.value.refreshToken;
      user := loggedIn.value.user;
    }
    result := Ok(RegisterResult(registerResponse.message, user, accessToken, refreshToken));
  }

  /** `onSuccess`: the result's token and user go to the store. */
  method OnSuccess(store: AuthStore, response: RegisterResult)
    requires store.Valid()
    modifies store, store.doc`jar
    ensures store.Valid()
    ensures store.accessToken == Some(response.accessToken) && store.user == Some(response.user)
    ensures store.doc.jar == if !store.doc.inBrowser then old(store.doc.jar)
                             else if response.accessToken != [] then Write(old(store.doc.jar), SetCookieString(response.accessToken, store.doc.https))
                             else Write(old(store.doc.jar), ClearCookieString())
    ensures store.doc.inBrowser && ';' !in response.accessToken ==>
              TokenOf(store.doc.jar) == if Trim(response.accessToken) == [] then None else Some(Trim(response.accessToken))
  {
    store.SetAuth(response.accessToken, response.user);
  }

  /** The whole mutation: `onSuccess` runs only when `mutationFn` resolved,
      so a failed register or login leaves the store as it was. */
  method Mutate(store: AuthStore, payload: RegisterValues, registerOutcome: Outcome<RegisterResponse>, loginOutcome: Outcome<LoginResponse>)
    returns (calls: seq<AuthRequest>, result: Result<RegisterResult, string>)
    requires store.Valid()
    modifies store, store.doc`jar
    ensures store.Valid()
    ensures result.Err? ==> store.accessToken == old(store.accessToken) && store.user == old(store.user)
                            && store.doc.jar == old(store.doc.jar)
    ensures result.Ok? ==> store.accessToken == Some(result.value.accessToken) && store.user == Some(result.value.user)
    ensures result.Ok? ==> store.doc.jar == if !store.doc.inBrowser then old(store.doc.jar)
                             else if result.value.accessToken != [] then Write(old(store.doc.jar), SetCookieString(result.value.accessToken, store.doc.https))
                             else Write(old(store.doc.jar), ClearCookieString())
    ensures result.Ok? && store.doc.inBrowser && ';' !in result.value.accessToken ==>
              TokenOf(store.doc.jar) == if Trim(result.value.accessToken) == [] then None else Some(Trim(result.value.accessToken))
  {
    calls, result := MutationFn(payload, registerOutcome, loginOutcome);
    if result.Ok? {
      OnSuccess(store, result.value);
    }
  }
}
