/** `loginSchema` (src/features/auth/schemas/login-schema.ts). */
module LoginSchema {
  import opened Wrappers
  import opened Validation

  /** The raw form fields; `None` is a missing field. */
  datatype LoginInput = LoginInput(email: Option<string>, password: Option<string>)

  datatype LoginValues = LoginValues(email: string, password: string)

  const MinPassword := 6

  /** The login form is accepted exactly when both fields are present, the
      email is well formed and the password has at least six characters;
      every failure is reported on its own field with its own message. */
  function ParseLogin(input: LoginInput, isEmail: string -> bool): (r: Result<LoginValues, seq<Issue>>)
    ensures r.Ok? <==> input.email.Some? && input.password.Some? && isEmail(input.email.value) && |input.password.value| >= MinPassword
    ensures r.Ok? ==> r.value == LoginValues(input.email.value, input.password.value)
    ensures Issue("email", "Email is required") in IssuesOf(r) <==> input.email.None?
    ensures Issue("email", "Please enter a valid email") in IssuesOf(r) <==> input.email.Some? && !isEmail(input.email.value)
    ensures Issue("password", "Password is required") in IssuesOf(r) <==> input.password.None?
    ensures Issue("password", "Password must be at least 6 characters") in IssuesOf(r)
            <==> input.password.Some? && |input.password.value| < MinPassword
    ensures forall i :: 0 <= i < |IssuesOf(r)| ==> IssuesOf(r)[i].path in {"email", "password"}
  {
    var email := EmailField(input.email, "email", "Email is required", "Please enter a valid email", isEmail);
    var password := MinLength(input.password, "password", "Password is required", MinPassword, "Password must be at least 6 characters");
    var issues := email.issues + password.issues;
    if issues == [] then Ok(LoginValues(input.email.value, input.password.value)) else Err(issues)
  }

  /** The boundary: six characters pass, five do not. */
  lemma PasswordBoundary(email: string, isEmail: string -> bool)
    requires isEmail(email)
    ensures ParseLogin(LoginInput(Some(email), Some("123456")), isEmail).Ok?
    ensures ParseLogin(LoginInput(Some(email), Some("12345")), isEmail).Err?
  {
  }
}
