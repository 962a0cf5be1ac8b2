/** `registerSchema` (src/features/auth/schemas/register-schema.ts). */
module RegisterSchema {
  import opened Wrappers
  import opened Validation

  /** The raw form fields; `None` is a missing field. */
  datatype RegisterInput = RegisterInput(
    name: Option<string>, email: Option<string>, password: Option<string>, confirmPassword: Option<string>)

  datatype RegisterValues = RegisterValues(name: string, email: string, password: string, confirmPassword: string)

  const MinName := 2
  const MinPassword := 8

  predicate Complete(input: RegisterInput) {
    input.name.Some? && input.email.Some? && input.password.Some? && input.confirmPassword.Some?
  }

  function NameCheck(input: RegisterInput): FieldCheck {
    MinLength(input.name, "name", "Name is required", MinName, "Name must be at least 2 characters")
  }

  function EmailCheck(input: RegisterInput, isEmail: string -> bool): FieldCheck {
    EmailField(input.email, "email", "Email is required", "Please enter a valid email", isEmail)
  }

  function PasswordCheck(input: RegisterInput): FieldCheck {
    MinLength(input.password, "password", "Password is required", MinPassword, "Password must be at least 8 characters")
  }

  function ConfirmCheck(input: RegisterInput): FieldCheck {
    MinLength(input.confirmPassword, "confirmPassword", "Confirm password is required", MinPassword,
              "Confirm password must be at least 8 characters")
  }

  const Mismatch := Issue("confirmPassword", "Passwords do not match")

  /** All issues in order: the four fields, then the mismatch when no field
      is missing. */
  function RegisterIssueList(input: RegisterInput, isEmail: string -> bool): seq<Issue> {
    var fields := NameCheck(input).issues + EmailCheck(input, isEmail).issues + PasswordCheck(input).issues + ConfirmCheck(input).issues;
    if !Complete(input) || input.password.value == input.confirmPassword.value then fields else fields + [Mismatch]
  }

  /** The register form is accepted exactly when every field is present and
      long enough, the email is well formed and the two passwords agree. */
  function ParseRegister(input: RegisterInput, isEmail: string -> bool): (r: Result<RegisterValues, seq<Issue>>)
    ensures r.Ok? <==> Complete(input) && |input.name.value| >= MinName && isEmail(input.email.value)
                       && |input.password.value| >= MinPassword && |input.confirmPassword.value| >= MinPassword
                       && input.password.value == input.confirmPassword.value
    ensures r.Ok? ==> r.value == RegisterValues(input.name.value, input.email.value, input.password.value, input.confirmPassword.value)
    ensures IssuesOf(r) == RegisterIssueList(input, isEmail)
  {
    var issues := RegisterIssueList(input, isEmail);
    if issues == [] then Ok(RegisterValues(input.name.value, input.email.value, input.password.value, input.confirmPassword.value))
    else Err(issues)
  }

  /** The issues of one field sit among others on other fields. */
  lemma Layout(input: RegisterInput, isEmail: string -> bool)
    ensures forall x :: x in NameCheck(input).issues ==> x.path == "name"
    ensures forall x :: x in EmailCheck(input, isEmail).issues ==> x.path == "email"
    ensures forall x :: x in PasswordCheck(input).issues ==> x.path == "password"
    ensures forall x :: x in ConfirmCheck(input).issues ==> x.path == "confirmPassword"
    ensures forall x :: x in RegisterIssueList(input, isEmail) <==>
              x in NameCheck(input).issues || x in EmailCheck(input, isEmail).issues || x in PasswordCheck(input).issues
              || x in ConfirmCheck(input).issues || (x == Mismatch && Complete(input) && input.password.value != input.confirmPassword.value)
  {
  }

  /** Name issues: missing, or shorter than two characters. */
  lemma NameIssues(input: RegisterInput, isEmail: string -> bool)
    ensures Issue("name", "Name is required") in IssuesOf(ParseRegister(input, isEmail)) <==> input.name.None?
    ensures Issue("name", "Name must be at least 2 characters") in IssuesOf(ParseRegister(input, isEmail))
            <==> input.name.Some? && |input.name.value| < MinName
  {
    Layout(input, isEmail);
  }

  /** Email issues: missing, or not an address. */
  lemma EmailIssues(input: RegisterInput, isEmail: string -> bool)
    ensures Issue("email", "Email is required") in IssuesOf(ParseRegister(input, isEmail)) <==> input.email.None?
    ensures Issue("email", "Please enter a valid email") in IssuesOf(ParseRegister(input, isEmail))
            <==> input.email.Some? && !isEmail(input.email.value)
  {
    Layout(input, isEmail);
  }

  /** Password issues: missing, or shorter than eight characters. */
  lemma PasswordIssues(input: RegisterInput, isEmail: string -> bool)
    ensures Issue("password", "Password is required") in IssuesOf(ParseRegister(input, isEmail)) <==> input.password.None?
    ensures Issue("password", "Password must be at least 8 characters") in IssuesOf(ParseRegister(input, isEmail))
            <==> input.password.Some? && |input.password.value| < MinPassword
  {
    Layout(input, isEmail);
  }

  /** Confirmation issues: missing, too short, or different from the
      password; the last only when no field is missing. */
  lemma ConfirmIssues(input: RegisterInput, isEmail: string -> bool)
    ensures Issue("confirmPassword", "Confirm password is required") in IssuesOf(ParseRegister(input, isEmail))
            <==> input.confirmPassword.None?
    ensures Issue("confirmPassword", "Confirm password must be at least 8 characters") in IssuesOf(ParseRegister(input, isEmail))
            <==> input.confirmPassword.Some? && |input.confirmPassword.value| < MinPassword
    ensures Mismatch in IssuesOf(ParseRegister(input, isEmail))
            <==> Complete(input) && input.password.value != input.confirmPassword.value
  {
    Layout(input, isEmail);
  }

  /** A missing password hides the mismatch: the refinement never runs. */
  lemma MissingFieldSkipsRefinement(name: string, email: string, confirm: string, isEmail: string -> bool)
    ensures var r := ParseRegister(RegisterInput(Some(name), Some(email), None, Some(confirm)), isEmail);
            Mismatch !in IssuesOf(r)
  {
  }

  /** Short but different passwords get both the length issues and the
      mismatch. */
  lemma ShortAndMismatched(isEmail: string -> bool)
    requires isEmail("a@b.co")
    ensures var r := ParseRegister(RegisterInput(Some("Al"), Some("a@b.co"), Some("short"), Some("other")), isEmail);
            IssuesOf(r) == [Issue("password", "Password must be at least 8 characters"),
                            Issue("confirmPassword", "Confirm password must be at least 8 characters"),
                            Issue("confirmPassword", "Passwords do not match")]
  {
  }
}
