/** The part of zod's object parsing the three form schemas rely on: each
    field reports its own issues in declaration order; a missing field or
    an invalid enum value stops parsing before any refinement, while a
    failed length or email check does not; a refinement that fails adds
    its issue after all field issues. */
module Validation {
  import opened Wrappers

  /** One validation issue: the field it is attached to and its message. */
  datatype Issue = Issue(path: string, message: string)

  /** What one field contributes: its issues, and whether parsing stops. */
  datatype FieldCheck = FieldCheck(issues: seq<Issue>, fatal: bool)

  /** `z.string({ required_error })`: only a missing value fails, and it
      stops parsing. */
  function RequiredString(input: Option<string>, path: string, required: string): (c: FieldCheck)
    ensures c.fatal <==> input.None?
    ensures c.issues == if input.None? then [Issue(path, required)] else []
  {
    if input.None? then FieldCheck([Issue(path, required)], true) else FieldCheck([], false)
  }

  /** `z.string({ required_error }).min(n, tooShort)`: a short value is
      reported, and parsing goes on. */
  function MinLength(input: Option<string>, path: string, required: string, n: nat, tooShort: string): (c: FieldCheck)
    ensures c.fatal <==> input.None?
    ensures input.None? ==> c.issues == [Issue(path, required)]
    ensures input.Some? && |input.value| < n ==> c.issues == [Issue(path, tooShort)]
    ensures input.Some? && |input.value| >= n ==> c.issues == []
  {
    match input
    case None => FieldCheck([Issue(path, required)], true)
    case Some(s) => FieldCheck(if |s| < n then [Issue(path, tooShort)] else [], false)
  }

  /** `z.string({ required_error }).email(invalid)`, with the address
      format left to `isEmail`. */
  function EmailField(input: Option<string>, path: string, required: string, invalid: string, isEmail: string -> bool): (c: FieldCheck)
    ensures c.fatal <==> input.None?
    ensures input.None? ==> c.issues == [Issue(path, required)]
    ensures input.Some? && !isEmail(input.value) ==> c.issues == [Issue(path, invalid)]
    ensures input.Some? && isEmail(input.value) ==> c.issues == []
  {
    match input
    case None => FieldCheck([Issue(path, required)], true)
    case Some(s) => FieldCheck(if isEmail(s) then [] else [Issue(path, invalid)], false)
  }

  /** The issues of a parse, none when it succeeded. */
  function IssuesOf<T>(r: Result<T, seq<Issue>>): seq<Issue> {
    if r.Err? then r.error else []
  }
}
