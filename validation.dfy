/**
 * The two request schemas of backend/config/zod.js as validation functions.
 * A zod object schema checks every field in declaration order and reports
 * one issue per failing field; `safeParse` succeeds when there is none.
 * Whether a string is a well-formed email is zod's own format test, which
 * is not modelled: it is passed in as the predicate `isEmail`.
 */
module Validation {
  datatype Field = Name | Email | Password

  datatype IssueCode = TooSmall | InvalidEmail

  datatype Issue = Issue(field: Field, code: IssueCode, message: string)

  const NameMessage := "Name must be atleast 3 charcters long"
  const EmailMessage := "Invalid email formate"
  const PasswordMessage := "minimum 8 charcters"

  const MinNameLength := 3
  const MinPasswordLength := 8

  function NameIssues(name: string): seq<Issue>
  {
    if |name| < MinNameLength then [Issue(Name, TooSmall, NameMessage)] else []
  }

  function EmailIssues(email: string, isEmail: string -> bool): seq<Issue>
  {
    if isEmail(email) then [] else [Issue(Email, InvalidEmail, EmailMessage)]
  }

  function PasswordIssues(password: string): seq<Issue>
  {
    if |password| < MinPasswordLength then [Issue(Password, TooSmall, PasswordMessage)] else []
  }

  /** `registerSchema.safeParse({name, email, password})`: the issues, in field order. */
  function RegisterIssues(name: string, email: string, password: string, isEmail: string -> bool): seq<Issue>
  {
    NameIssues(name) + EmailIssues(email, isEmail) + PasswordIssues(password)
  }

  /** `loginSchema.safeParse({email, password})`: the issues, in field order. */
  function LoginIssues(email: string, password: string, isEmail: string -> bool): seq<Issue>
  {
    EmailIssues(email, isEmail) + PasswordIssues(password)
  }

  /**
   * registerSchema accepts exactly when all three checks pass; the minimums
   * are inclusive, so a 3-character name and an 8-character password pass.
   */
  lemma RegisterAcceptsIff(name: string, email: string, password: string, isEmail: string -> bool)
    ensures RegisterIssues(name, email, password, isEmail) == []
        <==> |name| >= 3 && isEmail(email) && |password| >= 8
  {
  }

  /** loginSchema has no name field: it accepts exactly a well-formed email with a password of 8 or more. */
  lemma LoginAcceptsIff(email: string, password: string, isEmail: string -> bool)
    ensures LoginIssues(email, password, isEmail) == [] <==> isEmail(email) && |password| >= 8
  {
  }

  /**
   * Each failing field contributes exactly its own issue with its own
   * message, and the issue the handlers report (the first one) belongs to
   * the first failing field in the order name, email, password.
   */
  lemma {:induction false} RegisterIssuesInOrder(name: string, email: string, password: string, isEmail: string -> bool)
    ensures var r := RegisterIssues(name, email, password, isEmail);
      && (Issue(Name, TooSmall, NameMessage) in r <==> |name| < 3)
      && (Issue(Email, InvalidEmail, EmailMessage) in r <==> !isEmail(email))
      && (Issue(Password, TooSmall, PasswordMessage) in r <==> |password| < 8)
      && |r| <= 3
      && (r != [] ==>
            r[0].message == if |name| < 3 then NameMessage else if !isEmail(email) then EmailMessage else PasswordMessage)
  {
    var r := RegisterIssues(name, email, password, isEmail);
    var n, e, p := NameIssues(name), EmailIssues(email, isEmail), PasswordIssues(password);
    assert r == n + e + p;
    assert Issue(Name, TooSmall, NameMessage) in r <==> Issue(Name, TooSmall, NameMessage) in n;
    assert Issue(Email, InvalidEmail, EmailMessage) in r <==> Issue(Email, InvalidEmail, EmailMessage) in e;
    assert Issue(Password, TooSmall, PasswordMessage) in r <==> Issue(Password, TooSmall, PasswordMessage) in p;
  }

  /** Given an acceptable name, the register checks report exactly what the login checks report. */
  lemma LoginIsRegisterWithoutName(name: string, email: string, password: string, isEmail: string -> bool)
    requires |name| >= 3
    ensures RegisterIssues(name, email, password, isEmail) == LoginIssues(email, password, isEmail)
  {
  }
}
