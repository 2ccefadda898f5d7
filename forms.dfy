/** The validation rules the sign-in screens share: a form is submitted only
    when its schema reports no issue. */
module Forms {

  /** A schema issue, reported against one field of the form. */
  datatype Issue = Issue(field: string, message: string)

  const MinPasswordLength := 6
  const PasswordTooShort := "Password must be at least 6 characters."
  const InvalidEmail := "Invalid email address."
  const PasswordsDontMatch := "Passwords don't match"

  /** `z.string().email(...)` on the `email` field; `isEmail` stands for
      zod's address check. */
  function EmailIssues(email: string, isEmail: string -> bool): (r: seq<Issue>)
    ensures r == [] <==> isEmail(email)
    ensures forall i :: i in r ==> i.field == "email"
  {
    if isEmail(email) then [] else [Issue("email", InvalidEmail)]
  }

  /** `z.string().min(6, ...)` on the named field. */
  function MinLengthIssues(field: string, value: string): (r: seq<Issue>)
    ensures r == [] <==> |value| >= MinPasswordLength
    ensures forall i :: i in r ==> i.field == field
  {
    if |value| < MinPasswordLength then [Issue(field, PasswordTooShort)] else []
  }

  /** A password with its confirmation: both at least six characters, and
      the object-level refinement that they are equal, reported on
      `confirmPassword`. */
  function PasswordPairIssues(password: string, confirmPassword: string): (r: seq<Issue>)
    ensures r == [] <==> |password| >= MinPasswordLength && password == confirmPassword
    ensures password != confirmPassword ==> Issue("confirmPassword", PasswordsDontMatch) in r
  {
    var mismatch := if password == confirmPassword then [] else [Issue("confirmPassword", PasswordsDontMatch)];
    MinLengthIssues("password", password) + MinLengthIssues("confirmPassword", confirmPassword) + mismatch
  }
}
