/** The password-reset screen: schema, e-mail default, submit and guard.
    It never writes the session store. */
module ResetPasswordPage {
  import opened Wrappers
  import opened AuthTypes
  import opened Navigation
  import opened Forms

  datatype ResetForm = ResetForm(otp: string, email: string, password: string, confirmPassword: string)

  /** `FormSchema`: any code, a valid address, and a matching password pair
      of at least six characters. */
  function SchemaIssues(form: ResetForm, isEmail: string -> bool): (r: seq<Issue>)
    ensures r == [] <==>
      isEmail(form.email) && |form.password| >= MinPasswordLength && form.password == form.confirmPassword
    ensures form.password != form.confirmPassword ==> Issue("confirmPassword", PasswordsDontMatch) in r
  {
    EmailIssues(form.email, isEmail) + PasswordPairIssues(form.password, form.confirmPassword)
  }

  /** `searchParams.get("email") || ""`: the `email` parameter, or the empty
      string when it is absent (an empty parameter gives the same). */
  function EmailDefault(emailParam: Option<string>): (email: string)
    ensures emailParam.None? ==> email == ""
    ensures emailParam.Some? ==> email == emailParam.value
  {
    if emailParam.Some? && emailParam.value != "" then emailParam.value else ""
  }

  /** The form the screen starts with. */
  function DefaultForm(emailParam: Option<string>): (form: ResetForm)
    ensures form.email == EmailDefault(emailParam)
    ensures form.otp == "" && form.password == "" && form.confirmPassword == ""
  {
    ResetForm("", EmailDefault(emailParam), "", "")
  }

  /** The untouched default form is never submitted: its password is empty. */
  lemma DefaultFormRejected(emailParam: Option<string>, isEmail: string -> bool)
    ensures SchemaIssues(DefaultForm(emailParam), isEmail) != []
  {
  }

  /** `onSubmit` after validation: a successful reset goes to /login; a
      failed one stays. */
  function SubmitNavigation(form: ResetForm, isEmail: string -> bool, resetOk: bool): (nav: Option<string>)
    ensures nav.Some? <==> SchemaIssues(form, isEmail) == [] && resetOk
    ensures nav.Some? ==> nav.value == "/login"
  {
    if SchemaIssues(form, isEmail) == [] && resetOk then Some("/login") else None
  }

  /** The screen's own guard: a present session is sent home. */
  function Guard(auth: Option<Auth>): (d: Decision)
    ensures d.Render? <==> auth.None?
    ensures auth.Some? ==> d == Redirect("/", false, false)
  {
    if auth.Some? then Redirect("/", false, false) else Render
  }
}
