/** The sign-in screen: its schema, its submit handler and its guard. */
module LoginPage {
  import opened Wrappers
  import opened AuthTypes
  import opened Navigation
  import opened Forms
  import AuthStore

  datatype LoginForm = LoginForm(email: string, password: string)

  /** `FormSchema`: a valid address and a password of at least six characters. */
  function SchemaIssues(form: LoginForm, isEmail: string -> bool): (r: seq<Issue>)
    ensures r == [] <==> isEmail(form.email) && |form.password| >= MinPasswordLength
  {
    EmailIssues(form.email, isEmail) + MinLengthIssues("password", form.password)
  }

  /** `onSubmit`, given the settled `authApi.login` result: a returned
      session is stored, both tokens are written, then the screen navigates
      home; no result changes nothing. */
  method OnSubmit(store: AuthStore.Store, output: Option<Auth>) returns (nav: Option<string>)
    requires store.Valid()
    modifies store
    ensures store.Valid()
    ensures output.None? ==> nav == None && store.auth == old(store.auth) && store.storage == old(store.storage)
    ensures output.Some? ==> nav == Some("/") && store.auth == output
    ensures output.Some? ==>
      store.storage == AuthStore.SignedInStorage(old(store.storage), store.keys, output.value)
    ensures output.Some? ==> Guard(store.auth) == Redirect("/", false, false)
  {
    nav := None;
    if output.Some? {
      store.Update(Some(output.value));
      store.SetItem(store.keys.access, output.value.accessToken);
      store.SetItem(store.keys.refresh, output.value.refreshToken);
      nav := Some("/");
    }
  }

  /** `form.handleSubmit(onSubmit)`: a form with issues never reaches
      `onSubmit`, so nothing is stored and nothing navigates. */
  method HandleSubmit(store: AuthStore.Store, form: LoginForm, isEmail: string -> bool, output: Option<Auth>)
    returns (nav: Option<string>)
    requires store.Valid()
    modifies store
    ensures store.Valid()
    ensures SchemaIssues(form, isEmail) != [] ==>
      nav == None && store.auth == old(store.auth) && store.storage == old(store.storage)
    ensures SchemaIssues(form, isEmail) == [] && output.Some? ==> nav == Some("/") && store.auth == output
    ensures SchemaIssues(form, isEmail) == [] && output.Some? ==>
      store.storage == AuthStore.SignedInStorage(old(store.storage), store.keys, output.value)
    ensures SchemaIssues(form, isEmail) == [] && output.None? ==>
      nav == None && store.auth == old(store.auth) && store.storage == old(store.storage)
  {
    nav := None;
    if SchemaIssues(form, isEmail) == [] {
      nav := OnSubmit(store, output);
    }
  }

  /** The screen's own guard: a present session is sent home. */
  function Guard(auth: Option<Auth>): (d: Decision)
    ensures d.Render? <==> auth.None?
    ensures auth.Some? ==> d == Redirect("/", false, false)
  {
    if auth.Some? then Redirect("/", false, false) else Render
  }
}
