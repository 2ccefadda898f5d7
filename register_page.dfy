/** The registration screen: its schema with the confirmation refinement,
    its submit handler and its guard. */
module RegisterPage {
  import opened Wrappers
  import opened AuthTypes
  import opened Navigation
  import opened Forms
  import AuthStore

  datatype RegisterForm = RegisterForm(fullName: string, email: string, password: string, confirmPassword: string)

  /** The body `authApi.register` settles with: a message and, when the
      backend sends one, the new session. */
  datatype RegisterResponse = RegisterResponse(message: string, data: Option<Auth>)

  /** `FormSchema`: any full name, a valid address, a password and its
      confirmation of at least six characters each, equal to each other. */
  function SchemaIssues(form: RegisterForm, isEmail: string -> bool): (r: seq<Issue>)
    ensures r == [] <==>
      isEmail(form.email) && |form.password| >= MinPasswordLength && form.password == form.confirmPassword
    ensures form.password != form.confirmPassword ==> Issue("confirmPassword", PasswordsDontMatch) in r
    ensures forall i :: i in r ==> i.field != "fullName"
  {
    EmailIssues(form.email, isEmail) + PasswordPairIssues(form.password, form.confirmPassword)
  }

  /** `onSubmit`, given the settled response. A response with a session
      stores it, writes both of its tokens and navigates home; no response
      changes nothing. A response without `data` passes the unchecked cast
      as `undefined`: the store is updated with it, so the session is
      cleared, and then reading its `accessToken` throws before any token
      is written or any navigation happens. */
  method OnSubmit(store: AuthStore.Store, res: Option<RegisterResponse>) returns (r: Result<Option<string>>)
    requires store.Valid()
    modifies store
    ensures store.Valid()
    ensures res.None? ==> r == Ok(None) && store.auth == old(store.auth) && store.storage == old(store.storage)
    ensures res.Some? && res.value.data.Some? ==> r == Ok(Some("/")) && store.auth == res.value.data
    ensures res.Some? && res.value.data.Some? ==>
      store.storage == AuthStore.SignedInStorage(old(store.storage), store.keys, res.value.data.value)
    ensures res.Some? && res.value.data.None? ==> r.Throws? && store.auth == None
    ensures res.Some? && res.value.data.None? ==>
      store.storage == AuthStore.Persist(old(store.storage), store.keys, None)
  {
    r := Ok(None);
    if res.Some? {
      var newAuth := res.value.data;
      store.Update(newAuth);
      if newAuth.None? {
        return Throws("cannot read accessToken of undefined");
      }
      store.SetItem(store.keys.access, newAuth.value.accessToken);
      store.SetItem(store.keys.refresh, newAuth.value.refreshToken);
      r := Ok(Some("/"));
    }
  }

  /** `form.handleSubmit(onSubmit)`: a form with issues is never sent. */
  method HandleSubmit(store: AuthStore.Store, form: RegisterForm, isEmail: string -> bool, res: Option<RegisterResponse>)
    returns (r: Result<Option<string>>)
    requires store.Valid()
    modifies store
    ensures store.Valid()
    ensures SchemaIssues(form, isEmail) != [] ==>
      r == Ok(None) && store.auth == old(store.auth) && store.storage == old(store.storage)
    ensures SchemaIssues(form, isEmail) == [] && res.Some? && res.value.data.Some? ==>
      r == Ok(Some("/")) && store.auth == res.value.data
    ensures SchemaIssues(form, isEmail) == [] && res.Some? && res.value.data.Some? ==>
      store.storage == AuthStore.SignedInStorage(old(store.storage), store.keys, res.value.data.value)
    ensures SchemaIssues(form, isEmail) == [] && res.Some? && res.value.data.None? ==>
      r.Throws? && store.auth == None
    ensures SchemaIssues(form, isEmail) == [] && res.Some? && res.value.data.None? ==>
      store.storage == AuthStore.Persist(old(store.storage), store.keys, None)
    ensures SchemaIssues(form, isEmail) == [] && res.None? ==>
      r == Ok(None) && store.auth == old(store.auth) && store.storage == old(store.storage)
  {
    r := Ok(None);
    if SchemaIssues(form, isEmail) == [] {
      r := OnSubmit(store, res);
    }
  }

  /** The screen's own guard: a present session is sent home. */
  function Guard(auth: Option<Auth>): (d: Decision)
    ensures d.Render? <==> auth.None?
    ensures auth.Some? ==> d == Redirect("/", false, false)
  {
    if auth.Some? then Redirect("/", false, false) else Render
  }

  /** A password shorter than six characters is rejected, with the issue on
      the password field, whatever the confirmation holds. */
  lemma ShortPasswordRejected(form: RegisterForm, isEmail: string -> bool)
    requires |form.password| < MinPasswordLength
    ensures SchemaIssues(form, isEmail) != []
    ensures Issue("password", PasswordTooShort) in SchemaIssues(form, isEmail)
  {
  }
}
