/** The profile editor: the phone and avatar validators, the form defaults
    and the merge of the edited fields into the session. */
module EditProfilePage {
  import opened Wrappers
  import opened AuthTypes
  import opened Navigation
  import opened Forms
  import opened TokenExpiry
  import AuthStore
  import ProtectedRoute

  /** One position of an anchored, fixed-length pattern: a literal
      character or a character range. */
  datatype CharClass = Exactly(c: char) | Between(lo: char, hi: char)

  predicate InClass(c: char, k: CharClass) {
    match k
    case Exactly(x) => c == x
    case Between(lo, hi) => lo <= c <= hi
  }

  /** `s` matches the anchored pattern: one character per position. */
  predicate Matches(pattern: seq<CharClass>, s: string)
  {
    if pattern == [] then s == []
    else s != [] && InClass(s[0], pattern[0]) && Matches(pattern[1..], s[1..])
  }

  /** `n` ASCII digits, JavaScript's `\d{n}` without the `u` flag. */
  function Digits(n: nat): (p: seq<CharClass>)
    ensures |p| == n && forall i :: 0 <= i < n ==> p[i] == Between('0', '9')
  {
    if n == 0 then [] else [Between('0', '9')] + Digits(n - 1)
  }

  /** `/^(?:\+8801[3-9]\d{8})$/` */
  const PhonePattern: seq<CharClass> :=
    [Exactly('+'), Exactly('8'), Exactly('8'), Exactly('0'), Exactly('1'), Between('3', '9')] + Digits(8)

  /** A string matches an anchored pattern exactly when it has the pattern's
      length and each character is in its position's class. */
  lemma {:induction false} MatchesPointwise(pattern: seq<CharClass>, s: string)
    ensures Matches(pattern, s) <==>
      |s| == |pattern| && forall i :: 0 <= i < |s| ==> InClass(s[i], pattern[i])
  {
    if pattern != [] && s != [] {
      MatchesPointwise(pattern[1..], s[1..]);
      if |s| == |pattern| && forall i :: 0 <= i < |s| ==> InClass(s[i], pattern[i]) {
        forall i | 0 <= i < |s[1..]| ensures InClass(s[1..][i], pattern[1..][i]) {
          assert InClass(s[i + 1], pattern[i + 1]);
        }
      }
      if Matches(pattern, s) {
        forall i | 0 <= i < |s| ensures InClass(s[i], pattern[i]) {
          if i > 0 { assert InClass(s[1..][i - 1], pattern[1..][i - 1]); }
        }
      }
    }
  }

  /** The positions of the phone pattern. */
  lemma PhonePatternShape()
    ensures |PhonePattern| == 14
    ensures forall i :: 0 <= i < 5 ==> PhonePattern[i] == Exactly("+8801"[i])
    ensures PhonePattern[5] == Between('3', '9')
    ensures forall i :: 6 <= i < 14 ==> PhonePattern[i] == Between('0', '9')
  {
  }

  /** The phone validator accepts exactly "+8801", a digit from 3 to 9, and
      eight ASCII digits: fourteen characters in all. */
  lemma PhoneAccepted(s: string)
    ensures Matches(PhonePattern, s) <==>
      |s| == 14 && s[..5] == "+8801" && '3' <= s[5] <= '9'
      && forall i :: 6 <= i < 14 ==> '0' <= s[i] <= '9'
  {
    MatchesPointwise(PhonePattern, s);
    PhonePatternShape();
    if |s| == 14 {
      var p := PhonePattern;
      assert s[..5] == "+8801" <==> forall i :: 0 <= i < 5 ==> s[i] == "+8801"[i] by {
        if forall i :: 0 <= i < 5 ==> s[i] == "+8801"[i] {
          assert forall i :: 0 <= i < 5 ==> s[..5][i] == "+8801"[i];
        }
      }
      assert (forall i :: 0 <= i < 14 ==> InClass(s[i], p[i])) <==>
        (forall i :: 0 <= i < 5 ==> InClass(s[i], p[i]))
        && InClass(s[5], p[5])
        && (forall i :: 6 <= i < 14 ==> InClass(s[i], p[i]));
    }
  }

  datatype ProfileForm = ProfileForm(email: string, phoneNumber: string, avatar: string)

  const InvalidPhone := "Please enter a valid Bangladesh phone number (e.g., +8801XXXXXXXXX)"
  const AvatarRequired := "Avatar is required"
  const InvalidAvatarUrl := "Invalid image URL"

  /** `FormSchema`: a valid address, a Bangladesh phone number, and an avatar
      that is non-empty and a URL (`isEmail` and `isUrl` stand for zod's checks). */
  function SchemaIssues(form: ProfileForm, isEmail: string -> bool, isUrl: string -> bool): (r: seq<Issue>)
    ensures r == [] <==>
      isEmail(form.email) && Matches(PhonePattern, form.phoneNumber) && form.avatar != "" && isUrl(form.avatar)
    ensures form.avatar == "" ==> Issue("avatar", AvatarRequired) in r
  {
    EmailIssues(form.email, isEmail)
    + (if Matches(PhonePattern, form.phoneNumber) then [] else [Issue("phoneNumber", InvalidPhone)])
    + (if form.avatar == "" then [Issue("avatar", AvatarRequired)] else [])
    + (if isUrl(form.avatar) then [] else [Issue("avatar", InvalidAvatarUrl)])
  }

  /** The form's starting values: the current user's address, phone number
      and avatar, each absent when there is no session (or it is null). */
  datatype ProfileDefaults = ProfileDefaults(email: Option<string>, phoneNumber: Option<string>, avatar: Option<string>)

  function Defaults(auth: Option<Auth>): (d: ProfileDefaults)
    ensures auth.None? ==> d == ProfileDefaults(None, None, None)
    ensures auth.Some? ==>
      d.email == Some(auth.value.user.email) && d.phoneNumber == auth.value.user.phoneNumber
      && d.avatar == auth.value.user.avatar
  {
    match auth
    case None => ProfileDefaults(None, None, None)
    case Some(a) => ProfileDefaults(Some(a.user.email), a.user.phoneNumber, a.user.avatar)
  }

  /** `{ ...auth, user: { ...auth.user, ...data } }`: the three edited fields
      replace the user's; the tokens and every other user field are kept. */
  function Merge(a: Auth, data: ProfileForm): (r: Auth)
    ensures r.accessToken == a.accessToken && r.refreshToken == a.refreshToken
    ensures r.user.email == data.email
    ensures r.user.phoneNumber == Some(data.phoneNumber) && r.user.avatar == Some(data.avatar)
    ensures r.user.(email := a.user.email, phoneNumber := a.user.phoneNumber, avatar := a.user.avatar) == a.user
  {
    a.(user := a.user.(email := data.email, phoneNumber := Some(data.phoneNumber), avatar := Some(data.avatar)))
  }

  /** Submitting the defaults unchanged leaves the session as it was. */
  lemma MergeDefaultsIsIdentity(a: Auth)
    requires a.user.phoneNumber.Some? && a.user.avatar.Some?
    ensures Merge(a, ProfileForm(a.user.email, a.user.phoneNumber.value, a.user.avatar.value)) == a
  {
  }

  /** Editing the profile never changes where the route gate sends the user. */
  lemma MergeKeepsGateDecision(a: Auth, data: ProfileForm, req: ProtectedRoute.Requirements,
                               decode: string -> Claims, nowMs: int)
    ensures ProtectedRoute.Decide(Some(Merge(a, data)), req, decode, nowMs)
         == ProtectedRoute.Decide(Some(a), req, decode, nowMs)
  {
  }

  /** `onSubmit`, given whether `authApi.update` settled with a response:
      with a response and a session, the merged session is stored and the
      screen navigates to the profile; otherwise nothing changes. */
  method OnSubmit(store: AuthStore.Store, data: ProfileForm, updated: bool) returns (nav: Option<string>)
    requires store.Valid()
    modifies store
    ensures store.Valid()
    ensures updated && old(store.auth).Some? ==>
      nav == Some("/profile") && store.auth == Some(Merge(old(store.auth).value, data))
      && store.storage == AuthStore.Persist(old(store.storage), store.keys, store.auth)
    ensures !(updated && old(store.auth).Some?) ==>
      nav == None && store.auth == old(store.auth) && store.storage == old(store.storage)
  {
    nav := None;
    var auth := store.auth;
    if updated && auth.Some? {
      store.Update(Some(Merge(auth.value, data)));
      nav := Some("/profile");
    }
  }

  /** `form.handleSubmit(onSubmit)`: a form with issues is never sent. */
  method HandleSubmit(store: AuthStore.Store, data: ProfileForm, isEmail: string -> bool, isUrl: string -> bool, updated: bool)
    returns (nav: Option<string>)
    requires store.Valid()
    modifies store
    ensures store.Valid()
    ensures SchemaIssues(data, isEmail, isUrl) != [] ==>
      nav == None && store.auth == old(store.auth) && store.storage == old(store.storage)
    ensures SchemaIssues(data, isEmail, isUrl) == [] && updated && old(store.auth).Some? ==>
      nav == Some("/profile") && store.auth == Some(Merge(old(store.auth).value, data))
      && store.storage == AuthStore.Persist(old(store.storage), store.keys, store.auth)
    ensures SchemaIssues(data, isEmail, isUrl) == [] && !(updated && old(store.auth).Some?) ==>
      nav == None && store.auth == old(store.auth) && store.storage == old(store.storage)
  {
    nav := None;
    if SchemaIssues(data, isEmail, isUrl) == [] {
      nav := OnSubmit(store, data, updated);
    }
  }
}
