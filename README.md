# Session and authorization layer of the React admin dashboard

This project models, in Dafny, the client-side session and authorization
layer of a React admin dashboard, together with the small pure helpers of
its screens:

- the staleness check of the JWT access token (`checkTokenExpired`);
- the persisted session store (`useAuthStore`: `update`, `logout`) over the
  browser's key/value storage;
- the two route gates (`ProtectedRoute`, `PublicAuthRoute`), the route table of
  `App.tsx`, and the earlier, unmounted gate `PrivateOutlet` of `App-copy.tsx`;
- the auth screens: their form schemas, their guards and the session
  transitions of their submit handlers (sign-in, registration, e-mail
  verification, password reset, profile edit);
- the checkbox-group toggle of the schema-driven form, the search, reset and
  export logic of the news screen, and the sidebar's active-flag marking.

Gates and guards return a `Navigation.Decision`: `Render`, or
`Redirect(to, carriesFrom, replace)` for a `<Navigate>`. The gate and the
legacy gate that log out are also given as methods over the store
(`ProtectedRoute.Guard`, `LegacyApp.Guard`), proved to return the pure
decision and to log out exactly in the expiry branch. Network calls are
replaced by their settled results, passed in as parameters. The clock is
`nowMs`, the value of `new Date().getTime()`. Token decoding (split, `atob`,
`JSON.parse`) is a parameter `decode` with three outcomes: it throws, it
gives a payload with a numeric `exp`, or it gives a payload whose `exp` is
missing. zod's address and URL checks are the parameters `isEmail` and
`isUrl`. The storage keys come from the build environment; they are a
`StorageKeys` value that must hold three distinct keys.

The main results:

- `Routes.EveryNavigationSettlesOver`: there is no redirect loop. From any path
  and any session, at most three redirects lead to a rendered screen, whatever
  the clock reads at each hop. At one instant (one `nowMs` for the whole chain)
  two suffice (`Routes.EveryNavigationSettles`). The third is the /login a
  token expiring mid-chain adds, and `Routes.ThreeRedirectsCanBeNeeded` shows
  that it can be needed. Both bounds hold because a session value always
  carries a user.
- `LegacyApp.GatesDisagreeOnVerifiedNonAdmin` and `LegacyApp.GatesAgreeElsewhere`:
  for a non-empty access token that decodes, the old and new gates send users
  to the same places, except a verified non-admin. The new gate sends that user
  to `/unauthorized`. The old one sends them to `/login`, and from there the
  sign-in screen's guard sends them back (`LegacyApp.LegacyNonAdminBounces`).
  On a token that does not decode, or an empty one, the old gate throws
  (`LegacyApp.GatesDisagreeOnUndecodable`, `LegacyApp.GatesDisagreeOnEmptyToken`).
- `EditProfilePage.PhoneAccepted`: the phone pattern accepts exactly the
  14-character numbers `+8801[3-9]` followed by eight digits.

Four behaviours of the code are worth stating plainly:

- `src/lib/utils.ts:12` documents `checkTokenExpired` as true "if the token is
  expired or invalid", yet a payload without `exp` is reported NOT expired
  (`TokenExpiry.MissingExpNeverExpires`): in JavaScript `now >= undefined` is false.
- A session whose access token is the empty string is never logged out by
  `ProtectedRoute`, although `checkTokenExpired("")` is true: the
  `auth?.accessToken &&` test in front of it skips the branch
  (`ProtectedRoute.EmptyTokenSkipsExpiry`).
- `logout` removes only the access-token entry (`src/store/useAuthStore.ts:22`);
  the refresh-token entry stays in storage.
- The news screen's export reads `query.data?.data?.results` while its table
  reads `query.data?.results` (`src/pages/news/news-page.tsx:190`, `:216`):
  for a body of the shape the table reads, the export is always empty
  (`NewsPage.ExportMissesTableRows`).

## Model

| member | source | states |
|---|---|---|
| `TokenExpiry.CheckTokenExpired` | src/lib/utils.ts:14-26 | null, undefined or empty token is expired; a token whose decoding throws is expired, nothing is thrown; otherwise expired iff the payload's `exp` has been reached |
| `TokenExpiry.ExpiredIffReached` | src/lib/utils.ts:19-21 | with a numeric `exp`, expired iff `floor(nowMs/1000) >= exp`; the second `exp` itself is expired, the one before is not |
| `TokenExpiry.MissingExpNeverExpires` | src/lib/utils.ts:19-21 | a payload without `exp` is reported not expired at every time |
| `TokenExpiry.ExpiryMonotone` | src/lib/utils.ts:20-21 | a token expired at one time is expired at every later time |
| `AuthStore.Rehydrate` | src/store/useAuthStore.ts:25-27 | a reload restores the persisted session, and null when the storage holds none |
| `AuthStore.Persist` | src/store/useAuthStore.ts:25-27 | after a state change the persisted entry holds the new session; every other entry is kept |
| `AuthStore.LoggedOutStorage` | src/store/useAuthStore.ts:20-23 | after logout the session is persisted as null and the access-token entry is gone; every other entry, the refresh token included, is kept |
| `AuthStore.SignedInStorage` | src/pages/auth/login-page.tsx:56-59 | after a sign-in the persisted entry holds the session and both token entries hold its tokens; nothing else changes |
| `AuthStore.LogoutIdempotent` | src/store/useAuthStore.ts:20-23 | logging out twice leaves the storage as logging out once |
| `AuthStore.Store.constructor` | src/store/useAuthStore.ts:14-18 | the session starts null and is rehydrated from storage; with no persisted entry it stays null |
| `AuthStore.Store.Update` | src/store/useAuthStore.ts:19 | the session becomes the argument as a whole; only the persisted entry changes, the token entries are untouched; the persisted copy still mirrors the session; an `undefined` argument clears the session |
| `AuthStore.Store.Logout` | src/store/useAuthStore.ts:20-23 | the session becomes null and the access-token entry is removed; the refresh-token entry is unchanged; the persisted copy mirrors null |
| `AuthStore.Store.SetItem` | src/pages/auth/login-page.tsx:58-59 | writing a token entry changes that entry only and keeps the persisted copy |
| `AuthStore.LogoutTwice` | src/store/useAuthStore.ts:20-23 | two logouts leave exactly the state of one |
| `ProtectedRoute.Decide` | src/ProtectedRoute.tsx:15-64 | first match wins: no user, expired token, unverified email, missing admin role, render; every redirect replaces the history entry and goes to /login, /verify-email or the fixed fallback |
| `ProtectedRoute.IsAdmin` | src/ProtectedRoute.tsx:27-29 | a session is an admin one iff it holds some role other than "customer", that is "admin" or "super-admin" |
| `ProtectedRoute.ShouldLogout` | src/ProtectedRoute.tsx:39-41 | only a session with a non-empty token is logged out, and such a session is logged out iff its token does not decode or its `exp` has been reached |
| `ProtectedRoute.Guard` | src/ProtectedRoute.tsx:41-45 | the component returns `Decide` on the session it read and logs out exactly in the expiry branch; otherwise the store is unchanged |
| `ProtectedRoute.NoSessionGoesToLogin` | src/ProtectedRoute.tsx:34-37 | without a session, the decision is /login with the origin and replace, whatever the flags |
| `ProtectedRoute.ExpiredBeforeOtherChecks` | src/ProtectedRoute.tsx:39-45 | a non-empty expired token sends even a verified admin to /login with the origin |
| `ProtectedRoute.EmptyTokenSkipsExpiry` | src/ProtectedRoute.tsx:30-41 | `checkTokenExpired("")` is true, yet a session with an empty token is not logged out |
| `ProtectedRoute.UnverifiedGoesToVerify` | src/ProtectedRoute.tsx:47-52 | a live unverified session goes to /verify-email with the origin when verification is required |
| `ProtectedRoute.NonAdminGoesToFallback` | src/ProtectedRoute.tsx:54-60 | a live, verified-enough non-admin goes to /unauthorized, without the origin |
| `ProtectedRoute.RenderIffAllChecksPass` | src/ProtectedRoute.tsx:27-63 | content renders iff session present, not logged out, verified when required, admin or super-admin when required |
| `ProtectedRoute.VerifiedAdminRenders` | src/ProtectedRoute.tsx:15-17 | under the default flags (both true), a live verified admin sees the content |
| `PublicAuthRoute.Decide` | src/PublicAuthRoute.tsx:5-14 | any session is redirected to / with replace; no session renders |
| `Routes.RouteFor` | src/App.tsx:22-85 | exactly the four sign-in paths are public-only; /verify-email and /unauthorized need a session but neither verification nor admin; every other path has both flags true; /dashboard, and only it, is `<Navigate to="/" replace />`; each named path shows its own screen, and every unnamed path the not-found screen |
| `Routes.FallbackRenders` | src/App.tsx:66-76 | a user sent to /unauthorized keeps the session and is shown that screen |
| `Routes.VerifyEmailRenders` | src/App.tsx:34-42 | a user sent to /verify-email keeps the session and is shown the form: gate and screen guard both pass |
| `Routes.LoginRenders` | src/App.tsx:25-32 | a user sent to /login has no session afterwards and is shown the form |
| `Routes.Visit` | src/App.tsx:22-85 | one navigation, gate first and then the route's element: a redirect goes only to /login, /verify-email, the fallback or /; to / only with a session or from /dashboard; to /verify-email only for an unverified session |
| `Routes.SessionAfter` | src/ProtectedRoute.tsx:41-45 | the session after one navigation is kept or cleared, and it is cleared only with a redirect to /login carrying the origin |
| `Routes.HomeSettles` | src/App.tsx:45-64 | at one instant (one `nowMs` for the whole chain), from / at most one redirect leads to a rendered screen |
| `Routes.EveryNavigationSettles` | src/App.tsx:22-85 | at one instant (one `nowMs` for the whole chain), from every path and session at most two redirects lead to a rendered screen |
| `Routes.VerifyEmailSettlesOver` | src/ProtectedRoute.tsx:34-45 | an unverified session sent to /verify-email sees the form or, its token expired on arrival, one more redirect to /login, at any time per hop |
| `Routes.FallbackSettlesOver` | src/ProtectedRoute.tsx:34-45 | a session sent to /unauthorized sees that screen or, its token expired on arrival, one more redirect to /login, at any time per hop |
| `Routes.HomeSettlesOver` | src/App.tsx:45-64 | from /, with its own clock reading per hop, at most two redirects lead to a rendered screen |
| `Routes.EveryNavigationSettlesOver` | src/App.tsx:22-85 | from every path and session, with its own clock reading per hop, at most three redirects lead to a rendered screen |
| `Routes.ThreeRedirectsCanBeNeeded` | src/ProtectedRoute.tsx:39-45 | a verified non-admin on /verify-email whose token expires mid-chain goes to /, /unauthorized and /login: three redirects, not two |
| `LegacyApp.IsTokenExpired` | src/App-copy.tsx:43-46 | throws iff the token does not decode; otherwise `floor(now/1000) >= exp` |
| `LegacyApp.LegacyExpiryAgrees` | src/App-copy.tsx:43-46 | on a non-empty token that decodes, the legacy check answers as `checkTokenExpired` |
| `LegacyApp.Decide` | src/App-copy.tsx:48-67 | throws iff a session's token does not decode; no redirect carries the origin or replaces |
| `LegacyApp.ShouldLogout` | src/App-copy.tsx:55-58 | logged out iff a session's token decodes and its `exp` has been reached; on a non-empty decodable token this is the new gate's test |
| `LegacyApp.Guard` | src/App-copy.tsx:55-58 | the component returns `Decide` and logs out exactly when the session's token is expired |
| `LegacyApp.GatesDisagreeOnVerifiedNonAdmin` | src/App-copy.tsx:60-65 | a live verified non-admin goes to /login under the legacy gate and to /unauthorized under the new one |
| `LegacyApp.GatesAgreeElsewhere` | src/App-copy.tsx:48-67 | for no session, or a session whose access token is non-empty and decodes, both gates send the user to the same destination and log out in the same cases, except a live verified non-admin |
| `LegacyApp.GatesDisagreeOnUndecodable` | src/App-copy.tsx:43-58 | a non-empty token that does not decode makes the legacy gate throw, while the new gate logs out and redirects to /login |
| `LegacyApp.GatesDisagreeOnEmptyToken` | src/App-copy.tsx:43-58 | an empty token makes the legacy gate throw (its unguarded decode fails), while the new gate never logs out and never sends that session to /login |
| `LegacyApp.LegacyNonAdminBounces` | src/App-copy.tsx:64-65 | a live verified non-admin is sent to /login, whose screen guard sends them back to / |
| `Forms.EmailIssues` | src/pages/auth/login-page.tsx:31 | an issue on `email` iff the address check fails |
| `Forms.MinLengthIssues` | src/pages/auth/login-page.tsx:32-34 | an issue on the field iff the value is shorter than six characters |
| `Forms.PasswordPairIssues` | src/pages/auth/register-page.tsx:37-47 | no issue iff the password has six or more characters and equals its confirmation; a mismatch is reported on `confirmPassword` |
| `LoginPage.SchemaIssues` | src/pages/auth/login-page.tsx:30-35 | accepted iff a valid address and a password of at least six characters |
| `LoginPage.OnSubmit` | src/pages/auth/login-page.tsx:51-62 | a result is stored, both tokens are written from it, navigation goes to /, and the screen's guard then sends the user home; no result changes nothing and does not navigate |
| `LoginPage.HandleSubmit` | src/pages/auth/login-page.tsx:85 | a form with issues changes nothing and does not navigate; a valid form with a result stores it, writes both its tokens and navigates to /; a valid form without one changes nothing |
| `LoginPage.Guard` | src/pages/auth/login-page.tsx:64-66 | a present session is sent to /; none renders |
| `RegisterPage.SchemaIssues` | src/pages/auth/register-page.tsx:33-47 | accepted iff a valid address and matching passwords of at least six characters; any full name, a mismatch reported on `confirmPassword` |
| `RegisterPage.OnSubmit` | src/pages/auth/register-page.tsx:66-76 | a response with `data` stores it, writes both its tokens and navigates to /; a response without `data` clears the session, then throws before writing a token or navigating; no response changes nothing |
| `RegisterPage.HandleSubmit` | src/pages/auth/register-page.tsx:99 | a form with issues changes nothing and does not navigate; a valid form with a response stores its session, writes both tokens and navigates to /, or clears the session and throws when the response has no `data`; a valid form without a response changes nothing |
| `RegisterPage.Guard` | src/pages/auth/register-page.tsx:78-80 | a present session is sent to /; none renders |
| `RegisterPage.ShortPasswordRejected` | src/pages/auth/register-page.tsx:37-39 | a password under six characters is rejected with an issue on `password` |
| `ResetPasswordPage.SchemaIssues` | src/pages/auth/reset-password-page.tsx:30-44 | accepted iff a valid address and matching passwords of at least six characters; a mismatch reported on `confirmPassword` |
| `ResetPasswordPage.EmailDefault` | src/pages/auth/reset-password-page.tsx:56 | the `email` search parameter, or "" when it is absent |
| `ResetPasswordPage.DefaultForm` | src/pages/auth/reset-password-page.tsx:53-61 | the form starts with the e-mail default and empty code and passwords |
| `ResetPasswordPage.DefaultFormRejected` | src/pages/auth/reset-password-page.tsx:53-61 | the untouched form is never submitted |
| `ResetPasswordPage.SubmitNavigation` | src/pages/auth/reset-password-page.tsx:63-74 | navigates to /login iff the form is valid and the reset succeeded; it takes no store, so the store is never written |
| `ResetPasswordPage.Guard` | src/pages/auth/reset-password-page.tsx:76-78 | a present session is sent to /; none renders |
| `VerifyEmailPage.Guard` | src/pages/auth/verify-email-page.tsx:64-70 | a verified session goes to /, then no session to /login; the form renders iff the session is present and unverified |
| `VerifyEmailPage.MarkVerified` | src/pages/auth/verify-email-page.tsx:48 | the user becomes verified; the tokens and every other user field are unchanged |
| `VerifyEmailPage.OnSubmit` | src/pages/auth/verify-email-page.tsx:45-55 | with a response and a session, the verified session is stored, navigation goes to /, and the screen's guard then sends the user home; otherwise nothing changes |
| `VerifyEmailPage.VerifiedPassesVerificationCheck` | src/ProtectedRoute.tsx:47-52 | a verified session is never sent to /verify-email; every other outcome of the gate stays as it was |
| `EditProfilePage.MatchesPointwise` | src/pages/profile/edit-profile-page.tsx:27-28 | an anchored fixed-length pattern matches iff the lengths agree and each character is in its position's class |
| `EditProfilePage.PhonePatternShape` | src/pages/profile/edit-profile-page.tsx:28 | the pattern has 14 positions: "+8801", [3-9], eight ASCII digits |
| `EditProfilePage.PhonePattern` | src/pages/profile/edit-profile-page.tsx:28 | the anchored pattern as a sequence of character classes, one per position (its shape is stated by `EditProfilePage.PhonePatternShape`) |
| `EditProfilePage.PhoneAccepted` | src/pages/profile/edit-profile-page.tsx:25-30 | a phone number is accepted iff it is "+8801", a digit 3-9 and eight ASCII digits, 14 characters in all |
| `EditProfilePage.SchemaIssues` | src/pages/profile/edit-profile-page.tsx:23-35 | accepted iff valid address, phone and a non-empty URL avatar; an empty avatar is reported as required |
| `EditProfilePage.Defaults` | src/pages/profile/edit-profile-page.tsx:48-52 | the defaults are the session user's e-mail, phone and avatar, absent without a session |
| `EditProfilePage.Merge` | src/pages/profile/edit-profile-page.tsx:58-61 | the three edited fields replace the user's; the tokens and all other user fields are kept |
| `EditProfilePage.MergeDefaultsIsIdentity` | src/pages/profile/edit-profile-page.tsx:48-61 | submitting the defaults unchanged leaves the session as it was |
| `EditProfilePage.MergeKeepsGateDecision` | src/pages/profile/edit-profile-page.tsx:58-61 | a profile edit never changes what the route gate decides |
| `EditProfilePage.OnSubmit` | src/pages/profile/edit-profile-page.tsx:55-66 | the store is updated with the merge only with a response and a session, then navigation goes to /profile; otherwise nothing changes |
| `EditProfilePage.HandleSubmit` | src/pages/profile/edit-profile-page.tsx:72 | a form with issues changes nothing and does not navigate; a valid form stores and persists the merge and navigates to /profile when the update succeeded and a session exists, and otherwise changes nothing |
| `DynamicForm.Toggle` | src/components/dynamic-form.tsx:186-196 | checking an undefined value throws; unchecking keeps it undefined; otherwise the value stays defined |
| `DynamicForm.IsChecked` | src/components/dynamic-form.tsx:185 | a box shows checked iff the value is defined and holds the option at least once |
| `DynamicForm.ToggleShows` | src/components/dynamic-form.tsx:185-196 | after toggling, the box shows checked iff it was toggled on |
| `DynamicForm.CheckAppends` | src/components/dynamic-form.tsx:186-191 | checking appends the value at the end, adding one occurrence (no de-duplication) |
| `DynamicForm.UncheckRemovesAll` | src/components/dynamic-form.tsx:192-196 | unchecking removes every occurrence and keeps every other value as often as before |
| `Seqs.Filter` | src/components/dynamic-form.tsx:193-195 | `filter` keeps only elements of the input that pass the test, and is never longer |
| `Seqs.FilterMember` | src/pages/news/news-page.tsx:190-192 | an element is kept iff it is in the input and passes the test |
| `Seqs.FilterAppend` | src/pages/news/news-page.tsx:190-192 | filtering a concatenation concatenates the filtered parts, so order is preserved |
| `Seqs.FilterCount` | src/components/dynamic-form.tsx:193-195 | a kept value occurs as often as in the input, a dropped one never |
| `NewsPage.SearchQuery` | src/pages/news/news-page.tsx:36-42 | "" iff no non-empty title; otherwise "&title=" followed by the raw title, unencoded, so a title holding `&` adds parameters of its own |
| `NewsPage.ResetDisabled` | src/pages/news/news-page.tsx:184 | disabled iff no query has been applied; a search that applied the empty query still enables it |
| `NewsPage.ExportRows` | src/pages/news/news-page.tsx:188-193 | only selected rows of the nested `data.results` are exported; none when the body has no nested `data` |
| `NewsPage.TableRows` | src/pages/news/news-page.tsx:216 | the table shows the body's `results`, and no rows without a body or without `results` |
| `NewsPage.ExportedExactly` | src/pages/news/news-page.tsx:190-192 | a nested result is exported iff its id is a key of the row selection |
| `NewsPage.ExportKeepsOrder` | src/pages/news/news-page.tsx:190-192 | the export keeps the nested results' order |
| `NewsPage.ExportMissesTableRows` | src/pages/news/news-page.tsx:190-216 | a body of the shape the table reads shows its rows but exports none of them, even with every row selected |
| `NewsPage.StatusChange` | src/pages/news/news-page.tsx:119-123 | the status switch sends the row's id with the negated status |
| `NewsPage.BannerChange` | src/pages/news/news-page.tsx:131-135 | the banner switch sends the row's id with the negated banner flag |
| `NewsPage.DeleteIds` | src/pages/news/news-page.tsx:76-77 | delete sends a one-element list holding the row's id |
| `NewsPage.NewsPageState.constructor` | src/pages/news/news-page.tsx:22-28 | no filters, no query, no item being edited, form closed |
| `NewsPage.NewsPageState.SetTitle` | src/pages/news/news-page.tsx:173-175 | the typed text becomes the filter title |
| `NewsPage.NewsPageState.HandleSearch` | src/pages/news/news-page.tsx:36-42 | the query becomes `SearchQuery` of the filters and the reset button is enabled |
| `NewsPage.NewsPageState.HandleReset` | src/pages/news/news-page.tsx:44-47 | filters and query are cleared and the reset button is disabled |
| `NewsPage.NewsPageState.HandleCreate` | src/pages/news/news-page.tsx:50-53 | no item is being edited and the form is open |
| `NewsPage.NewsPageState.HandleEdit` | src/pages/news/news-page.tsx:55-58 | the item is being edited and the form is open |
| `AppSidebar.NavGroup.constructor` | src/consts.ts:5-16 | a group holds its title, url, flag and sub-items |
| `AppSidebar.FindByUrl` | src/components/app-sidebar.tsx:20 | a found sub-item is in the group and has the path as url, and no earlier sub-item has it; nothing is found iff no sub-item has it |
| `AppSidebar.InitialNavMain` | src/consts.ts:3-18 | one group, inactive, whose only sub-item is the overview at / |
| `AppSidebar.NavMenu` | src/components/app-sidebar.tsx:19-25 | the same groups in the same order; a group becomes active iff it was or one of its sub-items has the path; no flag is cleared |
| `AppSidebar.RenderTwice` | src/components/app-sidebar.tsx:19-24 | across two renders the flags only accumulate |

## Left out

- Network calls (`authApi`, `newsApi`, the `friday` client) are not modelled. Their settled results are parameters: an `Option` response, or a flag saying whether a response arrived.
- Toasts, console logging, rendering and React's own navigation machinery are not modelled. Navigation is a returned `Decision` or target path.
- Decoding a token (split, `atob`, `JSON.parse`) is a parameter `decode`. An `exp` that converts to a number is `Some(n)`, with `n` the whole second it is reached at; one that converts to NaN is `None`. That `decode("")` throws, as the real steps do, is a precondition of `LegacyApp.GatesDisagreeOnEmptyToken`, not a property of the parameter.
- zod's e-mail and URL checks are the parameters `isEmail` and `isUrl`. Lengths are counted in characters rather than UTF-16 code units.
- The persist middleware's serialisation is not modelled: the persisted entry holds the session value itself. Rehydration is taken to be synchronous, as it is with `localStorage`.
- A session without a `user` object cannot be represented, because the session type declares `user`. Such a value could only come from a malformed backend response. On it, `ProtectedRoute` (which tests `auth?.user`) would send the user to /login, and `PublicAuthRoute` (which tests `auth`) would send them back to /, forever.
- Path matching compares exact strings. React Router's case-insensitive matching, trailing slashes and the `state.from` location value itself are not modelled. Only whether it is carried is recorded.
- Each screen's submit handler reads the session the store holds when the handler runs. The render-time capture of `auth` in its closure is taken to be current.
- The verification code's `+data.otp` coercion and the screens' `sendVerificationEmail` are not modelled (network only).
- The forgot-password screen and the not-found screen are not part of this model. Their routes render whatever the gate lets through.
- The image uploader (floating-point compression loop, canvas, upload), the news form dialog, the data table, the delete and switch buttons, the dashboard fetch, and the layout and branding components are not part of this model.
- `cn` (class-name merging) is not modelled.
- The news page's pagination state and the TanStack row-selection updates themselves are not modelled. The selection is taken as a map whose keys are row ids, as the data table configures them.
