# Account interaction pages of an IdentityServer4 identity provider, in Dafny

This project models the account pages of an ASP.NET Core identity provider
built on IdentityServer4. Each page model takes what its collaborators report
and decides what the user sees and where the browser goes next:

- **Login** (`Login.LoginModel`) builds the login prompt. It decides whether local
  login is offered and which external providers are listed. It also decides
  whether the only way in is a single external provider, in which case it
  redirects straight to it.
- **Login, form post** handles cancellation (a consent denial, or a redirect
  home), a successful sign-in, and a failed one (one generic error, and the
  form shown again).
- **Logout** (`Logout.LogoutModel`) decides whether to ask the user to confirm.
  Then it hands off to the logged-out page.
- **LoggedOut** (`LoggedOut.LoggedOutModel`) shows the logout's display data and
  signs the local session out. It decides whether the user must also be signed
  out at an upstream identity provider, and creates a logout id for that when
  none exists yet.
- **Register** (`Register.RegisterModel`) creates a user and then applies the
  same return-URL rule as login. Otherwise it reports every error the user
  store gave.

Each page is a `class` with the page's fields, and each handler is a method
that changes those fields. The parts that only compute are functions:

- provider filtering (the LINQ `Where`/`Select`, in module `Sequences`);
- the return-URL rule (module `ReturnUrls`);
- the sign-out scheme decision.

Collaborators are inputs. They are given as function-valued fields of
`LoginServices`, `RegisterServices` and `Interaction`, and as a
`supportsSignOut` parameter:

- the pending authorization and logout requests;
- the client store;
- the list of authentication schemes;
- the password check;
- the user lookup and user creation;
- `Url.IsLocalUrl`;
- "scheme supports sign-out";
- the id handed out by `CreateLogoutContextAsync`.

Calls that change a collaborator's state are appended, in order, to an
`EffectLog`:

- the consent grant;
- the password sign-in attempt;
- the success and failure events;
- user creation;
- session sign-in and sign-out;
- logout context creation.

On the logged-out page, the handler's `logoutId` argument and the bound
`LogoutId` property are separate inputs, as in the source: the first selects
the logout request, and the second is what gets kept or replaced. The local
session is signed out on the logged-out page. The logout page's POST only
redirects there.

A thrown exception is the `Threw` case of `HandlerResult`. `ModelState` is
modelled as the page's list of model errors, and it is valid when that list
is empty. The `AccountOptions` values are a configuration record.

## Model

| member | source | states |
|---|---|---|
| `ReturnUrls.PostAuthenticationRedirect` | IdApi/Pages/Account/Login.cshtml.cs:105-118 | after authentication the handler completes iff the return URL is local or null/empty; it then always redirects, and only to that local URL or to `~/`; a non-local, non-empty URL throws "invalid return URL" (the same rule is at Register.cshtml.cs:65-78) |
| `Login.ProvidersFromSchemesExact` | IdApi/Pages/Account/Login.cshtml.cs:155-165 | a provider is listed iff its scheme is registered and has a display name or is the Windows scheme (ordinal, case-insensitive); every such scheme is listed, nothing else is, and scheme order is kept (subsequence) |
| `Login.RestrictToClientExact` | IdApi/Pages/Account/Login.cshtml.cs:175-178 | a client with a non-null, non-empty restriction list keeps exactly the providers whose scheme it names, in order; otherwise the list is unchanged |
| `Login.PromptWithoutHint` | IdApi/Pages/Account/Login.cshtml.cs:153-186 | without an `IdP` hint the offered providers are exactly the listed schemes the resolved client allows, in scheme order, and local login is the client's flag (true when no client resolves) AND the global switch |
| `Login.IdPHintForcesExternalLogin` | IdApi/Pages/Account/Login.cshtml.cs:144-151 | with an `IdP` hint local login is off and the providers are exactly `[IdP]`, so the prompt is external-only with that scheme, and none of the providers is visible |
| `Login.ProvidersFromSchemes` | IdApi/Pages/Account/Login.cshtml.cs:157-165 | at most one provider per registered scheme; which ones, and in what order, is stated by `Login.ProvidersFromSchemesExact` |
| `Login.ResolveClient` | IdApi/Pages/Account/Login.cshtml.cs:168-171 | a client is resolved only when the request names a client id, and it is then the store's enabled client for that id |
| `Login.AllowLocal` | IdApi/Pages/Account/Login.cshtml.cs:167-173 | local login is allowed by default; a resolved client's `EnableLocalLogin` decides otherwise |
| `Login.RestrictToClient` | IdApi/Pages/Account/Login.cshtml.cs:175-178 | the restriction never lengthens the list, and a client without a non-empty restriction list leaves it unchanged; the exact contents are stated by `Login.RestrictToClientExact` |
| `Login.SchemesAndClientPolicy` | IdApi/Pages/Account/Login.cshtml.cs:155-180 | the step-by-step provider and local-login computation yields exactly the prompt's providers and, with the global switch, its local-login flag |
| `Login.LoginModel.constructor` | IdApi/Pages/Account/Login.cshtml.cs:46-49 | a fresh page allows remember-me and local login and has no providers |
| `Login.LoginModel.IsExternalLoginOnly` | IdApi/Pages/Account/Login.cshtml.cs:52 | true iff local login is off and exactly one provider is listed |
| `Login.LoginModel.VisibleExternalProviders` | IdApi/Pages/Account/Login.cshtml.cs:50 | the visible providers are exactly those whose display name is not null or white space, in their original order |
| `Login.LoginModel.ExternalLoginScheme` | IdApi/Pages/Account/Login.cshtml.cs:52-53 | non-null iff local login is off and there is exactly one provider, and then it is that provider's scheme |
| `Login.LoginModel.BuildLoginViewModel` | IdApi/Pages/Account/Login.cshtml.cs:140-188 | sets return URL, local-login flag and providers to those the pending request calls for, and the username to its login hint; remember-me and the input's return URL are set only without an `IdP` hint and otherwise keep their values; the password and the remember-me choice are untouched |
| `Login.LoginModel.BuildLoginViewModelFromInputAsWritten` | IdApi/Pages/Account/Login.cshtml.cs:132-138 | as written: when the model passed in is the page's own input, the username left is the login hint, not the submitted one; the prompt fields, remember-me option, input return URL and password end as in the corrected overload |
| `Login.LoginModel.BuildLoginViewModelFromInput` | IdApi/Pages/Account/Login.cshtml.cs:132-138 | corrected: the prompt, the remember-me option and the input's return URL are rebuilt for the submitted return URL; the submitted username, remember-me choice and password are kept |
| `Login.RerenderLosesTypedUsername` | IdApi/Pages/Account/Login.cshtml.cs:127-137 | a concrete run: the page's own input holds the submitted username "alice", there is no pending request, and the as-written re-render called with that input leaves a null username |
| `Login.LoginModel.OnGetAsync` | IdApi/Pages/Account/Login.cshtml.cs:55-67 | builds the prompt (the whole view-model state, with the login hint as username), then redirects to ExternalLogin with the one provider's scheme and the return URL iff the page is external-only, and renders otherwise; with an `IdP` hint the redirect goes to that provider |
| `Login.LoginModel.OnPostAsync` | IdApi/Pages/Account/Login.cshtml.cs:72-130 | cancel: with a pending request, exactly one denied consent and a redirect to the submitted URL unchecked; without one, a redirect to `~/`; no sign-in attempt and no page change either way. Invalid form: no sign-in attempt, form re-rendered. Success: one success event, then the return-URL rule. Success (and the missing-user throw): page and input unchanged. Failure: one "invalid credentials" event, one generic model error, form re-rendered. Every re-render rebuilds the whole view-model state and keeps the submitted username, remember-me choice and password |
| `Logout.LogoutModel.constructor` | IdApi/Pages/Account/Logout.cshtml.cs:25-28 | a fresh page has no logout id, the prompt off, and an empty prompt history |
| `Logout.LogoutModel.BuildLogoutViewModel` | IdApi/Pages/Account/Logout.cshtml.cs:49-66 | the logout id is the argument; the prompt is shown iff the option is on AND the caller is authenticated AND the logout request does not say "no prompt"; every value the flag takes after a false one is false |
| `Logout.LogoutModel.OnGet` | IdApi/Pages/Account/Logout.cshtml.cs:30-42 | without a prompt the result is exactly what `OnPost` returns; with one, the page is rendered; the logout id is unchanged |
| `Logout.LogoutModel.OnPost` | IdApi/Pages/Account/Logout.cshtml.cs:44-47 | always a redirect to LoggedOut carrying the current logout id |
| `Logout.UnauthenticatedNeverPrompted` | IdApi/Pages/Account/Logout.cshtml.cs:54-58 | an unauthenticated caller is never prompted and goes straight to LoggedOut, whatever the logout request and the option say |
| `LoggedOut.LoggedOutModel.constructor` | IdApi/Pages/Account/LoggedOut.cshtml.cs:33-43 | a fresh page has no logout id, no display data, no upstream scheme, and `AutomaticRedirectAfterSignOut` false |
| `LoggedOut.LoggedOutModel.TriggerExternalSignout` | IdApi/Pages/Account/LoggedOut.cshtml.cs:42 | true iff an upstream scheme has been set |
| `LoggedOut.DisplayedClientName` | IdApi/Pages/Account/LoggedOut.cshtml.cs:81 | the client name when it is non-empty, the client id otherwise, and null without a logout request |
| `LoggedOut.ExternalSignOutScheme` | IdApi/Pages/Account/LoggedOut.cshtml.cs:84-101 | an upstream scheme is chosen iff the user is authenticated, has an idp claim, the idp is not "local", and the scheme supports sign-out; it is then the idp |
| `LoggedOut.LoggedOutModel.BuildLoggedOutViewModel` | IdApi/Pages/Account/LoggedOut.cshtml.cs:73-104 | display data come from the logout request; with an upstream scheme a missing logout id is replaced by a created one (one creation effect) and an existing one kept; without one the id, the scheme and the log are untouched |
| `LoggedOut.LoggedOutModel.OnGet` | IdApi/Pages/Account/LoggedOut.cshtml.cs:45-71 | the view model is computed first, from the request's identity; then an authenticated user is signed out with exactly one logout event; the result is an upstream sign-out with a callback to Logout carrying the logout id iff a scheme is set, and the page otherwise |
| `LoggedOut.ServeLoggedOut` | IdApi/Pages/Account/LoggedOut.cshtml.cs:42-71 | on a fresh page model an upstream sign-out happens iff the request's identity calls for one, with the bound logout id or, when there is none, the created one; the effects are the optional creation followed by the local sign-out |
| `Register.ModelErrorsFor` | IdApi/Pages/Account/Register.cshtml.cs:81-84 | one model error with the empty key per store error, in order, carrying its description |
| `Register.RegisterModel.constructor` | IdApi/Pages/Account/Register.cshtml.cs:30-38 | a fresh page has no return URL and no model errors; its input is an empty form (the property starts null and model binding fills it) |
| `Register.RegisterModel.OnGet` | IdApi/Pages/Account/Register.cshtml.cs:32-35 | the return URL is the argument |
| `Register.RegisterModel.OnPostAsync` | IdApi/Pages/Account/Register.cshtml.cs:40-89 | the return URL is the argument; an invalid form creates nobody and re-renders; a created user is signed in (not persistent) with one login event and the return-URL rule follows; a failed creation adds exactly the store's errors, in order, and re-renders |

## Left out

- Asynchrony, the HTTP request lifecycle and dependency injection: handlers run to completion in order.
- Razor rendering, and how `RedirectToPage`, `Redirect` and `Url.Action` format URLs. Results are tagged values carrying their parameters.
- `ReturnUrls.PostAuthenticationRedirect` and `Login.LoginModel.OnPostAsync`: the `ArgumentException` that `PageModel.Redirect` throws for a null or empty URL is not modelled. A `Redirect` with a null or empty URL therefore counts as completing. This arises only when the `isLocalUrl` input holds of such a URL, or when a cancel finds a pending request for a null return URL.
- `Url.IsLocalUrl`: its definition is not part of this model. It is an uninterpreted oracle, with no assumption even about the empty string.
- Password verification, lockout, user creation, cookie sign-in and sign-out, and the identity server's interaction service. These are oracle inputs and entries in the effect log.
- `CreateLogoutContextAsync`: the id it returns is an input. It may be null, so the model does not promise a non-empty logout id after an upstream sign-out.
- `EqualsOrdinalIgnoreCase` folds ASCII letters only. Non-ASCII case mapping for the Windows scheme name is not modelled.
- `ModelState.IsValid` is modelled as "no model errors". Validation from the input models' attributes appears only through those errors, because `LoginInputModel` and `RegisterInputModel` are not part of this model.
- A failed collaborator call (store or network failure) is not modelled. A missing user after a successful password sign-in is modelled as a `NullReferenceException`.
- `User.GetSubjectId()` throwing for a principal without a subject claim is not modelled; the subject id is a field of the principal.
- The page lifetime: a page object lives for one request. `LoggedOut.ServeLoggedOut` states the fresh-object case. The class methods themselves are stated for any prior field values.
- `OnPostAsync` re-renders through `Login.LoginModel.BuildLoginViewModelFromInput`, the corrected overload (see Findings).
- `Startup.cs`, `Program.cs`, the client administration pages and the client DTOs: wiring, bootstrap and scaffolding with no decision logic.

## Findings

| source | as written | input that shows it | evidently intended | confidence | as-written member | corrected member |
|---|---|---|---|---|---|---|
| IdApi/Pages/Account/Login.cshtml.cs:127-137 | `OnPostAsync` passes `Input` itself as `model`. The rebuild first sets `Input.Username` to the request's login hint (lines 149 and 185). `model.Username` is read only afterwards, so the typed username is replaced by the hint. | Post username "alice" with wrong credentials and no pending request: the page model comes back with a null username. | The re-rendered form keeps the submitted username (and remember-me choice). | medium, not executed (the form's tag helpers may still show the posted value from model state) | `Login.LoginModel.BuildLoginViewModelFromInputAsWritten`, `Login.RerenderLosesTypedUsername` | `Login.LoginModel.BuildLoginViewModelFromInput` |
